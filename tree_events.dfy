/**
 * The list of events of a transmission tree: one event per node, a sample
 * for a leaf and a coalescence for an internal node, each at the epidemic
 * time of the node, sorted from the latest time to the earliest. The list
 * is cached and rebuilt only after the tree has been marked changed.
 */
module TreeEvents {
  import opened Sorting
  import opened EpiInfUtilityMethods

  datatype TreeEventType = SampleEvent | Coalescence

  datatype TreeEvent = TreeEvent(node: TreeNode, kind: TreeEventType, time: real)

  /** getTimeFromHeight: the epidemic time of a node, counted forward from the start of the epidemic. */
  function TimeFromHeight(origin: real, rootHeight: real, height: real): real
  {
    origin + rootHeight - height
  }

  /** The root sits at the origin, and a greater height is an earlier time. */
  lemma TimeFromHeightMeaning(origin: real, rootHeight: real, h1: real, h2: real)
    ensures TimeFromHeight(origin, rootHeight, rootHeight) == origin
    ensures h1 <= h2 <==> TimeFromHeight(origin, rootHeight, h1) >= TimeFromHeight(origin, rootHeight, h2)
    ensures TimeFromHeight(origin, rootHeight, h1) - TimeFromHeight(origin, rootHeight, h2) == h2 - h1
  {
  }

  /** The event of one node. */
  function EventOf(node: TreeNode, origin: real, rootHeight: real): TreeEvent
  {
    TreeEvent(node, if node.isLeaf then SampleEvent else Coalescence, TimeFromHeight(origin, rootHeight, node.height))
  }

  /** The events of the nodes, in the order of the node array. */
  function EventsOf(nodes: seq<TreeNode>, origin: real, rootHeight: real): (r: seq<TreeEvent>)
    ensures |r| == |nodes| && forall i :: 0 <= i < |nodes| ==> r[i] == EventOf(nodes[i], origin, rootHeight)
  {
    if nodes == [] then [] else EventsOf(nodes[..|nodes| - 1], origin, rootHeight) + [EventOf(nodes[|nodes| - 1], origin, rootHeight)]
  }

  /** The sort key: the later the time, the earlier the event in the list. */
  function Lateness(e: TreeEvent): real
  {
    -e.time
  }

  /** The event list: the events of the nodes, stably sorted by non-increasing time. */
  function EventList(nodes: seq<TreeNode>, origin: real, rootHeight: real): seq<TreeEvent>
  {
    SortBy(EventsOf(nodes, origin, rootHeight), Lateness)
  }

  /**
   * The list holds exactly one event per node, of the node's kind and at
   * its time; the times never increase along the list; the root comes at
   * the origin; and events at the same time keep the order of their nodes.
   */
  lemma EventListMeaning(nodes: seq<TreeNode>, origin: real, rootHeight: real)
    ensures var r := EventList(nodes, origin, rootHeight);
            && |r| == |nodes|
            && multiset(r) == multiset(EventsOf(nodes, origin, rootHeight))
            && (forall i, j :: 0 <= i < j < |r| ==> r[i].time >= r[j].time)
            && (forall i :: 0 <= i < |r| ==> (r[i].kind == SampleEvent <==> r[i].node.isLeaf))
            && (forall i :: 0 <= i < |r| ==> r[i].time == TimeFromHeight(origin, rootHeight, r[i].node.height))
            && (forall t :: WithKey(r, Lateness, t) == WithKey(EventsOf(nodes, origin, rootHeight), Lateness, t))
  {
    var es := EventsOf(nodes, origin, rootHeight);
    var r := EventList(nodes, origin, rootHeight);
    forall i, j | 0 <= i < j < |r|
      ensures r[i].time >= r[j].time
    {
      assert Lateness(r[i]) <= Lateness(r[j]);
    }
    forall i | 0 <= i < |r|
      ensures (r[i].kind == SampleEvent <==> r[i].node.isLeaf) && r[i].time == TimeFromHeight(origin, rootHeight, r[i].node.height)
    {
      assert r[i] in multiset(es);
      var m :| 0 <= m < |es| && es[m] == r[i];
    }
    forall t
      ensures WithKey(r, Lateness, t) == WithKey(es, Lateness, t)
    {
      SortByStable(es, Lateness, t);
    }
  }

  /** updateEventList: one event per node in node order, then the sort. */
  method BuildEventList(nodes: seq<TreeNode>, origin: real, rootHeight: real) returns (r: seq<TreeEvent>)
    ensures r == EventList(nodes, origin, rootHeight)
  {
    var events: seq<TreeEvent> := [];
    var i := 0;
    while i < |nodes|
      invariant 0 <= i <= |nodes|
      invariant events == EventsOf(nodes[..i], origin, rootHeight)
    {
      var node := nodes[i];
      var kind := if node.isLeaf then SampleEvent else Coalescence;
      var event := TreeEvent(node, kind, TimeFromHeight(origin, rootHeight, node.height));
      assert nodes[..i + 1][..i] == nodes[..i];
      events := events + [event];
      i := i + 1;
    }
    assert nodes[..i] == nodes;
    r := SortBy(events, Lateness);
  }

  /**
   * The cached event list of a tree. The tree (its node array and root
   * height) and the origin are inputs that change between calls; a change
   * is announced by requiresRecalculation.
   */
  class TreeEventList {
    var nodes: seq<TreeNode>
    var rootHeight: real
    var origin: real
    var eventList: seq<TreeEvent>
    var eventListStored: seq<TreeEvent>
    var dirty: bool

    /** Whether the cached list is the list of the current tree. */
    ghost predicate Current()
      reads this
    {
      eventList == EventList(nodes, origin, rootHeight)
    }

    /** initAndValidate: empty lists, then a first update. */
    constructor(nodes0: seq<TreeNode>, rootHeight0: real, origin0: real)
      ensures nodes == nodes0 && rootHeight == rootHeight0 && origin == origin0
      ensures eventList == EventList(nodes0, origin0, rootHeight0) && eventListStored == [] && !dirty
    {
      nodes, rootHeight, origin := nodes0, rootHeight0, origin0;
      eventListStored := [];
      eventList := [];
      dirty := false;
      new;
      UpdateEventList();
    }

    /** updateEventList: rebuild the list from the current tree and mark it clean. */
    method UpdateEventList()
      modifies this
      ensures eventList == EventList(nodes, origin, rootHeight) && !dirty
      ensures nodes == old(nodes) && rootHeight == old(rootHeight) && origin == old(origin)
      ensures eventListStored == old(eventListStored)
    {
      var events := BuildEventList(nodes, origin, rootHeight);
      eventList, dirty := events, false;
    }

    /** getEventList: rebuild only when marked changed, and return the list. */
    method GetEventList() returns (r: seq<TreeEvent>)
      modifies this
      ensures r == eventList && !dirty
      ensures old(dirty) ==> Current()
      ensures !old(dirty) ==> eventList == old(eventList)
      ensures old(Current()) ==> Current()
      ensures nodes == old(nodes) && rootHeight == old(rootHeight) && origin == old(origin)
      ensures eventListStored == old(eventListStored)
    {
      if dirty {
        UpdateEventList();
      }
      r := eventList;
    }

    /** requiresRecalculation: mark the list changed; it always answers true. */
    method RequiresRecalculation() returns (r: bool)
      modifies this
      ensures r && dirty
      ensures eventList == old(eventList) && eventListStored == old(eventListStored)
      ensures nodes == old(nodes) && rootHeight == old(rootHeight) && origin == old(origin)
    {
      dirty := true;
      r := true;
    }

    /** store: keep a copy of the list. */
    method Store()
      modifies this
      ensures eventListStored == eventList == old(eventList) && dirty == old(dirty)
      ensures nodes == old(nodes) && rootHeight == old(rootHeight) && origin == old(origin)
    {
      eventListStored := eventList;
    }

    /** restore: put the copy back and mark the list clean. */
    method Restore()
      modifies this
      ensures eventList == old(eventListStored) && eventListStored == old(eventListStored) && !dirty
      ensures nodes == old(nodes) && rootHeight == old(rootHeight) && origin == old(origin)
    {
      eventList := eventListStored;
      dirty := false;
    }
  }

  /**
   * The cycle the framework drives: a list stored while current for a
   * tree, the tree changed and announced, and then put back both in tree
   * and list, is current again and clean.
   */
  method StoreChangeRestore(l: TreeEventList, changedNodes: seq<TreeNode>, changedRootHeight: real)
    requires l.Current()
    modifies l
    ensures l.Current() && !l.dirty
    ensures l.nodes == old(l.nodes) && l.rootHeight == old(l.rootHeight) && l.origin == old(l.origin)
  {
    var savedNodes, savedRootHeight := l.nodes, l.rootHeight;
    l.Store();
    l.nodes, l.rootHeight := changedNodes, changedRootHeight;
    var _ := l.RequiresRecalculation();
    var _ := l.GetEventList();
    l.nodes, l.rootHeight := savedNodes, savedRootHeight;
    l.Restore();
  }
}
