/**
 * The sorted list of observed events that the tree densities walk: one
 * event per tree node, one per unsequenced sample, a zero-multiplicity
 * leaf per rho sampling time and a closing end-of-observation event, with
 * concurrent events of one type collated and lineage counts attached.
 */
module ObservedEventsList {
  import opened Wrappers
  import opened Sorting
  import EpidemicModel

  datatype ObservedType = Coalescence | Leaf | SampledAncestor | UnsequencedSample | ObservationEnd

  datatype ObservedEvent = ObservedEvent(time: real, kind: ObservedType, multiplicity: int, lineages: int, isFinal: bool)

  /** What the list reads of a tree node. */
  datatype TreeNode = TreeNode(height: real, isLeaf: bool, isDirectAncestor: bool, isFake: bool)

  /** Incidence data: distinct sample ages and how many samples each has. */
  datatype Incidence = Incidence(uniqueAges: seq<real>, counts: seq<int>)

  /**
   * What updateEventList reads from its collaborators at the time of the
   * call: the tree's nodes, the incidence ages or data, the final sample
   * offset and the epidemic model's origin and event list.
   */
  datatype Inputs = Inputs(tree: Option<seq<TreeNode>>, incidenceAges: Option<seq<real>>,
                           incidenceData: Option<Incidence>, finalTreeSampleOffset: real,
                           origin: real, modelEvents: seq<EpidemicModel.ModelEvent>)

  /** Tolerance for deviation between event times, 1e-10. */
  const Tolerance: real := 0.0000000001

  /** getTimeFromAge: an age before the end of observation as an absolute time. */
  function TimeFromAge(origin: real, age: real): (t: real)
    ensures t + age == origin
  {
    origin - age
  }

  function NewEvent(time: real, kind: ObservedType, multiplicity: int): ObservedEvent
  {
    ObservedEvent(time, kind, multiplicity, 0, false)
  }

  /** The event type of a tree node. */
  function NodeKind(node: TreeNode): ObservedType
  {
    if !node.isLeaf then Coalescence else if node.isDirectAncestor then SampledAncestor else Leaf
  }

  /** One event per node that is not fake, at the node's height plus the offset before the origin. */
  function NodeEvents(nodes: seq<TreeNode>, offset: real, origin: real): seq<ObservedEvent>
  {
    if nodes == [] then []
    else
      var last := nodes[|nodes| - 1];
      NodeEvents(nodes[..|nodes| - 1], offset, origin)
      + (if last.isFake then [] else [NewEvent(TimeFromAge(origin, last.height + offset), NodeKind(last), 1)])
  }

  function AgeEvents(ages: seq<real>, origin: real): (r: seq<ObservedEvent>)
    ensures |r| == |ages|
  {
    seq(|ages|, i requires 0 <= i < |ages| => NewEvent(TimeFromAge(origin, ages[i]), UnsequencedSample, 1))
  }

  function DataEvents(data: Incidence, origin: real): (r: seq<ObservedEvent>)
    requires |data.counts| >= |data.uniqueAges|
    ensures |r| == |data.uniqueAges|
  {
    seq(|data.uniqueAges|, i requires 0 <= i < |data.uniqueAges| =>
      NewEvent(TimeFromAge(origin, data.uniqueAges[i]), UnsequencedSample, data.counts[i]))
  }

  /** The incidence data names a count for every age. */
  predicate WellFormed(inputs: Inputs)
  {
    inputs.incidenceData.Some? ==> |inputs.incidenceData.value.counts| >= |inputs.incidenceData.value.uniqueAges|
  }

  /** The events assembled before the sort, in the order they are appended. */
  function UnsortedEvents(inputs: Inputs): seq<ObservedEvent>
    requires WellFormed(inputs)
  {
    (if inputs.tree.None? then [] else NodeEvents(inputs.tree.value, inputs.finalTreeSampleOffset, inputs.origin))
    + (if inputs.incidenceAges.None? then [] else AgeEvents(inputs.incidenceAges.value, inputs.origin))
    + (if inputs.incidenceData.None? then [] else DataEvents(inputs.incidenceData.value, inputs.origin))
  }

  function EventTime(e: ObservedEvent): real
  {
    e.time
  }

  /** A zero-multiplicity leaf for each rho sampling event of the model, in the model's order. */
  function RhoLeaves(modelEvents: seq<EpidemicModel.ModelEvent>): seq<ObservedEvent>
  {
    if modelEvents == [] then []
    else
      var last := modelEvents[|modelEvents| - 1];
      RhoLeaves(modelEvents[..|modelEvents| - 1])
      + (if last.RhoSampling? then [NewEvent(last.time, Leaf, 0)] else [])
  }

  /** The list before collation: the sorted events, then the rho leaves, then the end of observation. */
  function Assembled(inputs: Inputs): seq<ObservedEvent>
    requires WellFormed(inputs)
  {
    SortBy(UnsortedEvents(inputs), EventTime) + RhoLeaves(inputs.modelEvents)
    + [NewEvent(inputs.origin, ObservationEnd, 1)]
  }

  // ---------------------------------------------------------------------
  // Collation

  /** Two neighbouring events are concurrent when they share a type and their times differ by less than the tolerance. */
  predicate Concurrent(a: ObservedEvent, b: ObservedEvent)
  {
    a.kind == b.kind && -Tolerance < b.time - a.time < Tolerance
  }

  /** Event `i` folded into event `i - 1`, which keeps its time and type and adds the multiplicity. */
  function MergeAt(l: seq<ObservedEvent>, i: nat): (r: seq<ObservedEvent>)
    requires 1 <= i < |l|
    ensures |r| == |l| - 1
  {
    l[..i - 1] + [l[i - 1].(multiplicity := l[i - 1].multiplicity + l[i].multiplicity)] + l[i + 1..]
  }

  /** The collation loop from index `i`. */
  function CollateFrom(l: seq<ObservedEvent>, i: nat): (r: seq<ObservedEvent>)
    requires 1 <= i
    decreases |l| - i + |l|
  {
    if i >= |l| then l
    else if Concurrent(l[i - 1], l[i]) then CollateFrom(MergeAt(l, i), i)
    else CollateFrom(l, i + 1)
  }

  /** The total multiplicity of the events of one type. */
  function TypeTotal(l: seq<ObservedEvent>, kind: ObservedType): int
  {
    if l == [] then 0
    else TypeTotal(l[..|l| - 1], kind) + (if l[|l| - 1].kind == kind then l[|l| - 1].multiplicity else 0)
  }

  lemma {:induction false} TypeTotalAppend(a: seq<ObservedEvent>, b: seq<ObservedEvent>, kind: ObservedType)
    ensures TypeTotal(a + b, kind) == TypeTotal(a, kind) + TypeTotal(b, kind)
    decreases |b|
  {
    if b == [] {
      assert a + b == a;
    } else {
      assert (a + b)[..|a + b| - 1] == a + b[..|b| - 1];
      TypeTotalAppend(a, b[..|b| - 1], kind);
    }
  }

  lemma TypeTotalOne(e: ObservedEvent, kind: ObservedType)
    ensures TypeTotal([e], kind) == if e.kind == kind then e.multiplicity else 0
  {
    assert [e][..0] == [];
  }

  /** Merging keeps the total multiplicity of every type. */
  lemma MergeKeepsTotals(l: seq<ObservedEvent>, i: nat, kind: ObservedType)
    requires 1 <= i < |l| && l[i - 1].kind == l[i].kind
    ensures TypeTotal(MergeAt(l, i), kind) == TypeTotal(l, kind)
  {
    var merged := l[i - 1].(multiplicity := l[i - 1].multiplicity + l[i].multiplicity);
    assert l == l[..i - 1] + [l[i - 1]] + [l[i]] + l[i + 1..];
    TypeTotalAppend(l[..i - 1] + [l[i - 1]] + [l[i]], l[i + 1..], kind);
    TypeTotalAppend(l[..i - 1] + [l[i - 1]], [l[i]], kind);
    TypeTotalAppend(l[..i - 1], [l[i - 1]], kind);
    TypeTotalAppend(l[..i - 1] + [merged], l[i + 1..], kind);
    TypeTotalAppend(l[..i - 1], [merged], kind);
    TypeTotalOne(l[i - 1], kind);
    TypeTotalOne(l[i], kind);
    TypeTotalOne(merged, kind);
  }

  /** No two neighbours among the first `i` events are concurrent. */
  predicate CollatedUpTo(l: seq<ObservedEvent>, i: nat)
  {
    forall j :: 1 <= j < i && j < |l| ==> !Concurrent(l[j - 1], l[j])
  }

  /**
   * Collation leaves no two concurrent neighbours, keeps the total
   * multiplicity of every type, and keeps a non-empty list non-empty with
   * the last event's type unchanged.
   */
  lemma {:induction false} CollateMeaning(l: seq<ObservedEvent>, i: nat, kind: ObservedType)
    requires 1 <= i && CollatedUpTo(l, i)
    ensures var r := CollateFrom(l, i);
            CollatedUpTo(r, |r|) && TypeTotal(r, kind) == TypeTotal(l, kind)
            && (|l| >= 1 ==> |r| >= 1 && r[|r| - 1].kind == l[|l| - 1].kind)
    decreases |l| - i + |l|
  {
    if i >= |l| {
    } else if Concurrent(l[i - 1], l[i]) {
      var m := MergeAt(l, i);
      MergeKeepsTotals(l, i, kind);
      assert m[i - 1].kind == l[i - 1].kind && m[i - 1].time == l[i - 1].time;
      assert forall j :: 0 <= j < i - 1 ==> m[j] == l[j];
      assert CollatedUpTo(m, i);
      assert m[|m| - 1].kind == l[|l| - 1].kind by {
        if i == |l| - 1 {
          assert m[|m| - 1] == m[i - 1];
        } else {
          assert m[|m| - 1] == l[|l| - 1];
        }
      }
      CollateMeaning(m, i, kind);
    } else {
      CollateMeaning(l, i + 1, kind);
    }
  }

  /** The list after collation. */
  function Collated(l: seq<ObservedEvent>): seq<ObservedEvent>
  {
    CollateFrom(l, 1)
  }

  // ---------------------------------------------------------------------
  // Final mark and lineage counts

  /** The lineage change an event causes: up on coalescence, down on a leaf, none otherwise. */
  function LineageDelta(e: ObservedEvent): int
  {
    match e.kind
    case Coalescence => e.multiplicity
    case Leaf => -e.multiplicity
    case _ => 0
  }

  /** The events with their lineage counts, the first one holding `k`. */
  function WithLineages(l: seq<ObservedEvent>, k: int): (r: seq<ObservedEvent>)
    ensures |r| == |l|
    decreases |l|
  {
    if l == [] then [] else [l[0].(lineages := k)] + WithLineages(l[1..], k + LineageDelta(l[0]))
  }

  /** The last event marked final. */
  function MarkLast(l: seq<ObservedEvent>): (r: seq<ObservedEvent>)
    ensures |r| == |l|
  {
    if l == [] then [] else l[|l| - 1 := l[|l| - 1].(isFinal := true)]
  }

  /** The finished list: collated, the last event marked final, lineage counts attached from 1. */
  function Finished(inputs: Inputs): seq<ObservedEvent>
    requires WellFormed(inputs)
  {
    WithLineages(MarkLast(Collated(Assembled(inputs))), 1)
  }

  /** Two lists hold the same events up to their lineage counts and final marks. */
  predicate Alike(a: seq<ObservedEvent>, b: seq<ObservedEvent>)
  {
    |a| == |b|
    && forall i :: 0 <= i < |a| ==> a[i].time == b[i].time && a[i].kind == b[i].kind && a[i].multiplicity == b[i].multiplicity
  }

  /** Lineage counts start at `k` and change by each event's delta; nothing else about the events changes. */
  lemma {:induction false} WithLineagesMeaning(l: seq<ObservedEvent>, k: int)
    ensures var r := WithLineages(l, k);
            (|l| > 0 ==> r[0].lineages == k)
            && (forall i :: 0 <= i < |l| - 1 ==> r[i + 1].lineages == r[i].lineages + LineageDelta(l[i]))
            && (forall i :: 0 <= i < |l| ==> r[i] == l[i].(lineages := r[i].lineages))
    decreases |l|
  {
    if l != [] {
      WithLineagesMeaning(l[1..], k + LineageDelta(l[0]));
      var r := WithLineages(l, k);
      var rest := WithLineages(l[1..], k + LineageDelta(l[0]));
      assert r == [l[0].(lineages := k)] + rest;
      forall i | 0 <= i < |l| - 1 ensures r[i + 1].lineages == r[i].lineages + LineageDelta(l[i]) {
        if i > 0 {
          assert r[i] == rest[i - 1] && r[i + 1] == rest[i] && l[i] == l[1..][i - 1];
        }
      }
      forall i | 0 <= i < |l| ensures r[i] == l[i].(lineages := r[i].lineages) {
        if i > 0 {
          assert r[i] == rest[i - 1] && l[i] == l[1..][i - 1];
        }
      }
    }
  }

  /** Marking the last event of a list with no final event makes it the only final one. */
  lemma MarkLastMeaning(l: seq<ObservedEvent>)
    requires NoneFinal(l)
    ensures Alike(MarkLast(l), l)
    ensures forall i :: 0 <= i < |l| ==> (MarkLast(l)[i].isFinal <==> i == |l| - 1)
  {
    if l != [] {
      assert forall i :: 0 <= i < |l| - 1 ==> MarkLast(l)[i] == l[i] && l[i] in l;
    }
  }

  lemma AlikeKeepsCollated(a: seq<ObservedEvent>, b: seq<ObservedEvent>)
    requires Alike(a, b) && CollatedUpTo(b, |b|)
    ensures CollatedUpTo(a, |a|)
  {
    assert forall j :: 1 <= j < |a| ==> (Concurrent(a[j - 1], a[j]) <==> Concurrent(b[j - 1], b[j]));
  }

  /** The finished list holds the collated events, with only the last one marked final. */
  lemma FinishedAlike(inputs: Inputs)
    requires WellFormed(inputs)
    ensures var f := Finished(inputs);
            Alike(f, Collated(Assembled(inputs)))
            && (forall i :: 0 <= i < |f| ==> (f[i].isFinal <==> i == |f| - 1))
  {
    var c := Collated(Assembled(inputs));
    FinalFalse(inputs);
    MarkLastMeaning(c);
    WithLineagesMeaning(MarkLast(c), 1);
  }

  /** The finished list ends with the end of observation, the only event marked final. */
  lemma FinishedEnds(inputs: Inputs)
    requires WellFormed(inputs)
    ensures var f := Finished(inputs);
            |f| >= 1 && f[|f| - 1].kind == ObservationEnd
            && (forall i :: 0 <= i < |f| ==> (f[i].isFinal <==> i == |f| - 1))
  {
    CollatedEnds(inputs);
    FinishedKeepsLast(Collated(Assembled(inputs)), ObservationEnd);
    FinishedAlike(inputs);
  }

  /** Marking and counting a list keeps the type of its last event. */
  lemma FinishedKeepsLast(c: seq<ObservedEvent>, kind: ObservedType)
    requires |c| >= 1 && c[|c| - 1].kind == kind
    ensures var f := WithLineages(MarkLast(c), 1); |f| >= 1 && f[|f| - 1].kind == kind
  {
    WithLineagesMeaning(MarkLast(c), 1);
  }

  lemma CollatedEnds(inputs: Inputs)
    requires WellFormed(inputs)
    ensures var c := Collated(Assembled(inputs)); |c| >= 1 && c[|c| - 1].kind == ObservationEnd
  {
    AssembledEnds(inputs);
    CollatedKeepsLast(Assembled(inputs), ObservationEnd);
  }

  /** Collation keeps a non-empty list non-empty, ending with the same type. */
  lemma CollatedKeepsLast(l: seq<ObservedEvent>, kind: ObservedType)
    requires |l| >= 1 && l[|l| - 1].kind == kind
    ensures var c := Collated(l); |c| >= 1 && c[|c| - 1].kind == kind
  {
    CollateMeaning(l, 1, kind);
  }

  lemma AlikeLast(a: seq<ObservedEvent>, b: seq<ObservedEvent>)
    requires Alike(a, b) && |b| >= 1
    ensures |a| >= 1 && a[|a| - 1].kind == b[|b| - 1].kind
  {
  }

  lemma AssembledEnds(inputs: Inputs)
    requires WellFormed(inputs)
    ensures var a := Assembled(inputs); |a| >= 1 && a[|a| - 1].kind == ObservationEnd
  {
    var front := SortBy(UnsortedEvents(inputs), EventTime) + RhoLeaves(inputs.modelEvents);
    assert Assembled(inputs) == front + [NewEvent(inputs.origin, ObservationEnd, 1)];
  }

  /** No two neighbours of the finished list are concurrent, and every type keeps its total multiplicity. */
  lemma FinishedCollated(inputs: Inputs, kind: ObservedType)
    requires WellFormed(inputs)
    ensures var f := Finished(inputs);
            CollatedUpTo(f, |f|) && TypeTotal(f, kind) == TypeTotal(Assembled(inputs), kind)
  {
    var c := Collated(Assembled(inputs));
    CollateMeaning(Assembled(inputs), 1, kind);
    FinishedAlike(inputs);
    AlikeKeepsCollated(Finished(inputs), c);
    TypeTotalSame(Finished(inputs), c, kind);
  }

  /** Lineage counts of the finished list start at 1 and follow each event's delta. */
  lemma FinishedLineages(inputs: Inputs)
    requires WellFormed(inputs)
    ensures var f := Finished(inputs);
            |f| >= 1 && f[0].lineages == 1
            && (forall i :: 0 <= i < |f| - 1 ==> f[i + 1].lineages == f[i].lineages + LineageDelta(f[i]))
  {
    CollateMeaning(Assembled(inputs), 1, ObservationEnd);
    LineagesFollow(MarkLast(Collated(Assembled(inputs))), 1);
  }

  lemma LineagesFollow(l: seq<ObservedEvent>, k: int)
    ensures var r := WithLineages(l, k);
            (|r| > 0 ==> r[0].lineages == k)
            && (forall i :: 0 <= i < |r| - 1 ==> r[i + 1].lineages == r[i].lineages + LineageDelta(r[i]))
  {
    WithLineagesMeaning(l, k);
    var r := WithLineages(l, k);
    assert forall i :: 0 <= i < |r| ==> LineageDelta(r[i]) == LineageDelta(l[i]);
  }

  /** Only the final mark sets isFinal: the assembled and collated events all carry it unset. */
  lemma FinalFalse(inputs: Inputs)
    requires WellFormed(inputs)
    ensures NoneFinal(Collated(Assembled(inputs)))
  {
    AssembledNotFinal(inputs);
    CollateKeepsNotFinal(Assembled(inputs), 1);
  }

  predicate NoneFinal(l: seq<ObservedEvent>)
  {
    forall e | e in l :: !e.isFinal
  }

  lemma {:induction false} NodeEventsNotFinal(nodes: seq<TreeNode>, offset: real, origin: real)
    ensures NoneFinal(NodeEvents(nodes, offset, origin))
    decreases |nodes|
  {
    if nodes != [] {
      NodeEventsNotFinal(nodes[..|nodes| - 1], offset, origin);
    }
  }

  lemma {:induction false} RhoLeavesShape(modelEvents: seq<EpidemicModel.ModelEvent>)
    ensures NoneFinal(RhoLeaves(modelEvents))
    ensures forall e | e in RhoLeaves(modelEvents) :: e.kind == Leaf && e.multiplicity == 0
    decreases |modelEvents|
  {
    if modelEvents != [] {
      RhoLeavesShape(modelEvents[..|modelEvents| - 1]);
    }
  }

  lemma SortKeepsNotFinal(l: seq<ObservedEvent>)
    requires NoneFinal(l)
    ensures NoneFinal(SortBy(l, EventTime))
  {
    var sorted := SortBy(l, EventTime);
    forall e | e in sorted ensures !e.isFinal {
      assert e in multiset(sorted);
      assert e in multiset(l);
    }
  }

  lemma UnsortedNotFinal(inputs: Inputs)
    requires WellFormed(inputs)
    ensures NoneFinal(UnsortedEvents(inputs))
  {
    if inputs.tree.Some? {
      NodeEventsNotFinal(inputs.tree.value, inputs.finalTreeSampleOffset, inputs.origin);
    }
  }

  lemma AssembledNotFinal(inputs: Inputs)
    requires WellFormed(inputs)
    ensures NoneFinal(Assembled(inputs))
  {
    UnsortedNotFinal(inputs);
    SortKeepsNotFinal(UnsortedEvents(inputs));
    RhoLeavesShape(inputs.modelEvents);
  }

  lemma {:induction false} CollateKeepsNotFinal(l: seq<ObservedEvent>, i: nat)
    requires 1 <= i && NoneFinal(l)
    ensures NoneFinal(CollateFrom(l, i))
    decreases |l| - i + |l|
  {
    if i < |l| {
      if Concurrent(l[i - 1], l[i]) {
        var m := MergeAt(l, i);
        assert forall j :: 0 <= j < |m| ==> m[j] in l || m[j] == l[i - 1].(multiplicity := l[i - 1].multiplicity + l[i].multiplicity);
        CollateKeepsNotFinal(m, i);
      } else {
        CollateKeepsNotFinal(l, i + 1);
      }
    }
  }

  lemma {:induction false} TypeTotalSame(a: seq<ObservedEvent>, b: seq<ObservedEvent>, kind: ObservedType)
    requires |a| == |b|
    requires forall i :: 0 <= i < |a| ==> a[i].kind == b[i].kind && a[i].multiplicity == b[i].multiplicity
    ensures TypeTotal(a, kind) == TypeTotal(b, kind)
    decreases |a|
  {
    if a != [] {
      TypeTotalSame(a[..|a| - 1], b[..|b| - 1], kind);
    }
  }

  /** The rho leaves are zero-multiplicity leaves, one per rho sampling event of the model. */
  lemma {:induction false} RhoLeavesCount(modelEvents: seq<EpidemicModel.ModelEvent>)
    ensures |RhoLeaves(modelEvents)| == |set i | 0 <= i < |modelEvents| && modelEvents[i].RhoSampling?|
    decreases |modelEvents|
  {
    if modelEvents != [] {
      var n := |modelEvents| - 1;
      var init := modelEvents[..n];
      RhoLeavesCount(init);
      var sInit := set i | 0 <= i < n && init[i].RhoSampling?;
      var sAll := set i | 0 <= i < |modelEvents| && modelEvents[i].RhoSampling?;
      assert sInit == set i | 0 <= i < n && modelEvents[i].RhoSampling?;
      if modelEvents[n].RhoSampling? {
        assert sAll == sInit + {n};
      } else {
        assert sAll == sInit;
      }
    }
  }

  // ---------------------------------------------------------------------
  // The list object

  class ObservedEventsList {
    var eventList: seq<ObservedEvent>
    var dirty: bool

    constructor()
      ensures eventList == [] && dirty
    {
      eventList := [];
      dirty := true;
    }

    /** updateEventList: nothing while clean; otherwise the list is rebuilt and the list becomes clean. */
    method UpdateEventList(inputs: Inputs)
      requires WellFormed(inputs)
      modifies this
      ensures !dirty
      ensures old(dirty) ==> eventList == Finished(inputs)
      ensures !old(dirty) ==> eventList == old(eventList)
    {
      if !dirty {
        return;
      }
      eventList := BuildEventList(inputs);
      dirty := false;
    }

    /** getCurrentLineageCount: the lineages of the event at the state's index, or 0 past the end. */
    method GetCurrentLineageCount(inputs: Inputs, observedEventIdx: nat) returns (n: int)
      requires WellFormed(inputs)
      modifies this
      ensures !dirty
      ensures old(dirty) ==> eventList == Finished(inputs)
      ensures !old(dirty) ==> eventList == old(eventList)
      ensures n == if observedEventIdx < |eventList| then eventList[observedEventIdx].lineages else 0
    {
      UpdateEventList(inputs);
      if observedEventIdx < |eventList| {
        return eventList[observedEventIdx].lineages;
      } else {
        return 0;
      }
    }

    /** makeDirty: the list is rebuilt before it is next queried. */
    method MakeDirty()
      modifies this`dirty
      ensures dirty
    {
      dirty := true;
    }
  }

  /** The rebuilding part of updateEventList: assemble, collate, mark the last event final, attach lineage counts. */
  method BuildEventList(inputs: Inputs) returns (events: seq<ObservedEvent>)
    requires WellFormed(inputs)
    ensures events == Finished(inputs)
  {
    events := AssembleEvents(inputs);
    CollatedNonEmpty(inputs);
    events := Collate(events);
    events := events[|events| - 1 := events[|events| - 1].(isFinal := true)];
    events := AttachLineages(events);
  }

  /** The collated list keeps at least the end event. */
  lemma CollatedNonEmpty(inputs: Inputs)
    requires WellFormed(inputs)
    ensures |Collated(Assembled(inputs))| >= 1
  {
    CollateMeaning(Assembled(inputs), 1, ObservationEnd);
  }

  /** The assembly part of updateEventList: tree, incidence ages, incidence data, sort, rho leaves, end. */
  method AssembleEvents(inputs: Inputs) returns (events: seq<ObservedEvent>)
    requires WellFormed(inputs)
    ensures events == Assembled(inputs)
  {
    events := [];
    if inputs.tree.Some? {
      var nodes := inputs.tree.value;
      for i := 0 to |nodes|
        invariant events == NodeEvents(nodes[..i], inputs.finalTreeSampleOffset, inputs.origin)
      {
        assert nodes[..i + 1][..i] == nodes[..i];
        var node := nodes[i];
        if node.isFake {
          continue;
        }
        var kind: ObservedType;
        if node.isLeaf {
          if node.isDirectAncestor {
            kind := SampledAncestor;
          } else {
            kind := Leaf;
          }
        } else {
          kind := Coalescence;
        }
        events := events + [NewEvent(TimeFromAge(inputs.origin, node.height + inputs.finalTreeSampleOffset), kind, 1)];
      }
      assert nodes[..|nodes|] == nodes;
    }
    ghost var afterTree := events;
    if inputs.incidenceAges.Some? {
      var ages := inputs.incidenceAges.value;
      for i := 0 to |ages|
        invariant events == afterTree + AgeEvents(ages, inputs.origin)[..i]
      {
        assert AgeEvents(ages, inputs.origin)[..i + 1] == AgeEvents(ages, inputs.origin)[..i] + [AgeEvents(ages, inputs.origin)[i]];
        events := events + [NewEvent(TimeFromAge(inputs.origin, ages[i]), UnsequencedSample, 1)];
      }
      assert AgeEvents(ages, inputs.origin)[..|ages|] == AgeEvents(ages, inputs.origin);
    }
    ghost var afterAges := events;
    if inputs.incidenceData.Some? {
      var data := inputs.incidenceData.value;
      for i := 0 to |data.uniqueAges|
        invariant events == afterAges + DataEvents(data, inputs.origin)[..i]
      {
        assert DataEvents(data, inputs.origin)[..i + 1] == DataEvents(data, inputs.origin)[..i] + [DataEvents(data, inputs.origin)[i]];
        events := events + [NewEvent(TimeFromAge(inputs.origin, data.uniqueAges[i]), UnsequencedSample, data.counts[i])];
      }
      assert DataEvents(data, inputs.origin)[..|data.uniqueAges|] == DataEvents(data, inputs.origin);
    }
    assert events == UnsortedEvents(inputs);
    events := SortBy(events, EventTime);
    events := events + RhoLeaves(inputs.modelEvents);
    events := events + [NewEvent(inputs.origin, ObservationEnd, 1)];
  }

  /** The collation loop: a concurrent event is folded into its predecessor and removed. */
  method Collate(l: seq<ObservedEvent>) returns (events: seq<ObservedEvent>)
    ensures events == Collated(l)
  {
    events := l;
    var i := 1;
    while i < |events|
      invariant 1 <= i
      invariant CollateFrom(events, i) == Collated(l)
      decreases |events| - i + |events|
    {
      if Concurrent(events[i - 1], events[i]) {
        events := MergeAt(events, i);
      } else {
        i := i + 1;
      }
    }
  }

  /** The lineage loop: each event gets the count before it, which then changes by the event's delta. */
  method AttachLineages(l: seq<ObservedEvent>) returns (events: seq<ObservedEvent>)
    ensures events == WithLineages(l, 1)
  {
    events := [];
    var k := 1;
    for i := 0 to |l|
      invariant events + WithLineages(l[i..], k) == WithLineages(l, 1)
    {
      WithLineagesStep(l, i, k);
      events := events + [l[i].(lineages := k)];
      k := k + LineageDelta(l[i]);
    }
    assert l[|l|..] == [];
  }

  lemma WithLineagesStep(l: seq<ObservedEvent>, i: nat, k: int)
    requires i < |l|
    ensures WithLineages(l[i..], k) == [l[i].(lineages := k)] + WithLineages(l[i + 1..], k + LineageDelta(l[i]))
  {
    assert l[i..][1..] == l[i + 1..];
  }
}
