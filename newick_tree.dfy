/**
 * Trees of debugging/Tree.py: loadFromString (lexing, parsing, the time
 * pass and the height pass), the queries getAllChildren and getLeaves,
 * the serialiser getNewick and the Tree constructor.
 */
module NewickTree {
  import opened Wrappers
  import opened NewickLexer
  import opened NewickParser
  import Text

  /** A node of a loaded tree: every node has a branch length, a time and a height. */
  datatype TreeNode = TreeNode(
    children: seq<TreeNode>,
    nodeLabel: Option<string>,
    annotations: Annotations,
    branchLength: real,
    time: real,
    height: real)

  /** A loaded tree: the root together with the origin stored on it. */
  datatype Tree = Tree(root: TreeNode, origin: real)

  datatype LoadFailure =
    | Lexing(lexError: LexError)
    | Parsing(parseFailure: ParseFailure)
    | MissingBranchLength    // computeTimes adds None: a TypeError

  function ParseStep<T>(r: Result<T, ParseFailure>): Result<T, LoadFailure>
  {
    if r.Ok? then Ok(r.value) else Err(Parsing(r.error))
  }

  // ---------------------------------------------------------------------
  // The time pass

  /**
   * computeTimes(offset): a node's time is its parent's time plus its own
   * branch length. The height is not yet set here (0.0 stands for None);
   * SetHeights fills it in.
   */
  function ComputeTimes(n: Node, offset: real): Result<TreeNode, LoadFailure>
    decreases n
  {
    match n.branchLength
    case None => Err(MissingBranchLength)
    case Some(bl) =>
      var cs :- ComputeTimesAll(n.children, offset + bl);
      Ok(TreeNode(cs, n.nodeLabel, n.annotations, bl, offset + bl, 0.0))
  }

  function ComputeTimesAll(cs: seq<Node>, offset: real): (r: Result<seq<TreeNode>, LoadFailure>)
    ensures r.Ok? ==> |r.value| == |cs|
    decreases cs
  {
    if cs == [] then Ok([])
    else
      var first :- ComputeTimes(cs[0], offset);
      var rest :- ComputeTimesAll(cs[1..], offset);
      Ok([first] + rest)
  }

  /** Every node of `n` carries a branch length. */
  predicate AllLengths(n: Node)
    decreases n
  {
    n.branchLength.Some? && AllLengthsList(n.children)
  }

  predicate AllLengthsList(cs: seq<Node>)
    decreases cs
  {
    cs == [] || (AllLengths(cs[0]) && AllLengthsList(cs[1..]))
  }

  /** The parsed node a loaded node comes from: its branch length without time or height. */
  function Strip(t: TreeNode): Node
    decreases t
  {
    Node(StripList(t.children), t.nodeLabel, t.annotations, Some(t.branchLength))
  }

  function StripList(cs: seq<TreeNode>): (r: seq<Node>)
    ensures |r| == |cs|
    decreases cs
  {
    if cs == [] then [] else [Strip(cs[0])] + StripList(cs[1..])
  }

  /** The root's time is its branch length plus `offset`, and each child's time is its parent's plus its own length. */
  predicate TimedFrom(t: TreeNode, offset: real)
    decreases t
  {
    t.time == offset + t.branchLength && TimedFromList(t.children, t.time)
  }

  predicate TimedFromList(cs: seq<TreeNode>, offset: real)
    decreases cs
  {
    cs == [] || (TimedFrom(cs[0], offset) && TimedFromList(cs[1..], offset))
  }

  /**
   * The time pass fails exactly when some node has no branch length;
   * otherwise it keeps labels, annotations, lengths and the order of the
   * children, and sets time = parent time + branch length.
   */
  lemma {:induction false} ComputeTimesMeaning(n: Node, offset: real)
    ensures ComputeTimes(n, offset).Ok? <==> AllLengths(n)
    ensures ComputeTimes(n, offset).Ok? ==>
      Strip(ComputeTimes(n, offset).value) == n && TimedFrom(ComputeTimes(n, offset).value, offset)
    decreases n, 1
  {
    if n.branchLength.Some? {
      ComputeTimesAllMeaning(n.children, offset + n.branchLength.value);
    }
  }

  lemma {:induction false} ComputeTimesAllMeaning(cs: seq<Node>, offset: real)
    ensures ComputeTimesAll(cs, offset).Ok? <==> AllLengthsList(cs)
    ensures ComputeTimesAll(cs, offset).Ok? ==>
      StripList(ComputeTimesAll(cs, offset).value) == cs && TimedFromList(ComputeTimesAll(cs, offset).value, offset)
    decreases cs, 0
  {
    if cs != [] {
      ComputeTimesMeaning(cs[0], offset);
      ComputeTimesAllMeaning(cs[1..], offset);
      var r := ComputeTimesAll(cs, offset);
      if r.Ok? {
        var v := r.value;
        assert v[1..] == ComputeTimesAll(cs[1..], offset).value;
        assert cs == [cs[0]] + cs[1..];
      }
    }
  }

  // ---------------------------------------------------------------------
  // Queries

  /** getAllChildren: the node and all its descendants in pre-order. */
  function AllNodes(t: TreeNode): (r: seq<TreeNode>)
    ensures |r| >= 1 && r[0] == t
    decreases t
  {
    [t] + AllNodesList(t.children)
  }

  function AllNodesList(cs: seq<TreeNode>): seq<TreeNode>
    decreases cs
  {
    if cs == [] then [] else AllNodes(cs[0]) + AllNodesList(cs[1..])
  }

  predicate IsLeaf(t: TreeNode)
  {
    |t.children| == 0
  }

  /** getLeaves: the leaves below the node, left to right. */
  function Leaves(t: TreeNode): seq<TreeNode>
    decreases t
  {
    if IsLeaf(t) then [t] else LeavesList(t.children)
  }

  function LeavesList(cs: seq<TreeNode>): seq<TreeNode>
    decreases cs
  {
    if cs == [] then [] else Leaves(cs[0]) + LeavesList(cs[1..])
  }

  /** The leaves of a node list, in list order. */
  function LeafFilter(s: seq<TreeNode>): (r: seq<TreeNode>)
    ensures forall x | x in r :: IsLeaf(x) && x in s
  {
    if s == [] then []
    else if IsLeaf(s[0]) then [s[0]] + LeafFilter(s[1..])
    else LeafFilter(s[1..])
  }

  lemma {:induction false} LeafFilterAppend(a: seq<TreeNode>, b: seq<TreeNode>)
    ensures LeafFilter(a + b) == LeafFilter(a) + LeafFilter(b)
  {
    if a != [] {
      assert (a + b)[1..] == a[1..] + b;
      LeafFilterAppend(a[1..], b);
    } else {
      assert a + b == b;
    }
  }

  /** getLeaves lists exactly the leaves of getAllChildren, in the same order. */
  lemma {:induction false} LeavesInPreorder(t: TreeNode)
    ensures Leaves(t) == LeafFilter(AllNodes(t))
    decreases t, 1
  {
    LeafFilterAppend([t], AllNodesList(t.children));
    LeavesListInPreorder(t.children);
    if IsLeaf(t) {
      assert AllNodesList(t.children) == [];
    }
  }

  lemma {:induction false} LeavesListInPreorder(cs: seq<TreeNode>)
    ensures LeavesList(cs) == LeafFilter(AllNodesList(cs))
    decreases cs, 0
  {
    if cs != [] {
      LeavesInPreorder(cs[0]);
      LeavesListInPreorder(cs[1..]);
      LeafFilterAppend(AllNodes(cs[0]), AllNodesList(cs[1..]));
    }
  }

  // ---------------------------------------------------------------------
  // The height pass

  /** max(0.0, times of `nodes`), taken left to right as the loop of loadFromString does. */
  function MaxTimeOf(nodes: seq<TreeNode>): real
  {
    if nodes == [] then 0.0
    else
      var m := MaxTimeOf(nodes[..|nodes| - 1]);
      if nodes[|nodes| - 1].time > m then nodes[|nodes| - 1].time else m
  }

  lemma {:induction false} MaxTimeOfIsMax(nodes: seq<TreeNode>)
    ensures MaxTimeOf(nodes) >= 0.0
    ensures forall x | x in nodes :: x.time <= MaxTimeOf(nodes)
    ensures MaxTimeOf(nodes) == 0.0 || exists x | x in nodes :: x.time == MaxTimeOf(nodes)
  {
    if nodes != [] {
      var init := nodes[..|nodes| - 1];
      MaxTimeOfIsMax(init);
      assert nodes == init + [nodes[|nodes| - 1]];
      if MaxTimeOf(init) != 0.0 && MaxTimeOf(nodes) == MaxTimeOf(init) {
        var x :| x in init && x.time == MaxTimeOf(init);
        assert x in nodes;
      }
    }
  }

  /** The maxTime loop of loadFromString. */
  method MaxTime(nodes: seq<TreeNode>) returns (maxTime: real)
    ensures maxTime == MaxTimeOf(nodes)
  {
    maxTime := 0.0;
    var k := 0;
    while k < |nodes|
      invariant k <= |nodes|
      invariant maxTime == MaxTimeOf(nodes[..k])
    {
      assert nodes[..k + 1][..k] == nodes[..k];
      if nodes[k].time > maxTime {
        maxTime := nodes[k].time;
      }
      k := k + 1;
    }
    assert nodes[..k] == nodes;
  }

  /** height = maxTime - time, for every node. */
  function SetHeights(t: TreeNode, maxTime: real): (r: TreeNode)
    decreases t
  {
    TreeNode(SetHeightsList(t.children, maxTime), t.nodeLabel, t.annotations, t.branchLength, t.time, maxTime - t.time)
  }

  function SetHeightsList(cs: seq<TreeNode>, maxTime: real): (r: seq<TreeNode>)
    ensures |r| == |cs|
    decreases cs
  {
    if cs == [] then [] else [SetHeights(cs[0], maxTime)] + SetHeightsList(cs[1..], maxTime)
  }

  // ---------------------------------------------------------------------
  // loadFromString

  /** What loadFromString computes; `parseFloat` stands for Python's float(). */
  function Load(s: string, parseFloat: string -> Option<real>): Result<Tree, LoadFailure>
  {
    match Lex(s)
    case Err(e) => Err(Lexing(e))
    case Ok(ts) =>
      TokensCarryValues(s, 0);
      var root :- ParseStep(ParseN(ts, 0, parseFloat));
      var semi :- ParseStep(Accept(ts, root.1, Semi, true));
      TimesAndHeights(root.0)
  }

  /** The two passes after parsing: times from the root down, then heights below the latest time. */
  function TimesAndHeights(root: Node): Result<Tree, LoadFailure>
  {
    var timed :- ComputeTimes(root, 0.0);
    var placed := SetHeights(timed, MaxTimeOf(AllNodes(timed)));
    Ok(Tree(placed, placed.height + placed.branchLength))
  }

  /** loadFromString: lex, parse with a cursor, then the time and height passes. */
  method LoadFromString(s: string, parseFloat: string -> Option<real>) returns (r: Result<Tree, LoadFailure>)
    ensures r == Load(s, parseFloat)
  {
    var lexed := Tokenize(s);
    if lexed.Err? {
      return Err(Lexing(lexed.error));
    }
    TokensCarryValues(s, 0);
    var ctx := new ParseContext(lexed.value);
    var root := RuleN(ctx, parseFloat);
    if root.Err? {
      return Err(Parsing(root.error));
    }
    var semi := ctx.AcceptToken(Semi, true);
    if semi.Err? {
      return Err(Parsing(semi.error));
    }
    var timed := ComputeTimes(root.value, 0.0);
    if timed.Err? {
      return Err(timed.error);
    }
    var maxTime := MaxTime(AllNodes(timed.value));
    var placed := SetHeights(timed.value, maxTime);
    return Ok(Tree(placed, placed.height + placed.branchLength));
  }

  // ---------------------------------------------------------------------
  // Properties of a loaded tree

  /** The nodes of `s` after the height pass. */
  function Placed(s: seq<TreeNode>, maxTime: real): (r: seq<TreeNode>)
    ensures |r| == |s| && forall i :: 0 <= i < |s| ==> r[i] == SetHeights(s[i], maxTime)
  {
    seq(|s|, i requires 0 <= i < |s| => SetHeights(s[i], maxTime))
  }

  lemma PlacedAppend(a: seq<TreeNode>, b: seq<TreeNode>, maxTime: real)
    ensures Placed(a + b, maxTime) == Placed(a, maxTime) + Placed(b, maxTime)
  {
  }

  /** The height pass touches every node of getAllChildren, and nothing else. */
  lemma {:induction false} AllNodesSetHeights(t: TreeNode, maxTime: real)
    ensures AllNodes(SetHeights(t, maxTime)) == Placed(AllNodes(t), maxTime)
    decreases t, 1
  {
    AllNodesListSetHeights(t.children, maxTime);
    PlacedAppend([t], AllNodesList(t.children), maxTime);
  }

  lemma {:induction false} AllNodesListSetHeights(cs: seq<TreeNode>, maxTime: real)
    ensures AllNodesList(SetHeightsList(cs, maxTime)) == Placed(AllNodesList(cs), maxTime)
    decreases cs, 0
  {
    if cs != [] {
      var hs := SetHeightsList(cs, maxTime);
      assert hs[0] == SetHeights(cs[0], maxTime) && hs[1..] == SetHeightsList(cs[1..], maxTime);
      AllNodesSetHeights(cs[0], maxTime);
      AllNodesListSetHeights(cs[1..], maxTime);
      PlacedAppend(AllNodes(cs[0]), AllNodesList(cs[1..]), maxTime);
    }
  }

  /** Each child sits its own branch length below its parent. */
  predicate HeightSteps(t: TreeNode)
    decreases t
  {
    HeightStepsList(t.children, t.height)
  }

  predicate HeightStepsList(cs: seq<TreeNode>, parentHeight: real)
    decreases cs
  {
    cs == [] ||
    (cs[0].height == parentHeight - cs[0].branchLength && HeightSteps(cs[0]) && HeightStepsList(cs[1..], parentHeight))
  }

  lemma {:induction false} TimedHeightSteps(t: TreeNode, offset: real, maxTime: real)
    requires TimedFrom(t, offset)
    ensures HeightSteps(SetHeights(t, maxTime))
    decreases t, 1
  {
    TimedHeightStepsList(t.children, t.time, maxTime);
  }

  lemma {:induction false} TimedHeightStepsList(cs: seq<TreeNode>, offset: real, maxTime: real)
    requires TimedFromList(cs, offset)
    ensures HeightStepsList(SetHeightsList(cs, maxTime), maxTime - offset)
    decreases cs, 0
  {
    if cs != [] {
      TimedHeightSteps(cs[0], offset, maxTime);
      TimedHeightStepsList(cs[1..], offset, maxTime);
    }
  }

  /** After the height pass every node sits at or below the latest one, and some node sits at height 0 once any time is not negative. */
  lemma PlacedHeights(nodes: seq<TreeNode>, maxTime: real)
    requires maxTime == MaxTimeOf(nodes)
    ensures var placed := Placed(nodes, maxTime);
      && (forall x | x in placed :: x.height >= 0.0 && x.time == maxTime - x.height)
      && ((exists x | x in placed :: x.time >= 0.0) ==> exists x | x in placed :: x.height == 0.0)
  {
    MaxTimeOfIsMax(nodes);
    var placed := Placed(nodes, maxTime);
    forall x | x in placed ensures x.height >= 0.0 && x.time == maxTime - x.height {
      var i :| 0 <= i < |placed| && placed[i] == x;
      assert nodes[i] in nodes;
    }
    if exists x | x in placed :: x.time >= 0.0 {
      var x :| x in placed && x.time >= 0.0;
      if maxTime != 0.0 {
        var y :| y in nodes && y.time == maxTime;
        var i :| 0 <= i < |nodes| && nodes[i] == y;
        assert placed[i] in placed && placed[i].height == 0.0;
      } else {
        assert x.height == 0.0;
      }
    }
  }

  /**
   * A loaded tree: times run down from the root (the root's time is its
   * branch length, a child's is its parent's plus its own), every height is
   * maxTime - time and so non-negative, some node has height 0 as soon as
   * some time is non-negative, each child lies its branch length below its
   * parent, and origin = root height + root branch length.
   */
  lemma LoadedTreeShape(s: string, parseFloat: string -> Option<real>)
    requires Load(s, parseFloat).Ok?
    ensures var tree := Load(s, parseFloat).value;
      && TimedFrom(tree.root, 0.0)
      && (forall x | x in AllNodes(tree.root) :: x.height >= 0.0)
      && ((exists x | x in AllNodes(tree.root) :: x.time >= 0.0) ==> exists x | x in AllNodes(tree.root) :: x.height == 0.0)
      && HeightSteps(tree.root)
      && tree.origin == tree.root.height + tree.root.branchLength
  {
    var tree := Load(s, parseFloat).value;
    var ts := Lex(s).value;
    TokensCarryValues(s, 0);
    var root := ParseN(ts, 0, parseFloat).value;
    var timed := ComputeTimes(root.0, 0.0).value;
    var nodes := AllNodes(timed);
    var maxTime := MaxTimeOf(nodes);
    assert tree.root == SetHeights(timed, maxTime);
    ComputeTimesMeaning(root.0, 0.0);
    MaxTimeOfIsMax(nodes);
    AllNodesSetHeights(timed, maxTime);
    TimedHeightSteps(timed, 0.0, maxTime);
    PlacedHeights(nodes, maxTime);
    assert TimedFrom(tree.root, 0.0) by {
      SetHeightsKeepsTimes(timed, 0.0, maxTime);
    }
  }

  lemma {:induction false} SetHeightsKeepsTimes(t: TreeNode, offset: real, maxTime: real)
    requires TimedFrom(t, offset)
    ensures TimedFrom(SetHeights(t, maxTime), offset)
    decreases t, 1
  {
    SetHeightsListKeepsTimes(t.children, t.time, maxTime);
  }

  lemma {:induction false} SetHeightsListKeepsTimes(cs: seq<TreeNode>, offset: real, maxTime: real)
    requires TimedFromList(cs, offset)
    ensures TimedFromList(SetHeightsList(cs, maxTime), offset)
    decreases cs, 0
  {
    if cs != [] {
      SetHeightsKeepsTimes(cs[0], offset, maxTime);
      SetHeightsListKeepsTimes(cs[1..], offset, maxTime);
    }
  }

  // ---------------------------------------------------------------------
  // getNewick and __repr__

  /** The text after a node: ':' and the edge above it, `fmt` standing for '{}'.format of a float. */
  function EdgeText(height: real, parentHeight: Option<real>, origin: Option<real>, fmt: real -> string): string
  {
    match parentHeight
    case Some(ph) => ":" + fmt(ph - height)
    case None =>
      match origin
      case Some(o) => ":" + fmt(o - height)
      case None => ":0.0"
  }

  /** The annotation text k="v" for each entry, comma separated, as the loop with isFirst builds it. */
  function AnnotationsText(ann: Annotations, isFirst: bool): string
  {
    if ann == [] then ""
    else if isFirst then ann[0].0 + "=\"" + ann[0].1 + "\"" + AnnotationsText(ann[1..], false)
    else "," + ann[0].0 + "=\"" + ann[0].1 + "\"" + AnnotationsText(ann[1..], false)
  }

  /** getNewick: children in parentheses, the label unquoted, the annotations, then the edge. */
  function GetNewick(t: TreeNode, parentHeight: Option<real>, origin: Option<real>, fmt: real -> string): string
    decreases t
  {
    (if |t.children| > 0 then "(" + ChildrenNewick(t.children, t.height, true, fmt) + ")" else "")
    + (if t.nodeLabel.Some? then t.nodeLabel.value else "")
    + (if |t.annotations| > 0 then "[&" + AnnotationsText(t.annotations, true) + "]" else "")
    + EdgeText(t.height, parentHeight, origin, fmt)
  }

  function ChildrenNewick(cs: seq<TreeNode>, parentHeight: real, isFirst: bool, fmt: real -> string): string
    decreases cs
  {
    if cs == [] then ""
    else if isFirst then GetNewick(cs[0], Some(parentHeight), None, fmt) + ChildrenNewick(cs[1..], parentHeight, false, fmt)
    else "," + GetNewick(cs[0], Some(parentHeight), None, fmt) + ChildrenNewick(cs[1..], parentHeight, false, fmt)
  }

  /** Tree.__repr__. */
  function Repr(tree: Tree, fmt: real -> string): string
  {
    GetNewick(tree.root, None, Some(tree.origin), fmt) + ";"
  }

  // ---------------------------------------------------------------------
  // The Tree constructor

  /** What Tree(arg) is given: a root, a string, an open file (its first line and the rest), or anything else. */
  datatype TreeArg = RootArg(tree: Tree) | StringArg(text: string) | FileArg(firstLine: string, rest: seq<string>) | OtherArg

  /** The Newick string found in a file: the first 'tree ' line of a NEXUS file, or the first line of any other. */
  function FileNewick(firstLine: string, rest: seq<string>): string
  {
    if Text.StartsWith(Text.ToLower(firstLine), "#nexus") then TreeLineNewick(rest)
    else Text.PyStrip(firstLine)
  }

  /** The text after the first '=' of the first line that starts with "tree " once stripped and lower-cased. */
  function TreeLineNewick(lines: seq<string>): string
  {
    if lines == [] then ""
    else if Text.StartsWith(Text.ToLower(Text.PyStrip(lines[0])), "tree ") then
      Text.PyStrip(lines[0][Text.Find(lines[0], '=') + 1..])
    else TreeLineNewick(lines[1..])
  }

  /** The string the constructor hands to loadFromString, as written: a string argument is stored under another name. */
  function ConstructorNewick(arg: TreeArg): string
  {
    match arg
    case FileArg(firstLine, rest) => FileNewick(firstLine, rest)
    case _ => ""
  }

  /** Tree(arg) as written. */
  function TreeOf(arg: TreeArg, parseFloat: string -> Option<real>): Result<Tree, LoadFailure>
  {
    if arg.RootArg? then Ok(arg.tree) else Load(ConstructorNewick(arg), parseFloat)
  }

  /** Tree(str) as written never parses its argument: it fails reading the first token of the empty input. */
  lemma TreeOfStringFails(text: string, parseFloat: string -> Option<real>)
    ensures TreeOf(StringArg(text), parseFloat) == Err(Parsing(EndOfTokens(0)))
  {
    assert Lex("") == Ok([]);
  }

  /** The constructor as evidently intended: a string argument is the Newick string. */
  function CorrectedConstructorNewick(arg: TreeArg): string
  {
    match arg
    case StringArg(text) => text
    case FileArg(firstLine, rest) => FileNewick(firstLine, rest)
    case _ => ""
  }

  function CorrectedTreeOf(arg: TreeArg, parseFloat: string -> Option<real>): (r: Result<Tree, LoadFailure>)
    ensures arg.StringArg? ==> r == Load(arg.text, parseFloat)
    ensures arg.FileArg? ==> r == TreeOf(arg, parseFloat)
    ensures arg.RootArg? ==> r == Ok(arg.tree)
  {
    if arg.RootArg? then Ok(arg.tree) else Load(CorrectedConstructorNewick(arg), parseFloat)
  }
}
