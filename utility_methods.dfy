/**
 * Helpers that fit nowhere else: the expoTree input file written for a
 * tree, and the log Poisson probability and oriented Poisson density the
 * likelihoods use. Numbers are written as values; how Java prints a
 * double is not modelled.
 */
module EpiInfUtilityMethods {
  import opened Doubles
  import opened Sorting

  /** A node of the tree as the file writer sees it. */
  datatype TreeNode = TreeNode(height: real, isLeaf: bool)

  /** One line of the expoTree file: a time and its code (0 sample, 1 branching, 99 origin). */
  datatype ExpoLine = ExpoLine(time: real, code: int)

  function Height(n: TreeNode): real { n.height }

  /** Whether a node is written: branching nodes always, leaves only above height 0. */
  predicate Emits(n: TreeNode)
  {
    !n.isLeaf || n.height > 0.0
  }

  /** The line written for a node that is written. */
  function LineOf(n: TreeNode): ExpoLine
  {
    ExpoLine(n.height, if n.isLeaf then 0 else 1)
  }

  /** The lines written for one node: its line, or none. */
  function NodeLine(n: TreeNode): seq<ExpoLine>
  {
    if Emits(n) then [LineOf(n)] else []
  }

  /** The lines written for the nodes, in the order given. */
  function NodeLines(nodes: seq<TreeNode>): seq<ExpoLine>
  {
    if nodes == [] then [] else NodeLine(nodes[0]) + NodeLines(nodes[1..])
  }

  /** The whole file: the nodes sorted by ascending height (stably), then the origin. */
  function ExpoTreeFile(nodes: seq<TreeNode>, origin: real): seq<ExpoLine>
  {
    NodeLines(SortBy(nodes, Height)) + [ExpoLine(origin, 99)]
  }

  lemma {:induction false} NodeLinesSnoc(nodes: seq<TreeNode>, n: TreeNode)
    ensures NodeLines(nodes + [n]) == NodeLines(nodes) + NodeLine(n)
  {
    if nodes == [] {
      assert nodes + [n] == [n];
      assert NodeLines([n]) == NodeLine(n) + NodeLines([]);
    } else {
      assert (nodes + [n])[1..] == nodes[1..] + [n];
      NodeLinesSnoc(nodes[1..], n);
    }
  }

  /** Every line for a node is the line of a node that is written, and every node that is written has its line. */
  lemma {:induction false} NodeLinesMeaning(nodes: seq<TreeNode>)
    ensures forall l :: l in NodeLines(nodes) ==> exists n :: n in nodes && Emits(n) && l == LineOf(n)
    ensures forall n :: n in nodes && Emits(n) ==> LineOf(n) in NodeLines(nodes)
  {
    if nodes != [] {
      NodeLinesMeaning(nodes[1..]);
      assert forall n :: n in nodes ==> n == nodes[0] || n in nodes[1..];
      forall l | l in NodeLines(nodes)
        ensures exists n :: n in nodes && Emits(n) && l == LineOf(n)
      {
        if l in NodeLine(nodes[0]) {
          assert nodes[0] in nodes;
        } else {
          assert l in NodeLines(nodes[1..]);
          var n :| n in nodes[1..] && Emits(n) && l == LineOf(n);
          assert n in nodes;
        }
      }
    }
  }

  /** Lines for nodes sorted by height come in ascending time order, none earlier than the first node. */
  lemma {:induction false} NodeLinesAscending(nodes: seq<TreeNode>)
    requires SortedBy(nodes, Height)
    ensures forall i, j :: 0 <= i < j < |NodeLines(nodes)| ==> NodeLines(nodes)[i].time <= NodeLines(nodes)[j].time
    ensures nodes != [] ==> forall i :: 0 <= i < |NodeLines(nodes)| ==> nodes[0].height <= NodeLines(nodes)[i].time
  {
    if nodes != [] {
      var rest := nodes[1..];
      assert SortedBy(rest, Height);
      NodeLinesAscending(rest);
      var head := NodeLine(nodes[0]);
      var tail := NodeLines(rest);
      assert forall i :: 0 <= i < |tail| ==> nodes[0].height <= tail[i].time by {
        if rest != [] {
          assert Height(nodes[0]) <= Height(nodes[1]);
          assert rest[0] == nodes[1];
        }
      }
      var all := NodeLines(nodes);
      assert all == head + tail;
      forall i, j | 0 <= i < j < |all|
        ensures all[i].time <= all[j].time
      {
        if i >= |head| {
          assert all[i] == tail[i - |head|] && all[j] == tail[j - |head|];
        } else {
          assert all[i].time == nodes[0].height;
          assert all[j] == tail[j - |head|];
        }
      }
    }
  }

  /** What the sort keeps: the same nodes. */
  lemma SortedSameNodes(nodes: seq<TreeNode>)
    ensures forall n :: n in nodes <==> n in SortBy(nodes, Height)
  {
    var sorted := SortBy(nodes, Height);
    forall n
      ensures n in nodes <==> n in sorted
    {
      assert n in nodes <==> n in multiset(nodes);
      assert n in sorted <==> n in multiset(sorted);
    }
  }

  /**
   * The file lists, for every node that is written and no other, its line,
   * in ascending order of time; the last line is the origin with code 99.
   */
  lemma ExpoTreeFileMeaning(nodes: seq<TreeNode>, origin: real)
    ensures var f := ExpoTreeFile(nodes, origin);
            && |f| >= 1 && f[|f| - 1] == ExpoLine(origin, 99)
            && (forall i, j :: 0 <= i < j < |f| - 1 ==> f[i].time <= f[j].time)
            && (forall i :: 0 <= i < |f| - 1 ==> exists n :: n in nodes && Emits(n) && f[i] == LineOf(n))
            && (forall n :: n in nodes && Emits(n) ==> LineOf(n) in f[..|f| - 1])
  {
    var sorted := SortBy(nodes, Height);
    var lines := NodeLines(sorted);
    var f := ExpoTreeFile(nodes, origin);
    NodeLinesMeaning(sorted);
    NodeLinesAscending(sorted);
    SortedSameNodes(nodes);
    assert f == lines + [ExpoLine(origin, 99)];
    assert forall i :: 0 <= i < |lines| ==> f[i] == lines[i];
    assert f[..|f| - 1] == lines;
    forall i | 0 <= i < |f| - 1
      ensures exists n :: n in nodes && Emits(n) && f[i] == LineOf(n)
    {
      assert f[i] == lines[i] && lines[i] in lines;
    }
  }

  /** writeExpoTreeFile: sort the nodes by height, print one line per node that is written, then the origin. */
  method WriteExpoTreeFile(nodes: seq<TreeNode>, origin: real) returns (out: seq<ExpoLine>)
    ensures out == ExpoTreeFile(nodes, origin)
  {
    var nodeList := SortBy(nodes, Height);
    out := WriteNodes(nodeList);
    out := out + [ExpoLine(origin, 99)];
  }

  /** The printing loop over the sorted nodes. */
  method WriteNodes(nodeList: seq<TreeNode>) returns (out: seq<ExpoLine>)
    ensures out == NodeLines(nodeList)
  {
    out := [];
    var i := 0;
    while i < |nodeList|
      invariant 0 <= i <= |nodeList|
      invariant out == NodeLines(nodeList[..i])
    {
      var node := nodeList[i];
      var printed := WriteNode(node);
      assert nodeList[..i + 1] == nodeList[..i] + [node];
      NodeLinesSnoc(nodeList[..i], node);
      out := out + printed;
      i := i + 1;
    }
    assert nodeList[..i] == nodeList;
  }

  /** The body of the printing loop: the line printed for one node, if any. */
  method WriteNode(node: TreeNode) returns (printed: seq<ExpoLine>)
    ensures printed == NodeLine(node)
    ensures printed != [] <==> !node.isLeaf || node.height > 0.0
  {
    printed := [];
    if node.isLeaf {
      if node.height > 0.0 {
        printed := [ExpoLine(node.height, 0)];
      }
    } else {
      printed := [ExpoLine(node.height, 1)];
    }
  }

  // ---------------------------------------------------------------------
  // Poisson helpers; `ln` and `lnGamma` are the library's logarithm and log gamma function

  /** getLogPoissonProb: the log probability of n occurrences given the mean lambda. */
  function LogPoissonProb(ln: real -> real, lnGamma: real -> real, lambda: real, n: int): Double
  {
    if n > 0 then
      if lambda > 0.0 then Finite(-lambda + (n as real) * ln(lambda) - lnGamma((n + 1) as real))
      else NegInf
    else Finite(-lambda)
  }

  /** getLogOrientedPoissonDensity: as above without the factorial, for n events in an interval of length dt. */
  function LogOrientedPoissonDensity(ln: real -> real, lambda: real, n: int, dt: real): Double
  {
    if n > 0 then
      if lambda > 0.0 then Add(Finite(-lambda), Scale(Add(Finite(ln(lambda)), Neg(Log(ln, dt))), n as real))
      else NegInf
    else Finite(-lambda)
  }

  /** No occurrence gives -lambda; occurrences with a mean of at most 0 are impossible; otherwise the value is finite. */
  lemma PoissonCases(ln: real -> real, lnGamma: real -> real, lambda: real, n: int)
    ensures n <= 0 ==> LogPoissonProb(ln, lnGamma, lambda, n) == Finite(-lambda)
    ensures n > 0 && lambda <= 0.0 ==> LogPoissonProb(ln, lnGamma, lambda, n) == NegInf
    ensures n > 0 && lambda > 0.0 ==> LogPoissonProb(ln, lnGamma, lambda, n).Finite?
  {
  }

  /**
   * The oriented density has the same three cases; with occurrences and a
   * positive mean it is finite for a positive interval, +infinity for an
   * empty one and NaN for a negative one.
   */
  lemma OrientedCases(ln: real -> real, lambda: real, n: int, dt: real)
    ensures n <= 0 ==> LogOrientedPoissonDensity(ln, lambda, n, dt) == Finite(-lambda)
    ensures n > 0 && lambda <= 0.0 ==> LogOrientedPoissonDensity(ln, lambda, n, dt) == NegInf
    ensures n > 0 && lambda > 0.0 && dt > 0.0 ==>
              LogOrientedPoissonDensity(ln, lambda, n, dt) == Finite(-lambda + (n as real) * (ln(lambda) - ln(dt)))
    ensures n > 0 && lambda > 0.0 && dt == 0.0 ==> LogOrientedPoissonDensity(ln, lambda, n, dt) == PosInf
    ensures n > 0 && lambda > 0.0 && dt < 0.0 ==> LogOrientedPoissonDensity(ln, lambda, n, dt).NaN?
  {
  }

  /**
   * For occurrences with a positive mean over an interval of positive
   * length, the oriented density is the Poisson log probability with the
   * log factorial added back and n log dt taken off.
   */
  lemma OrientedFromPoisson(ln: real -> real, lnGamma: real -> real, lambda: real, n: int, dt: real)
    requires n > 0 && lambda > 0.0 && dt > 0.0
    ensures LogOrientedPoissonDensity(ln, lambda, n, dt).Finite? && LogPoissonProb(ln, lnGamma, lambda, n).Finite?
    ensures LogOrientedPoissonDensity(ln, lambda, n, dt).v
            == LogPoissonProb(ln, lnGamma, lambda, n).v + lnGamma((n + 1) as real) - (n as real) * ln(dt)
  {
    OrientedCases(ln, lambda, n, dt);
  }
}
