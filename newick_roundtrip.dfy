/**
 * Reading back what getNewick writes (debugging/Tree.py): the text of a
 * loaded tree is cut into pieces (symbols, bare words and double-quoted
 * values), the lexer turns each piece into one token, and the parser
 * rebuilds the same nodes from those tokens.
 */
module NewickRoundTrip {
  import opened Wrappers
  import opened NewickLexer
  import opened NewickParser
  import opened NewickTree

  /** A piece of printed Newick text. */
  datatype Piece = Sym(kind: Kind) | Bare(word: string) | Quoted(inner: string)

  function SymText(k: Kind): string
  {
    match k
    case LParen => "("
    case RParen => ")"
    case Colon => ":"
    case Str => ""
    case OpenA => "[&"
    case Equals => "="
    case CloseA => "]"
    case Comma => ","
    case Semi => ";"
  }

  function PieceText(p: Piece): string
  {
    match p
    case Sym(k) => SymText(k)
    case Bare(w) => w
    case Quoted(v) => "\"" + v + "\""
  }

  function Text(ps: seq<Piece>): string
  {
    if ps == [] then "" else PieceText(ps[0]) + Text(ps[1..])
  }

  /** The token the lexer makes of a piece. */
  function PieceToken(p: Piece): Token
  {
    match p
    case Sym(k) => Token(k, None)
    case Bare(w) => Token(Str, Some(w))
    case Quoted(v) => Token(Str, Some(v))
  }

  function Tokens(ps: seq<Piece>): (r: seq<Token>)
    ensures |r| == |ps|
  {
    seq(|ps|, k requires 0 <= k < |ps| => PieceToken(ps[k]))
  }

  /** A word the bare-label pattern matches whole. */
  predicate BareWord(w: string)
  {
    |w| > 0 && forall k :: 0 <= k < |w| ==> IsLabelChar(w[k])
  }

  predicate ValidPiece(p: Piece)
  {
    match p
    case Sym(k) => k != Str
    case Bare(w) => BareWord(w)
    case Quoted(v) => |v| > 0 && '"' !in v
  }

  predicate ValidPieces(ps: seq<Piece>)
  {
    forall i :: 0 <= i < |ps| ==> ValidPiece(ps[i])
  }

  /** No bare word directly follows another: they would run together. */
  predicate Separated(ps: seq<Piece>)
  {
    |ps| < 2 || (!(ps[0].Bare? && ps[1].Bare?) && Separated(ps[1..]))
  }

  function PatternOf(p: Piece): Pattern
  {
    match p
    case Sym(k) =>
      (match k
       case LParen => LParenP
       case RParen => RParenP
       case Colon => ColonP
       case Str => BareP
       case OpenA => OpenAP
       case Equals => EqualsP
       case CloseA => CloseAP
       case Comma => CommaP
       case Semi => SemiP)
    case Bare(_) => BareP
    case Quoted(_) => DoubleQuotedP
  }

  lemma {:induction false} TextAppend(a: seq<Piece>, b: seq<Piece>)
    ensures Text(a + b) == Text(a) + Text(b)
  {
    if a == [] {
      assert a + b == b;
    } else {
      assert (a + b)[1..] == a[1..] + b;
      TextAppend(a[1..], b);
    }
  }

  lemma TokensAppend(a: seq<Piece>, b: seq<Piece>)
    ensures Tokens(a + b) == Tokens(a) + Tokens(b)
  {
  }

  /** `s` holds `w` at index `i`. */
  predicate HoldsAt<T(==)>(s: seq<T>, i: nat, w: seq<T>)
  {
    i + |w| <= |s| && forall k :: 0 <= k < |w| ==> s[i + k] == w[k]
  }

  lemma HoldsAtChar<T>(s: seq<T>, i: nat, w: seq<T>, k: nat)
    requires HoldsAt(s, i, w) && k < |w|
    ensures s[i + k] == w[k]
  {
  }

  lemma HoldsAtSlice<T>(s: seq<T>, i: nat, w: seq<T>)
    requires HoldsAt(s, i, w)
    ensures s[i..i + |w|] == w
  {
    assert forall k :: 0 <= k < |w| ==> s[i..i + |w|][k] == w[k];
  }

  lemma HoldsAtSplit<T>(s: seq<T>, i: nat, a: seq<T>, b: seq<T>)
    requires HoldsAt(s, i, a + b)
    ensures HoldsAt(s, i, a) && HoldsAt(s, i + |a|, b)
  {
    forall k | 0 <= k < |a| ensures s[i + k] == a[k] {
      HoldsAtChar(s, i, a + b, k);
    }
    forall k | 0 <= k < |b| ensures s[i + |a| + k] == b[k] {
      HoldsAtChar(s, i, a + b, |a| + k);
    }
  }

  lemma {:induction false} LabelRunOver(s: string, i: nat, n: nat)
    requires i + n <= |s|
    requires forall k :: i <= k < i + n ==> IsLabelChar(s[k])
    requires i + n == |s| || !IsLabelChar(s[i + n])
    ensures LabelRun(s, i) == n
    decreases n
  {
    if n > 0 {
      LabelRunOver(s, i + 1, n - 1);
    }
  }

  lemma {:induction false} NextQuoteOver(s: string, i: nat, j: nat, q: char)
    requires i <= j < |s| && s[j] == q
    requires forall k :: i <= k < j ==> s[k] != q
    ensures NextQuote(s, i, q) == Some(j)
    decreases j - i
  {
    if i < j {
      NextQuoteOver(s, i + 1, j, q);
    }
  }

  lemma LexSymPiece(s: string, i: nat, k: Kind)
    requires k != Str && HoldsAt(s, i, SymText(k))
    ensures FirstMatchFrom(s, i, 0) == Some((PatternOf(Sym(k)), |SymText(k)|))
    ensures MakeToken(PatternOf(Sym(k)), s[i..i + |SymText(k)|]) == PieceToken(Sym(k))
  {
    HoldsAtChar(s, i, SymText(k), 0);
    if k == OpenA {
      HoldsAtChar(s, i, SymText(k), 1);
    }
    ScanIsOpenerMatch(s, i);
  }

  lemma LexBarePiece(s: string, i: nat, w: string)
    requires BareWord(w) && HoldsAt(s, i, w)
    requires i + |w| == |s| || !IsLabelChar(s[i + |w|])
    ensures FirstMatchFrom(s, i, 0) == Some((BareP, |w|))
    ensures MakeToken(BareP, s[i..i + |w|]) == Token(Str, Some(w))
  {
    forall k | i <= k < i + |w| ensures IsLabelChar(s[k]) {
      HoldsAtChar(s, i, w, k - i);
    }
    LabelRunOver(s, i, |w|);
    ScanIsOpenerMatch(s, i);
    HoldsAtSlice(s, i, w);
  }

  lemma LexQuotedPiece(s: string, i: nat, v: string)
    requires |v| > 0 && '"' !in v && HoldsAt(s, i, "\"" + v + "\"")
    ensures FirstMatchFrom(s, i, 0) == Some((DoubleQuotedP, |v| + 2))
    ensures MakeToken(DoubleQuotedP, s[i..i + |v| + 2]) == Token(Str, Some(v))
  {
    var w := "\"" + v + "\"";
    forall k | i + 1 <= k < i + |w| - 1 ensures s[k] != '"' {
      HoldsAtChar(s, i, w, k - i);
      assert w[k - i] == v[k - i - 1];
    }
    HoldsAtChar(s, i, w, 0);
    HoldsAtChar(s, i, w, |w| - 1);
    NextQuoteOver(s, i + 1, i + |w| - 1, '"');
    ScanIsOpenerMatch(s, i);
    assert s[i..i + |w|] == w;
    assert w[1..|w| - 1] == v;
  }

  /** A valid piece at index `i`, at a boundary if it is a bare word, is the first match there. */
  lemma LexPiece(s: string, i: nat, p: Piece)
    requires ValidPiece(p) && HoldsAt(s, i, PieceText(p))
    requires p.Bare? ==> i + |PieceText(p)| == |s| || !IsLabelChar(s[i + |PieceText(p)|])
    ensures FirstMatchFrom(s, i, 0) == Some((PatternOf(p), |PieceText(p)|))
    ensures MakeToken(PatternOf(p), s[i..i + |PieceText(p)|]) == PieceToken(p)
  {
    match p
    case Sym(k) => LexSymPiece(s, i, k);
    case Bare(w) => LexBarePiece(s, i, w);
    case Quoted(v) => LexQuotedPiece(s, i, v);
  }

  /** The first character of a valid piece that is not a bare word cannot continue a bare word. */
  lemma NonBareStart(p: Piece)
    requires ValidPiece(p) && !p.Bare?
    ensures |PieceText(p)| > 0 && !IsLabelChar(PieceText(p)[0])
  {
  }

  /** One valid piece, at a boundary if it is a bare word, lexes to its token. */
  lemma LexOnePiece(s: string, i: nat, p: Piece)
    requires ValidPiece(p) && HoldsAt(s, i, PieceText(p))
    requires p.Bare? ==> i + |PieceText(p)| == |s| || !IsLabelChar(s[i + |PieceText(p)|])
    ensures LexFrom(s, i) == Prepend([PieceToken(p)], LexFrom(s, i + |PieceText(p)|))
  {
    LexPiece(s, i, p);
    LexFromStep(s, i);
  }

  lemma TailValid(ps: seq<Piece>)
    requires ps != [] && ValidPieces(ps) && Separated(ps)
    ensures ValidPiece(ps[0]) && ValidPieces(ps[1..]) && Separated(ps[1..])
  {
    var tail := ps[1..];
    forall k | 0 <= k < |tail| ensures ValidPiece(tail[k]) { assert tail[k] == ps[k + 1]; }
  }

  /** After a bare word, the next piece starts with a character that ends the word. */
  lemma BoundaryAfter(s: string, j: nat, ps: seq<Piece>)
    requires ps != [] && ValidPiece(ps[0]) && !ps[0].Bare? && HoldsAt(s, j, Text(ps))
    ensures j < |s| && !IsLabelChar(s[j])
  {
    NonBareStart(ps[0]);
    HoldsAtSplit(s, j, PieceText(ps[0]), Text(ps[1..]));
    HoldsAtChar(s, j, PieceText(ps[0]), 0);
  }

  lemma PrependChain(r1: Result<seq<Token>, LexError>, r2: Result<seq<Token>, LexError>, r3: Result<seq<Token>, LexError>,
                     a: seq<Token>, b: seq<Token>, ab: seq<Token>)
    requires r1 == Prepend(a, r2) && r2 == Prepend(b, r3) && ab == a + b
    ensures r1 == Prepend(ab, r3)
  {
    if r3.Ok? {
      assert a + (b + r3.value) == (a + b) + r3.value;
    }
  }

  lemma PrependEmpty(r: Result<seq<Token>, LexError>)
    ensures Prepend([], r) == r
  {
    if r.Ok? {
      assert [] + r.value == r.value;
    }
  }

  /** The facts under which a run of pieces starting at `i` ends at index `e` and lexes on its own. */
  predicate LexGoal(s: string, i: nat, e: nat, ps: seq<Piece>)
  {
    && ValidPieces(ps) && Separated(ps) && HoldsAt(s, i, Text(ps)) && e == i + |Text(ps)|
    && (ps != [] && ps[|ps| - 1].Bare? ==> e == |s| || !IsLabelChar(s[e]))
  }

  /** What the lexing lemma needs about the first piece. */
  lemma ConsHead(s: string, i: nat, e: nat, ps: seq<Piece>)
    requires ps != []
    ensures LexGoal(s, i, e, ps) ==> ValidPiece(ps[0]) && HoldsAt(s, i, PieceText(ps[0]))
    ensures LexGoal(s, i, e, ps) && ps[0].Bare? ==> i + |PieceText(ps[0])| == |s| || !IsLabelChar(s[i + |PieceText(ps[0])|])
  {
    if LexGoal(s, i, e, ps) {
      TailValid(ps);
      assert Text(ps) == PieceText(ps[0]) + Text(ps[1..]);
      HoldsAtSplit(s, i, PieceText(ps[0]), Text(ps[1..]));
      if |ps| == 1 {
        assert Text(ps[1..]) == "" && e == i + |PieceText(ps[0])|;
      } else {
        HeadBoundary(s, i + |PieceText(ps[0])|, ps);
      }
    }
  }

  /** What the lexing lemma needs about the rest. */
  lemma ConsTail(s: string, i: nat, e: nat, ps: seq<Piece>)
    requires ps != []
    ensures LexGoal(s, i, e, ps) ==> LexGoal(s, i + |PieceText(ps[0])|, e, ps[1..])
  {
    if LexGoal(s, i, e, ps) {
      TailValid(ps);
      TailHolds(s, i, e, ps);
      TailLast(s, e, ps);
    }
  }

  lemma TailHolds(s: string, i: nat, e: nat, ps: seq<Piece>)
    requires ps != [] && HoldsAt(s, i, Text(ps)) && e == i + |Text(ps)|
    ensures HoldsAt(s, i + |PieceText(ps[0])|, Text(ps[1..])) && e == i + |PieceText(ps[0])| + |Text(ps[1..])|
  {
    HoldsAtSplit(s, i, PieceText(ps[0]), Text(ps[1..]));
  }

  lemma TailLast(s: string, e: nat, ps: seq<Piece>)
    requires ps != [] && e <= |s| && (ps[|ps| - 1].Bare? ==> e == |s| || !IsLabelChar(s[e]))
    ensures ps[1..] != [] && ps[1..][|ps[1..]| - 1].Bare? ==> e == |s| || !IsLabelChar(s[e])
  {
    LastOfTail(ps);
  }

  lemma LastOfTail(ps: seq<Piece>)
    requires ps != []
    ensures ps[1..] != [] ==> ps[1..][|ps[1..]| - 1] == ps[|ps| - 1]
  {
  }

  lemma HeadBoundary(s: string, k: nat, ps: seq<Piece>)
    requires ps != [] && ValidPieces(ps) && Separated(ps) && HoldsAt(s, k, Text(ps[1..]))
    ensures ps[0].Bare? && |ps| > 1 ==> k < |s| && !IsLabelChar(s[k])
  {
    if ps[0].Bare? && |ps| > 1 {
      assert ValidPiece(ps[1]);
      BoundaryAfter(s, k, ps[1..]);
    }
  }

  /** The first piece lexes to its token, followed by the tokens of the rest. */
  lemma LexCons(s: string, i: nat, e: nat, ps: seq<Piece>)
    requires ps != [] && ValidPiece(ps[0]) && HoldsAt(s, i, PieceText(ps[0]))
    requires ps[0].Bare? ==> i + |PieceText(ps[0])| == |s| || !IsLabelChar(s[i + |PieceText(ps[0])|])
    requires e <= |s| && LexFrom(s, i + |PieceText(ps[0])|) == Prepend(Tokens(ps[1..]), LexFrom(s, e))
    ensures LexFrom(s, i) == Prepend(Tokens(ps), LexFrom(s, e))
  {
    var p := ps[0];
    LexOnePiece(s, i, p);
    TokensAppend([p], ps[1..]);
    assert [p] + ps[1..] == ps;
    PrependChain(LexFrom(s, i), LexFrom(s, i + |PieceText(p)|), LexFrom(s, e), [PieceToken(p)], Tokens(ps[1..]), Tokens(ps));
  }

  /** A run of valid, separated pieces, ending at index `e`, lexes to their tokens. */
  lemma {:induction false} LexPieces(s: string, i: nat, e: nat, ps: seq<Piece>)
    ensures LexGoal(s, i, e, ps) ==> LexFrom(s, i) == Prepend(Tokens(ps), LexFrom(s, e))
    decreases ps
  {
    if ps == [] {
      if LexGoal(s, i, e, ps) {
        assert Tokens(ps) == [];
        PrependEmpty(LexFrom(s, i));
      }
    } else if LexGoal(s, i, e, ps) {
      ConsHead(s, i, e, ps);
      ConsTail(s, i, e, ps);
      LexPieces(s, i + |PieceText(ps[0])|, e, ps[1..]);
      LexCons(s, i, e, ps);
    }
  }

  /** Lexing the text of valid, separated pieces gives exactly their tokens. */
  lemma LexText(ps: seq<Piece>)
    requires ValidPieces(ps) && Separated(ps)
    ensures Lex(Text(ps)) == Ok(Tokens(ps))
  {
    var s := Text(ps);
    assert s[0..|s|] == s;
    LexPieces(s, 0, |s|, ps);
    assert Tokens(ps) + [] == Tokens(ps);
  }

  // ---------------------------------------------------------------------
  // The pieces getNewick writes

  /** The number written after ':' for a node, as EdgeText writes it. */
  function EdgeValue(height: real, parentHeight: Option<real>, origin: Option<real>, fmt: real -> string): string
  {
    match parentHeight
    case Some(ph) => fmt(ph - height)
    case None =>
      match origin
      case Some(o) => fmt(o - height)
      case None => "0.0"
  }

  /** The edge length that number stands for. */
  function EdgeLength(height: real, parentHeight: Option<real>, origin: Option<real>): real
  {
    match parentHeight
    case Some(ph) => ph - height
    case None =>
      match origin
      case Some(o) => o - height
      case None => 0.0
  }

  function EdgePart(height: real, parentHeight: Option<real>, origin: Option<real>, fmt: real -> string): seq<Piece>
  {
    [Sym(Colon), Bare(EdgeValue(height, parentHeight, origin, fmt))]
  }

  function LabelPart(nodeLabel: Option<string>): seq<Piece>
  {
    if nodeLabel.Some? then [Bare(nodeLabel.value)] else []
  }

  function EntryPieces(key: string, value: string): seq<Piece>
  {
    [Bare(key), Sym(Equals), Quoted(value)]
  }

  function AnnPieces(ann: Annotations, isFirst: bool): (r: seq<Piece>)
  {
    if ann == [] then []
    else if isFirst then EntryPieces(ann[0].0, ann[0].1) + AnnPieces(ann[1..], false)
    else [Sym(Comma)] + EntryPieces(ann[0].0, ann[0].1) + AnnPieces(ann[1..], false)
  }

  function AnnPart(ann: Annotations): seq<Piece>
  {
    if |ann| > 0 then [Sym(OpenA)] + AnnPieces(ann, true) + [Sym(CloseA)] else []
  }

  /** The pieces of getNewick for a node: children, label, annotations, edge. */
  function NodePieces(t: TreeNode, parentHeight: Option<real>, origin: Option<real>, fmt: real -> string): seq<Piece>
    decreases t
  {
    ChildrenPart(t.children, t.height, fmt) + LabelPart(t.nodeLabel) + AnnPart(t.annotations)
    + EdgePart(t.height, parentHeight, origin, fmt)
  }

  function ChildrenPart(cs: seq<TreeNode>, height: real, fmt: real -> string): seq<Piece>
    decreases cs, 1
  {
    if |cs| > 0 then [Sym(LParen)] + ChildrenPieces(cs, height, true, fmt) + [Sym(RParen)] else []
  }

  function ChildrenPieces(cs: seq<TreeNode>, parentHeight: real, isFirst: bool, fmt: real -> string): (r: seq<Piece>)
    decreases cs, 0
  {
    if cs == [] then []
    else if isFirst then NodePieces(cs[0], Some(parentHeight), None, fmt) + ChildrenPieces(cs[1..], parentHeight, false, fmt)
    else [Sym(Comma)] + NodePieces(cs[0], Some(parentHeight), None, fmt) + ChildrenPieces(cs[1..], parentHeight, false, fmt)
  }

  lemma TextOne(p: Piece)
    ensures Text([p]) == PieceText(p)
  {
    assert [p][1..] == [];
  }

  lemma TextThree(a: seq<Piece>, b: seq<Piece>, c: seq<Piece>)
    ensures Text(a + b + c) == Text(a) + Text(b) + Text(c)
  {
    TextAppend(a, b);
    TextAppend(a + b, c);
  }

  lemma EntryText(key: string, value: string)
    ensures Text(EntryPieces(key, value)) == key + "=\"" + value + "\""
  {
    var e := EntryPieces(key, value);
    assert e == [Bare(key)] + [Sym(Equals)] + [Quoted(value)];
    TextThree([Bare(key)], [Sym(Equals)], [Quoted(value)]);
    TextOne(Bare(key));
    TextOne(Sym(Equals));
    TextOne(Quoted(value));
    assert "=" + ("\"" + value + "\"") == "=\"" + value + "\"";
  }

  lemma {:induction false} AnnText(ann: Annotations, isFirst: bool)
    ensures Text(AnnPieces(ann, isFirst)) == AnnotationsText(ann, isFirst)
  {
    if ann != [] {
      AnnText(ann[1..], false);
      if isFirst {
        TextAppend(EntryPieces(ann[0].0, ann[0].1), AnnPieces(ann[1..], false));
      } else {
        TextThree([Sym(Comma)], EntryPieces(ann[0].0, ann[0].1), AnnPieces(ann[1..], false));
      }
      EntryText(ann[0].0, ann[0].1);
      TextOne(Sym(Comma));
    }
  }

  lemma LabelText(nodeLabel: Option<string>)
    ensures Text(LabelPart(nodeLabel)) == if nodeLabel.Some? then nodeLabel.value else ""
  {
    if nodeLabel.Some? {
      TextOne(Bare(nodeLabel.value));
    }
  }

  lemma AnnPartText(ann: Annotations)
    ensures Text(AnnPart(ann)) == if |ann| > 0 then "[&" + AnnotationsText(ann, true) + "]" else ""
  {
    if |ann| > 0 {
      AnnText(ann, true);
      TextThree([Sym(OpenA)], AnnPieces(ann, true), [Sym(CloseA)]);
      TextOne(Sym(OpenA));
      TextOne(Sym(CloseA));
    }
  }

  lemma EdgePartText(height: real, parentHeight: Option<real>, origin: Option<real>, fmt: real -> string)
    ensures Text(EdgePart(height, parentHeight, origin, fmt)) == EdgeText(height, parentHeight, origin, fmt)
  {
    var v := EdgeValue(height, parentHeight, origin, fmt);
    assert EdgePart(height, parentHeight, origin, fmt) == [Sym(Colon)] + [Bare(v)];
    TextAppend([Sym(Colon)], [Bare(v)]);
    TextOne(Sym(Colon));
    TextOne(Bare(v));
  }

  lemma TextFour(a: seq<Piece>, b: seq<Piece>, c: seq<Piece>, d: seq<Piece>)
    ensures Text(a + b + c + d) == Text(a) + Text(b) + Text(c) + Text(d)
  {
    TextThree(a, b, c);
    TextAppend(a + b + c, d);
  }

  /** The pieces of a node spell out what getNewick returns. */
  lemma {:induction false} NodeText(t: TreeNode, parentHeight: Option<real>, origin: Option<real>, fmt: real -> string)
    ensures Text(NodePieces(t, parentHeight, origin, fmt)) == GetNewick(t, parentHeight, origin, fmt)
    decreases t, 2
  {
    ChildrenPartText(t.children, t.height, fmt);
    LabelText(t.nodeLabel);
    AnnPartText(t.annotations);
    EdgePartText(t.height, parentHeight, origin, fmt);
    TextFour(ChildrenPart(t.children, t.height, fmt), LabelPart(t.nodeLabel), AnnPart(t.annotations),
             EdgePart(t.height, parentHeight, origin, fmt));
  }

  lemma {:induction false} ChildrenPartText(cs: seq<TreeNode>, height: real, fmt: real -> string)
    ensures Text(ChildrenPart(cs, height, fmt)) == (if |cs| > 0 then "(" + ChildrenNewick(cs, height, true, fmt) + ")" else "")
    decreases cs, 1
  {
    if |cs| > 0 {
      var inner := ChildrenPieces(cs, height, true, fmt);
      ChildrenText(cs, height, true, fmt);
      TextThree([Sym(LParen)], inner, [Sym(RParen)]);
      TextOne(Sym(LParen));
      TextOne(Sym(RParen));
    }
  }

  lemma {:induction false} ChildrenText(cs: seq<TreeNode>, parentHeight: real, isFirst: bool, fmt: real -> string)
    ensures Text(ChildrenPieces(cs, parentHeight, isFirst, fmt)) == ChildrenNewick(cs, parentHeight, isFirst, fmt)
    decreases cs, 0
  {
    if cs != [] {
      var first := NodePieces(cs[0], Some(parentHeight), None, fmt);
      var rest := ChildrenPieces(cs[1..], parentHeight, false, fmt);
      NodeText(cs[0], Some(parentHeight), None, fmt);
      ChildrenText(cs[1..], parentHeight, false, fmt);
      if isFirst {
        TextAppend(first, rest);
      } else {
        TextThree([Sym(Comma)], first, rest);
      }
      TextOne(Sym(Comma));
    }
  }

  // ---------------------------------------------------------------------
  // Which trees print to text that reads back

  /** Annotation keys are bare words; values are non-empty and free of '"'. */
  predicate PrintableAnn(ann: Annotations)
  {
    forall k :: 0 <= k < |ann| ==> BareWord(ann[k].0) && |ann[k].1| > 0 && '"' !in ann[k].1
  }

  /** Labels are bare words, annotations are printable with distinct keys, in every node. */
  predicate Printable(t: TreeNode)
    decreases t
  {
    (t.nodeLabel.Some? ==> BareWord(t.nodeLabel.value))
    && PrintableAnn(t.annotations) && DistinctKeys(t.annotations)
    && PrintableList(t.children)
  }

  predicate PrintableList(cs: seq<TreeNode>)
    decreases cs
  {
    cs == [] || (Printable(cs[0]) && PrintableList(cs[1..]))
  }

  /** The number x is printed so that `parseFloat` reads it back exactly. */
  predicate ReadsAt(fmt: real -> string, parseFloat: string -> Option<real>, x: real)
  {
    parseFloat(fmt(x)) == Some(x)
  }

  /** Every edge length the node and its descendants print, the node's own from its parent's height or the origin, reads back. */
  predicate EdgesReadBack(t: TreeNode, parentHeight: Option<real>, origin: Option<real>,
                          fmt: real -> string, parseFloat: string -> Option<real>)
    decreases t, 1
  {
    ReadsAt(fmt, parseFloat, EdgeLength(t.height, parentHeight, origin)) && EdgesReadBackList(t.children, t.height, fmt, parseFloat)
  }

  predicate EdgesReadBackList(cs: seq<TreeNode>, height: real, fmt: real -> string, parseFloat: string -> Option<real>)
    decreases cs, 0
  {
    cs == [] || (EdgesReadBack(cs[0], Some(height), None, fmt, parseFloat) && EdgesReadBackList(cs[1..], height, fmt, parseFloat))
  }

  predicate Good(ps: seq<Piece>)
  {
    ValidPieces(ps) && Separated(ps)
  }

  lemma {:induction false} SeparatedJoin(a: seq<Piece>, b: seq<Piece>)
    requires Separated(a) && Separated(b)
    requires a != [] && b != [] ==> !(a[|a| - 1].Bare? && b[0].Bare?)
    ensures Separated(a + b)
  {
    if |a| >= 2 {
      assert (a + b)[1..] == a[1..] + b;
      SeparatedJoin(a[1..], b);
    } else if |a| == 1 {
      assert (a + b)[1..] == b;
    } else {
      assert a + b == b;
    }
  }

  /** Two good runs make a good run unless a bare word meets a bare word. */
  lemma GoodJoin(a: seq<Piece>, b: seq<Piece>)
    requires Good(a) && Good(b)
    requires a != [] && b != [] ==> !(a[|a| - 1].Bare? && b[0].Bare?)
    ensures Good(a + b)
  {
    SeparatedJoin(a, b);
    assert ValidPieces(a + b) by {
      forall k | 0 <= k < |a + b| ensures ValidPiece((a + b)[k]) {
        if k < |a| { assert (a + b)[k] == a[k]; } else { assert (a + b)[k] == b[k - |a|]; }
      }
    }
  }

  lemma GoodSym(k: Kind)
    requires k != Str
    ensures Good([Sym(k)])
  {
  }

  lemma GoodBare(w: string)
    requires BareWord(w)
    ensures Good([Bare(w)])
  {
  }

  lemma {:induction false} AnnGood(ann: Annotations, isFirst: bool)
    requires PrintableAnn(ann)
    ensures Good(AnnPieces(ann, isFirst))
  {
    if ann != [] {
      var entry := EntryPieces(ann[0].0, ann[0].1);
      var rest := AnnPieces(ann[1..], false);
      assert PrintableAnn(ann[1..]) by {
        forall k | 0 <= k < |ann[1..]| ensures BareWord(ann[1..][k].0) && |ann[1..][k].1| > 0 && '"' !in ann[1..][k].1 {
          assert ann[1..][k] == ann[k + 1];
        }
      }
      assert BareWord(ann[0].0) && |ann[0].1| > 0 && '"' !in ann[0].1;
      AnnGood(ann[1..], false);
      assert Good(entry) by {
        assert Separated(entry[1..]);
      }
      if isFirst {
        GoodJoin(entry, rest);
      } else {
        GoodJoin([Sym(Comma)], entry);
        GoodJoin([Sym(Comma)] + entry, rest);
      }
    }
  }

  /** The pieces of a printable node are valid and no two bare words meet; the last one is the edge. */
  lemma {:induction false} NodeGood(t: TreeNode, parentHeight: Option<real>, origin: Option<real>, fmt: real -> string)
    requires Printable(t) && forall x :: BareWord(fmt(x))
    ensures Good(NodePieces(t, parentHeight, origin, fmt))
    decreases t, 2
  {
    var cp := ChildrenPart(t.children, t.height, fmt);
    var lp := LabelPart(t.nodeLabel);
    var ap := AnnPart(t.annotations);
    var ep := EdgePart(t.height, parentHeight, origin, fmt);
    ChildrenPartGood(t.children, t.height, fmt);
    if t.nodeLabel.Some? {
      GoodBare(t.nodeLabel.value);
    }
    if |t.annotations| > 0 {
      AnnGood(t.annotations, true);
      GoodSym(OpenA);
      GoodSym(CloseA);
      GoodJoin([Sym(OpenA)], AnnPieces(t.annotations, true));
      GoodJoin([Sym(OpenA)] + AnnPieces(t.annotations, true), [Sym(CloseA)]);
    }
    assert BareWord(EdgeValue(t.height, parentHeight, origin, fmt));
    assert Good(ep) by {
      assert Separated(ep[1..]);
    }
    GoodJoin(cp, lp);
    GoodJoin(cp + lp, ap);
    assert ap != [] ==> ap[0] == Sym(OpenA);
    GoodJoin(cp + lp + ap, ep);
  }

  lemma {:induction false} ChildrenPartGood(cs: seq<TreeNode>, height: real, fmt: real -> string)
    requires PrintableList(cs) && forall x :: BareWord(fmt(x))
    ensures var r := ChildrenPart(cs, height, fmt); Good(r) && (r != [] ==> r[|r| - 1] == Sym(RParen))
    decreases cs, 1
  {
    if |cs| > 0 {
      var inner := ChildrenPieces(cs, height, true, fmt);
      ChildrenGood(cs, height, true, fmt);
      GoodSym(LParen);
      GoodSym(RParen);
      GoodJoin([Sym(LParen)], inner);
      GoodJoin([Sym(LParen)] + inner, [Sym(RParen)]);
    }
  }

  lemma {:induction false} ChildrenGood(cs: seq<TreeNode>, parentHeight: real, isFirst: bool, fmt: real -> string)
    requires PrintableList(cs) && forall x :: BareWord(fmt(x))
    ensures Good(ChildrenPieces(cs, parentHeight, isFirst, fmt))
    decreases cs, 0
  {
    if cs != [] {
      var first := NodePieces(cs[0], Some(parentHeight), None, fmt);
      var rest := ChildrenPieces(cs[1..], parentHeight, false, fmt);
      NodeGood(cs[0], Some(parentHeight), None, fmt);
      ChildrenGood(cs[1..], parentHeight, false, fmt);
      if isFirst {
        GoodJoin(first, rest);
      } else {
        GoodJoin([Sym(Comma)], first);
        GoodJoin([Sym(Comma)] + first, rest);
      }
    }
  }

  // ---------------------------------------------------------------------
  // Parsing the tokens of printed pieces

  /** The parsed node the printed text of `t` reads back as. */
  function Reparsed(t: TreeNode, parentHeight: Option<real>, origin: Option<real>): Node
    decreases t
  {
    Node(ReparsedList(t.children, t.height), t.nodeLabel, t.annotations, Some(EdgeLength(t.height, parentHeight, origin)))
  }

  function ReparsedList(cs: seq<TreeNode>, parentHeight: real): seq<Node>
    decreases cs
  {
    if cs == [] then [] else [Reparsed(cs[0], Some(parentHeight), None)] + ReparsedList(cs[1..], parentHeight)
  }

  /** Storing the entries one after another, as ruleC and ruleD do. */
  function PutAll(ann: Annotations, entries: Annotations): Annotations
    decreases entries
  {
    if entries == [] then ann else PutAll(Put(ann, entries[0].0, entries[0].1), entries[1..])
  }

  lemma {:induction false} PutFresh(ann: Annotations, key: string, value: string)
    requires key !in KeysOf(ann)
    ensures Put(ann, key, value) == ann + [(key, value)]
  {
    if ann != [] {
      PutFresh(ann[1..], key, value);
    }
  }

  /** Storing entries with distinct keys, none already present, appends them in order. */
  lemma {:induction false} PutAllFresh(ann: Annotations, entries: Annotations)
    requires DistinctKeys(entries) && KeysOf(entries) * KeysOf(ann) == {}
    ensures PutAll(ann, entries) == ann + entries
    decreases entries
  {
    if entries != [] {
      var e := entries[0];
      assert e.0 in KeysOf(entries);
      PutFresh(ann, e.0, e.1);
      PutKeys(ann, e.0, e.1);
      PutAllFresh(ann + [e], entries[1..]);
      assert (ann + [e]) + entries[1..] == ann + entries;
    }
  }

  /** `ts` holds the tokens of `ps` from index `i` on. */
  predicate TokensAt(ts: seq<Token>, i: nat, ps: seq<Piece>)
  {
    i + |ps| <= |ts| && forall k :: 0 <= k < |ps| ==> ts[i + k] == PieceToken(ps[k])
  }

  /** The token at `i` of a single piece. */
  lemma TokensAtOne(ts: seq<Token>, i: nat, p: Piece)
    requires TokensAt(ts, i, [p])
    ensures i < |ts| && ts[i] == PieceToken(p)
  {
    TokensAtIndex(ts, i, [p], 0);
  }

  /** The token at `i` of a single symbol. */
  lemma TokensAtSym(ts: seq<Token>, i: nat, k: Kind)
    requires TokensAt(ts, i, [Sym(k)])
    ensures i < |ts| && ts[i].kind == k
  {
    TokensAtIndex(ts, i, [Sym(k)], 0);
  }

  /** The token of the `k`-th piece. */
  lemma TokensAtIndex(ts: seq<Token>, i: nat, ps: seq<Piece>, k: nat)
    requires TokensAt(ts, i, ps) && k < |ps|
    ensures i + k < |ts| && ts[i + k] == PieceToken(ps[k])
  {
  }

  lemma TokensAtSplit(ts: seq<Token>, i: nat, a: seq<Piece>, b: seq<Piece>)
    requires TokensAt(ts, i, a + b)
    ensures TokensAt(ts, i, a) && TokensAt(ts, i + |a|, b)
  {
    forall k | 0 <= k < |a|
      ensures ts[i + k] == PieceToken(a[k])
    {
      assert (a + b)[k] == a[k];
    }
    forall k | 0 <= k < |b|
      ensures ts[i + |a| + k] == PieceToken(b[k])
    {
      assert (a + b)[|a| + k] == b[k];
    }
  }

  lemma TokensAtThree(ts: seq<Token>, i: nat, a: seq<Piece>, b: seq<Piece>, c: seq<Piece>)
    requires TokensAt(ts, i, a + b + c)
    ensures TokensAt(ts, i, a) && TokensAt(ts, i + |a|, b) && TokensAt(ts, i + |a| + |b|, c)
  {
    TokensAtSplit(ts, i, a + b, c);
    TokensAtSplit(ts, i, a, b);
  }

  /** The token list of the pieces holds them from its start. */
  lemma TokensAtOwn(ps: seq<Piece>, rest: seq<Token>, i: nat)
    requires i <= |ps|
    ensures TokensAt(Tokens(ps) + rest, i, ps[i..])
  {
    var ts := Tokens(ps) + rest;
    forall k | 0 <= k < |ps| - i
      ensures ts[i + k] == PieceToken(ps[i..][k])
    {
      assert ts[i + k] == Tokens(ps)[i + k];
    }
  }

  /** What may follow the pieces of a node: ',' or ')' inside a list of children, ';' at the end. */
  predicate Follows(ts: seq<Token>, e: nat)
  {
    e < |ts| && (ts[e].kind == Comma || ts[e].kind == RParen || ts[e].kind == Semi)
  }

  lemma ParseCBack(ts: seq<Token>, i: nat, ann: Annotations, key: string, value: string)
    requires WellFormed(ts) && TokensAt(ts, i, EntryPieces(key, value))
    ensures ParseC(ts, i, ann) == Ok((Put(ann, key, value), i + 3))
  {
    assert EntryPieces(key, value) == [Bare(key)] + [Sym(Equals)] + [Quoted(value)];
    TokensAtThree(ts, i, [Bare(key)], [Sym(Equals)], [Quoted(value)]);
    TokensAtOne(ts, i, Bare(key));
    TokensAtOne(ts, i + 1, Sym(Equals));
    TokensAtOne(ts, i + 2, Quoted(value));
  }

  lemma {:induction false} ParseDBack(ts: seq<Token>, i: nat, ann: Annotations, entries: Annotations)
    requires WellFormed(ts) && TokensAt(ts, i, AnnPieces(entries, false))
    requires i + |AnnPieces(entries, false)| < |ts| && ts[i + |AnnPieces(entries, false)|].kind == CloseA
    ensures ParseD(ts, i, ann) == Ok((PutAll(ann, entries), i + |AnnPieces(entries, false)|))
    decreases entries
  {
    if entries != [] {
      var entry := EntryPieces(entries[0].0, entries[0].1);
      var rest := AnnPieces(entries[1..], false);
      TokensAtThree(ts, i, [Sym(Comma)], entry, rest);
      TokensAtSym(ts, i, Comma);
      ParseCBack(ts, i + 1, ann, entries[0].0, entries[0].1);
      ParseDBack(ts, i + 4, Put(ann, entries[0].0, entries[0].1), entries[1..]);
    }
  }

  /** After the first pair, ruleD stores the remaining pairs; with distinct keys that rebuilds `ann`. */
  lemma MorePairsBack(ts: seq<Token>, j: nat, ann: Annotations)
    requires WellFormed(ts) && ann != [] && DistinctKeys(ann)
    requires TokensAt(ts, j, AnnPieces(ann[1..], false))
    requires j + |AnnPieces(ann[1..], false)| < |ts| && ts[j + |AnnPieces(ann[1..], false)|].kind == CloseA
    ensures ParseD(ts, j, Put([], ann[0].0, ann[0].1)) == Ok((ann, j + |AnnPieces(ann[1..], false)|))
  {
    ParseDBack(ts, j, Put([], ann[0].0, ann[0].1), ann[1..]);
    assert PutAll(Put([], ann[0].0, ann[0].1), ann[1..]) == PutAll([], ann);
    PutAllFresh([], ann);
    assert [] + ann == ann;
  }

  /** ruleA, given what each of its steps returns. */
  lemma ParseASteps(ts: seq<Token>, i: nat, first: Annotations, ann: Annotations, j: nat, end: nat)
    requires WellFormed(ts) && i + 4 == j <= end < |ts|
    requires Accept(ts, i, OpenA, false) == Ok((true, i + 1))
    requires ParseC(ts, i + 1, []) == Ok((first, j))
    requires ParseD(ts, j, first) == Ok((ann, end))
    requires ts[end].kind == CloseA
    ensures ParseA(ts, i) == Ok((ann, end + 1))
  {
  }

  /** Where the tokens of non-empty annotations sit. */
  lemma AnnPartTokens(ts: seq<Token>, i: nat, ann: Annotations)
    requires ann != [] && TokensAt(ts, i, AnnPart(ann))
    ensures var more := AnnPieces(ann[1..], false);
      && |AnnPart(ann)| == 5 + |more|
      && i + 4 + |more| < |ts|
      && ts[i].kind == OpenA
      && TokensAt(ts, i + 1, EntryPieces(ann[0].0, ann[0].1))
      && TokensAt(ts, i + 4, more)
      && ts[i + 4 + |more|].kind == CloseA
  {
    var entry := EntryPieces(ann[0].0, ann[0].1);
    var more := AnnPieces(ann[1..], false);
    var inner := AnnPieces(ann, true);
    assert inner == entry + more;
    TokensAtThree(ts, i, [Sym(OpenA)], inner, [Sym(CloseA)]);
    TokensAtSplit(ts, i + 1, entry, more);
    TokensAtSym(ts, i, OpenA);
    TokensAtSym(ts, i + 1 + |inner|, CloseA);
  }

  lemma {:induction false} ParsePairsBack(ts: seq<Token>, i: nat, ann: Annotations)
    requires WellFormed(ts) && ann != [] && DistinctKeys(ann)
    requires var more := AnnPieces(ann[1..], false);
      && i + 4 + |more| < |ts|
      && ts[i].kind == OpenA
      && TokensAt(ts, i + 1, EntryPieces(ann[0].0, ann[0].1))
      && TokensAt(ts, i + 4, more)
      && ts[i + 4 + |more|].kind == CloseA
    ensures ParseA(ts, i) == Ok((ann, i + 5 + |AnnPieces(ann[1..], false)|))
  {
    ParseCBack(ts, i + 1, [], ann[0].0, ann[0].1);
    MorePairsBack(ts, i + 4, ann);
    ParseASteps(ts, i, Put([], ann[0].0, ann[0].1), ann, i + 4, i + 4 + |AnnPieces(ann[1..], false)|);
  }

  lemma ParseABack(ts: seq<Token>, i: nat, ann: Annotations)
    requires WellFormed(ts) && TokensAt(ts, i, AnnPart(ann)) && DistinctKeys(ann)
    requires ann == [] ==> i < |ts| && ts[i].kind != OpenA
    ensures ParseA(ts, i) == Ok((ann, i + |AnnPart(ann)|))
  {
    if ann == [] {
      ParseANone(ts, i);
    } else {
      AnnPartTokens(ts, i, ann);
      ParsePairsBack(ts, i, ann);
    }
  }

  /** Without a '[' at `i`, ruleA reads no annotations. */
  lemma ParseANone(ts: seq<Token>, i: nat)
    requires WellFormed(ts) && i < |ts| && ts[i].kind != OpenA
    ensures ParseA(ts, i) == Ok(([], i))
  {
  }

  lemma ParseLBack(ts: seq<Token>, i: nat, nodeLabel: Option<string>)
    requires WellFormed(ts) && TokensAt(ts, i, LabelPart(nodeLabel))
    requires nodeLabel.None? ==> i < |ts| && ts[i].kind != Str
    ensures ParseL(ts, i) == Ok((nodeLabel, i + |LabelPart(nodeLabel)|))
  {
    if nodeLabel.Some? {
      TokensAtIndex(ts, i, LabelPart(nodeLabel), 0);
    }
  }

  lemma ParseBBack(ts: seq<Token>, i: nat, height: real, parentHeight: Option<real>, origin: Option<real>,
                   fmt: real -> string, parseFloat: string -> Option<real>)
    requires WellFormed(ts) && TokensAt(ts, i, EdgePart(height, parentHeight, origin, fmt))
    requires ReadsAt(fmt, parseFloat, EdgeLength(height, parentHeight, origin)) && (parentHeight.Some? || origin.Some?)
    ensures ParseB(ts, i, parseFloat) == Ok((Some(EdgeLength(height, parentHeight, origin)), i + 2))
  {
    var x := EdgeLength(height, parentHeight, origin);
    var ep := EdgePart(height, parentHeight, origin, fmt);
    TokensAtIndex(ts, i, ep, 0);
    TokensAtIndex(ts, i, ep, 1);
    assert ep[1] == Bare(fmt(x));
    assert parseFloat(fmt(x)) == Some(x);
  }

  /** Where the tokens of four consecutive runs sit, the last one starting with a colon. */
  lemma FourTokens(ts: seq<Token>, i: nat, cp: seq<Piece>, lp: seq<Piece>, ap: seq<Piece>, ep: seq<Piece>, i1: nat, i2: nat, i3: nat)
    requires TokensAt(ts, i, cp + lp + ap + ep) && ep != [] && ep[0] == Sym(Colon)
    requires i1 == i + |cp| && i2 == i1 + |lp| && i3 == i2 + |ap|
    ensures |cp + lp + ap + ep| == i3 + |ep| - i
    ensures TokensAt(ts, i, cp) && TokensAt(ts, i1, lp) && TokensAt(ts, i2, ap) && TokensAt(ts, i3, ep)
    ensures i3 < |ts| && ts[i3].kind == Colon
    ensures lp != [] ==> i1 < |ts| && ts[i1] == PieceToken(lp[0])
    ensures ap != [] ==> i2 < |ts| && ts[i2] == PieceToken(ap[0])
  {
    TokensAtSplit(ts, i, cp + lp + ap, ep);
    TokensAtThree(ts, i, cp, lp, ap);
  }

  /** Where the tokens of the four parts of a node sit, and what follows each optional part when it is absent. */
  lemma NodeTokens(ts: seq<Token>, i: nat, t: TreeNode, parentHeight: Option<real>, origin: Option<real>, fmt: real -> string,
                   i1: nat, i2: nat, i3: nat)
    requires TokensAt(ts, i, NodePieces(t, parentHeight, origin, fmt))
    requires i1 == i + |ChildrenPart(t.children, t.height, fmt)| && i2 == i1 + |LabelPart(t.nodeLabel)|
    requires i3 == i2 + |AnnPart(t.annotations)|
    ensures |NodePieces(t, parentHeight, origin, fmt)| == i3 + 2 - i
    ensures TokensAt(ts, i, ChildrenPart(t.children, t.height, fmt)) && (t.children == [] ==> i < |ts| && ts[i].kind != LParen)
    ensures TokensAt(ts, i1, LabelPart(t.nodeLabel)) && (t.nodeLabel.None? ==> i1 < |ts| && ts[i1].kind != Str)
    ensures TokensAt(ts, i2, AnnPart(t.annotations)) && (t.annotations == [] ==> i2 < |ts| && ts[i2].kind != OpenA)
    ensures TokensAt(ts, i3, EdgePart(t.height, parentHeight, origin, fmt))
  {
    FourTokens(ts, i, ChildrenPart(t.children, t.height, fmt), LabelPart(t.nodeLabel), AnnPart(t.annotations),
               EdgePart(t.height, parentHeight, origin, fmt), i1, i2, i3);
  }

  /** ruleN at `i` reads `n` and leaves the cursor at `e`. */
  predicate ReadsN(ts: seq<Token>, i: nat, parseFloat: string -> Option<real>, n: Node, e: nat)
  {
    WellFormed(ts) && i <= |ts| && ParseN(ts, i, parseFloat) == Ok((n, e))
  }

  /** ruleS at `i` reads the children `cs` and leaves the cursor at `e`. */
  predicate ReadsS(ts: seq<Token>, i: nat, parseFloat: string -> Option<real>, cs: seq<Node>, e: nat)
  {
    WellFormed(ts) && i <= |ts| && ParseS(ts, i, parseFloat) == Ok((cs, e))
  }

  /** ruleQ at `i` reads the further children `cs` and leaves the cursor at `e`. */
  predicate ReadsQ(ts: seq<Token>, i: nat, parseFloat: string -> Option<real>, cs: seq<Node>, e: nat)
  {
    WellFormed(ts) && i <= |ts| && ParseQ(ts, i, parseFloat) == Ok((cs, e))
  }

  /** ruleL, ruleA and ruleB, one after another from `i1`, read a label, annotations and a length, ending at `e`. */
  predicate ReadsTail(ts: seq<Token>, i1: nat, i2: nat, i3: nat, parseFloat: string -> Option<real>,
                      nodeLabel: Option<string>, annotations: Annotations, branchLength: Option<real>, e: nat)
  {
    WellFormed(ts) && i1 <= |ts| && i2 <= |ts| && i3 <= |ts|
    && ParseL(ts, i1) == Ok((nodeLabel, i2))
    && ParseA(ts, i2) == Ok((annotations, i3))
    && ParseB(ts, i3, parseFloat) == Ok((branchLength, e))
  }

  /** ruleN, given what each of its steps returns. */
  lemma ParseNSteps(ts: seq<Token>, i: nat, parseFloat: string -> Option<real>, children: seq<Node>, nodeLabel: Option<string>,
                    annotations: Annotations, branchLength: Option<real>, i1: nat, i2: nat, i3: nat, e: nat)
    requires ReadsS(ts, i, parseFloat, children, i1) && i1 <= |ts|
    requires ReadsTail(ts, i1, i2, i3, parseFloat, nodeLabel, annotations, branchLength, e)
    ensures ReadsN(ts, i, parseFloat, Node(children, nodeLabel, annotations, branchLength), e)
  {
  }

  /** The label, annotations and edge of a printed node read back, given where their tokens sit. */
  lemma TailBack(ts: seq<Token>, t: TreeNode, parentHeight: Option<real>, origin: Option<real>,
                 fmt: real -> string, parseFloat: string -> Option<real>, i1: nat, i2: nat, i3: nat)
    requires WellFormed(ts) && Printable(t) && (parentHeight.Some? || origin.Some?)
    requires ReadsAt(fmt, parseFloat, EdgeLength(t.height, parentHeight, origin))
    requires i2 == i1 + |LabelPart(t.nodeLabel)| && i3 == i2 + |AnnPart(t.annotations)|
    requires TokensAt(ts, i1, LabelPart(t.nodeLabel)) && (t.nodeLabel.None? ==> i1 < |ts| && ts[i1].kind != Str)
    requires TokensAt(ts, i2, AnnPart(t.annotations)) && (t.annotations == [] ==> i2 < |ts| && ts[i2].kind != OpenA)
    requires TokensAt(ts, i3, EdgePart(t.height, parentHeight, origin, fmt))
    ensures ReadsTail(ts, i1, i2, i3, parseFloat, t.nodeLabel, t.annotations, Some(EdgeLength(t.height, parentHeight, origin)), i3 + 2) == true
  {
    ParseLBack(ts, i1, t.nodeLabel);
    assert ParseL(ts, i1) == Ok((t.nodeLabel, i2));
    ParseABack(ts, i2, t.annotations);
    assert ParseA(ts, i2) == Ok((t.annotations, i3));
    ParseBBack(ts, i3, t.height, parentHeight, origin, fmt, parseFloat);
  }

  /** ruleS, given a '(' and what the first child and the further children return, and a ')'. */
  lemma ParseSSteps(ts: seq<Token>, i: nat, parseFloat: string -> Option<real>, first: Node, more: seq<Node>, j: nat, k: nat)
    requires i < |ts| && ts[i].kind == LParen
    requires ReadsN(ts, i + 1, parseFloat, first, j) && j <= |ts|
    requires ReadsQ(ts, j, parseFloat, more, k)
    requires k < |ts| && ts[k].kind == RParen
    ensures ReadsS(ts, i, parseFloat, [first] + more, k + 1)
  {
  }

  /** ruleS without a '('. */
  lemma ParseSNone(ts: seq<Token>, i: nat, parseFloat: string -> Option<real>)
    requires WellFormed(ts) && i < |ts| && ts[i].kind != LParen
    ensures ReadsS(ts, i, parseFloat, [], i)
  {
  }

  /** ruleQ, given a ',' and what the next child and the further children return. */
  lemma ParseQSteps(ts: seq<Token>, i: nat, parseFloat: string -> Option<real>, first: Node, more: seq<Node>, j: nat, k: nat)
    requires i < |ts| && ts[i].kind == Comma
    requires ReadsN(ts, i + 1, parseFloat, first, j) && j <= |ts|
    requires ReadsQ(ts, j, parseFloat, more, k)
    ensures ReadsQ(ts, i, parseFloat, [first] + more, k)
  {
  }

  /** ruleQ without a ','. */
  lemma ParseQNone(ts: seq<Token>, i: nat, parseFloat: string -> Option<real>)
    requires WellFormed(ts) && i < |ts| && ts[i].kind != Comma
    ensures ReadsQ(ts, i, parseFloat, [], i)
  {
  }

  /** `ts` holds the printed node `t` from `i` to `e`. */
  predicate NodePrinted(ts: seq<Token>, i: nat, t: TreeNode, parentHeight: Option<real>, origin: Option<real>,
                        fmt: real -> string, e: nat)
  {
    TokensAt(ts, i, NodePieces(t, parentHeight, origin, fmt)) && e == i + |NodePieces(t, parentHeight, origin, fmt)|
  }

  /** ruleN at `i` reads the node `t` back, ending at `e`. */
  predicate NodeRead(ts: seq<Token>, i: nat, parseFloat: string -> Option<real>, t: TreeNode,
                     parentHeight: Option<real>, origin: Option<real>, e: nat)
  {
    ReadsN(ts, i, parseFloat, Reparsed(t, parentHeight, origin), e)
  }

  /** The children of a printed node sit at its start, and its label, annotations and edge read back. */
  lemma NodeLayout(ts: seq<Token>, i: nat, t: TreeNode, parentHeight: Option<real>, origin: Option<real>,
                   fmt: real -> string, parseFloat: string -> Option<real>, e: nat)
    returns (i1: nat, i2: nat, i3: nat)
    requires NodeGoal(ts, i, t, parentHeight, origin, fmt, parseFloat, e)
    ensures ChildrenGoal(ts, i, t.children, t.height, fmt, parseFloat, i1)
    ensures ReadsTail(ts, i1, i2, i3, parseFloat, t.nodeLabel, t.annotations, Some(EdgeLength(t.height, parentHeight, origin)), e)
  {
    i1 := i + |ChildrenPart(t.children, t.height, fmt)|;
    i2 := i1 + |LabelPart(t.nodeLabel)|;
    i3 := i2 + |AnnPart(t.annotations)|;
    NodeTokens(ts, i, t, parentHeight, origin, fmt, i1, i2, i3);
    TailBack(ts, t, parentHeight, origin, fmt, parseFloat, i1, i2, i3);
  }

  /** The parser reads the tokens of a printed node back as that node, its edge as length. */
  lemma {:induction false} ParseNodeBack(ts: seq<Token>, i: nat, t: TreeNode, parentHeight: Option<real>, origin: Option<real>,
                                         fmt: real -> string, parseFloat: string -> Option<real>, e: nat)
    ensures NodeGoal(ts, i, t, parentHeight, origin, fmt, parseFloat, e) ==> NodeRead(ts, i, parseFloat, t, parentHeight, origin, e)
    decreases t, 3
  {
    if NodeGoal(ts, i, t, parentHeight, origin, fmt, parseFloat, e) {
      var i1, i2, i3 := NodeLayout(ts, i, t, parentHeight, origin, fmt, parseFloat, e);
      ParsePartsBack(ts, i, t.children, t.height, fmt, parseFloat, i1, i2, i3,
                     t.nodeLabel, t.annotations, Some(EdgeLength(t.height, parentHeight, origin)), e);
    }
  }

  /** ruleN reads back printed children followed by a label, annotations and a length already read back. */
  lemma {:induction false} ParsePartsBack(ts: seq<Token>, i: nat, cs: seq<TreeNode>, height: real,
                                          fmt: real -> string, parseFloat: string -> Option<real>, i1: nat, i2: nat, i3: nat,
                                          nodeLabel: Option<string>, annotations: Annotations, branchLength: Option<real>, e: nat)
    ensures ChildrenGoal(ts, i, cs, height, fmt, parseFloat, i1)
            && ReadsTail(ts, i1, i2, i3, parseFloat, nodeLabel, annotations, branchLength, e)
            ==> ReadsN(ts, i, parseFloat, Node(ReparsedList(cs, height), nodeLabel, annotations, branchLength), e)
    decreases cs, 2
  {
    ParseSBack(ts, i, cs, height, fmt, parseFloat, i1);
    if ChildrenRead(ts, i, parseFloat, cs, height, i1) && ReadsTail(ts, i1, i2, i3, parseFloat, nodeLabel, annotations, branchLength, e) {
      ParseNSteps(ts, i, parseFloat, ReparsedList(cs, height), nodeLabel, annotations, branchLength, i1, i2, i3, e);
    }
  }

  /** Where the tokens of three runs sit when the first and last are single symbols. */
  lemma Bracketed(ts: seq<Token>, i: nat, open: Kind, a: seq<Piece>, b: seq<Piece>, close: Kind)
    requires TokensAt(ts, i, [Sym(open)] + (a + b) + [Sym(close)])
    ensures i + 1 + |a| + |b| < |ts| && ts[i].kind == open && ts[i + 1 + |a| + |b|].kind == close
    ensures TokensAt(ts, i + 1, a) && TokensAt(ts, i + 1 + |a|, b)
  {
    TokensAtThree(ts, i, [Sym(open)], a + b, [Sym(close)]);
    TokensAtSplit(ts, i + 1, a, b);
    TokensAtSym(ts, i, open);
    TokensAtSym(ts, i + 1 + |a| + |b|, close);
  }

  lemma Prefixed(ts: seq<Token>, i: nat, sep: Kind, a: seq<Piece>, b: seq<Piece>)
    requires TokensAt(ts, i, [Sym(sep)] + a + b)
    ensures i < |ts| && ts[i].kind == sep && TokensAt(ts, i + 1, a) && TokensAt(ts, i + 1 + |a|, b)
  {
    TokensAtThree(ts, i, [Sym(sep)], a, b);
    TokensAtSym(ts, i, sep);
  }

  /** One step of the recursion over a non-empty list of children. */
  lemma ChildCons(cs: seq<TreeNode>, height: real, isFirst: bool, fmt: real -> string)
    requires cs != []
    ensures PrintableList(cs) == (Printable(cs[0]) && PrintableList(cs[1..]))
    ensures ReparsedList(cs, height) == [Reparsed(cs[0], Some(height), None)] + ReparsedList(cs[1..], height)
    ensures ChildrenPieces(cs, height, isFirst, fmt)
         == if isFirst then NodePieces(cs[0], Some(height), None, fmt) + ChildrenPieces(cs[1..], height, false, fmt)
            else [Sym(Comma)] + NodePieces(cs[0], Some(height), None, fmt) + ChildrenPieces(cs[1..], height, false, fmt)
    ensures |ChildrenPieces(cs, height, isFirst, fmt)|
         == (if isFirst then 0 else 1) + |NodePieces(cs[0], Some(height), None, fmt)| + |ChildrenPieces(cs[1..], height, false, fmt)|
  {
  }

  lemma PrintableCons(cs: seq<TreeNode>)
    requires cs != []
    ensures PrintableList(cs) == (Printable(cs[0]) && PrintableList(cs[1..]))
  {
  }

  lemma EdgesCons(cs: seq<TreeNode>, height: real, fmt: real -> string, parseFloat: string -> Option<real>)
    requires cs != []
    ensures EdgesReadBackList(cs, height, fmt, parseFloat)
            == (EdgesReadBack(cs[0], Some(height), None, fmt, parseFloat) && EdgesReadBackList(cs[1..], height, fmt, parseFloat))
  {
  }

  lemma ReparsedCons(cs: seq<TreeNode>, height: real)
    requires cs != []
    ensures ReparsedList(cs, height) == [Reparsed(cs[0], Some(height), None)] + ReparsedList(cs[1..], height)
  {
  }

  /** `ts` holds the printed children `cs` from `i` to `e`; without children no '(' is at `i`. */
  predicate ChildrenPrinted(ts: seq<Token>, i: nat, cs: seq<TreeNode>, height: real, fmt: real -> string, e: nat)
  {
    TokensAt(ts, i, ChildrenPart(cs, height, fmt)) && e == i + |ChildrenPart(cs, height, fmt)|
    && (cs == [] ==> i < |ts| && ts[i].kind != LParen)
  }

  /** ruleS at `i` reads the children `cs` back, ending at `e`. */
  predicate ChildrenRead(ts: seq<Token>, i: nat, parseFloat: string -> Option<real>, cs: seq<TreeNode>, height: real, e: nat)
  {
    ReadsS(ts, i, parseFloat, ReparsedList(cs, height), e)
  }

  /** `ts` holds the printed further children `cs` from `i`, followed by a ')' at `e`. */
  predicate MorePrinted(ts: seq<Token>, i: nat, cs: seq<TreeNode>, height: real, fmt: real -> string, e: nat)
  {
    TokensAt(ts, i, ChildrenPieces(cs, height, false, fmt)) && e == i + |ChildrenPieces(cs, height, false, fmt)|
    && e < |ts| && ts[e].kind == RParen
  }

  /** ruleQ at `i` reads the further children `cs` back, ending at `e`. */
  predicate MoreRead(ts: seq<Token>, i: nat, parseFloat: string -> Option<real>, cs: seq<TreeNode>, height: real, e: nat)
  {
    ReadsQ(ts, i, parseFloat, ReparsedList(cs, height), e)
  }

  lemma ChildrenPartCons(cs: seq<TreeNode>, height: real, fmt: real -> string)
    requires cs != []
    ensures ChildrenPart(cs, height, fmt)
         == [Sym(LParen)] + (NodePieces(cs[0], Some(height), None, fmt) + ChildrenPieces(cs[1..], height, false, fmt)) + [Sym(RParen)]
  {
    ChildCons(cs, height, true, fmt);
  }

  /** Where the first child and the further children of a printed list of children sit. */
  lemma ChildrenLayout(ts: seq<Token>, i: nat, cs: seq<TreeNode>, height: real, fmt: real -> string, e: nat)
    returns (j: nat)
    requires cs != [] && ChildrenPrinted(ts, i, cs, height, fmt, e)
    ensures i < |ts| && ts[i].kind == LParen && 0 < e
    ensures NodePrinted(ts, i + 1, cs[0], Some(height), None, fmt, j)
    ensures MorePrinted(ts, j, cs[1..], height, fmt, e - 1)
  {
    var first := NodePieces(cs[0], Some(height), None, fmt);
    var rest := ChildrenPieces(cs[1..], height, false, fmt);
    j := i + 1 + |first|;
    ChildrenPartCons(cs, height, fmt);
    Bracketed(ts, i, LParen, first, rest, RParen);
  }

  /** Where the next child and the children after it sit, behind a ','. */
  lemma MoreLayout(ts: seq<Token>, i: nat, cs: seq<TreeNode>, height: real, fmt: real -> string, e: nat)
    returns (j: nat)
    requires cs != [] && MorePrinted(ts, i, cs, height, fmt, e)
    ensures i < |ts| && ts[i].kind == Comma
    ensures NodePrinted(ts, i + 1, cs[0], Some(height), None, fmt, j)
    ensures MorePrinted(ts, j, cs[1..], height, fmt, e)
  {
    var first := NodePieces(cs[0], Some(height), None, fmt);
    var rest := ChildrenPieces(cs[1..], height, false, fmt);
    j := i + 1 + |first|;
    ChildCons(cs, height, false, fmt);
    Prefixed(ts, i, Comma, first, rest);
  }

  /** ruleS from its '(', the first child and the further children read back. */
  lemma ChildrenJoin(ts: seq<Token>, i: nat, parseFloat: string -> Option<real>, cs: seq<TreeNode>, height: real, j: nat, e: nat)
    ensures ChildrenShape(ts, i, cs, j, e)
            && NodeRead(ts, i + 1, parseFloat, cs[0], Some(height), None, j)
            && MoreRead(ts, j, parseFloat, cs[1..], height, e - 1)
            ==> ChildrenRead(ts, i, parseFloat, cs, height, e)
  {
    if ChildrenShape(ts, i, cs, j, e) && NodeRead(ts, i + 1, parseFloat, cs[0], Some(height), None, j)
       && MoreRead(ts, j, parseFloat, cs[1..], height, e - 1) {
      ReparsedCons(cs, height);
      ParseSSteps(ts, i, parseFloat, Reparsed(cs[0], Some(height), None), ReparsedList(cs[1..], height), j, e - 1);
    }
  }

  /** ruleQ from its ',', the next child and the children after it read back. */
  lemma MoreJoin(ts: seq<Token>, i: nat, parseFloat: string -> Option<real>, cs: seq<TreeNode>, height: real, j: nat, e: nat)
    ensures MoreShape(ts, i, cs, j)
            && NodeRead(ts, i + 1, parseFloat, cs[0], Some(height), None, j)
            && MoreRead(ts, j, parseFloat, cs[1..], height, e)
            ==> MoreRead(ts, i, parseFloat, cs, height, e)
  {
    if MoreShape(ts, i, cs, j) && NodeRead(ts, i + 1, parseFloat, cs[0], Some(height), None, j)
       && MoreRead(ts, j, parseFloat, cs[1..], height, e) {
      ReparsedCons(cs, height);
      ParseQSteps(ts, i, parseFloat, Reparsed(cs[0], Some(height), None), ReparsedList(cs[1..], height), j, e);
    }
  }

  /** What reading back a printed node needs: well-formed tokens, printable contents, numbers that read back, and the node's tokens at `i`. */
  ghost predicate NodeGoal(ts: seq<Token>, i: nat, t: TreeNode, parentHeight: Option<real>, origin: Option<real>,
                           fmt: real -> string, parseFloat: string -> Option<real>, e: nat)
  {
    WellFormed(ts) && Printable(t) && EdgesReadBack(t, parentHeight, origin, fmt, parseFloat) && (parentHeight.Some? || origin.Some?)
    && NodePrinted(ts, i, t, parentHeight, origin, fmt, e)
  }

  ghost predicate ChildrenGoal(ts: seq<Token>, i: nat, cs: seq<TreeNode>, height: real,
                               fmt: real -> string, parseFloat: string -> Option<real>, e: nat)
  {
    WellFormed(ts) && PrintableList(cs) && EdgesReadBackList(cs, height, fmt, parseFloat) && ChildrenPrinted(ts, i, cs, height, fmt, e)
  }

  ghost predicate MoreGoal(ts: seq<Token>, i: nat, cs: seq<TreeNode>, height: real,
                           fmt: real -> string, parseFloat: string -> Option<real>, e: nat)
  {
    WellFormed(ts) && PrintableList(cs) && EdgesReadBackList(cs, height, fmt, parseFloat) && MorePrinted(ts, i, cs, height, fmt, e)
  }

  /** A '(' at `i` and a ')' just before `e`, with the first child ending at `j` in between. */
  predicate ChildrenShape(ts: seq<Token>, i: nat, cs: seq<TreeNode>, j: nat, e: nat)
  {
    cs != [] && i < |ts| && ts[i].kind == LParen && 0 < e && j <= |ts| && e - 1 < |ts| && ts[e - 1].kind == RParen
  }

  /** A ',' at `i`, with the next child ending at `j`. */
  predicate MoreShape(ts: seq<Token>, i: nat, cs: seq<TreeNode>, j: nat)
  {
    cs != [] && i < |ts| && ts[i].kind == Comma && j <= |ts|
  }

  /** A non-empty printed list of children: its '(' at `i`, the first child behind it and the further children up to the ')'. */
  lemma ChildrenStep(ts: seq<Token>, i: nat, cs: seq<TreeNode>, height: real,
                     fmt: real -> string, parseFloat: string -> Option<real>, e: nat) returns (j: nat)
    requires cs != []
    ensures ChildrenGoal(ts, i, cs, height, fmt, parseFloat, e) ==>
              ChildrenShape(ts, i, cs, j, e)
              && NodeGoal(ts, i + 1, cs[0], Some(height), None, fmt, parseFloat, j)
              && MoreGoal(ts, j, cs[1..], height, fmt, parseFloat, e - 1)
  {
    j := i + 1 + |NodePieces(cs[0], Some(height), None, fmt)|;
    if ChildrenGoal(ts, i, cs, height, fmt, parseFloat, e) {
      PrintableCons(cs);
      EdgesCons(cs, height, fmt, parseFloat);
      j := ChildrenLayout(ts, i, cs, height, fmt, e);
    }
  }

  /** Non-empty further children: the ',' at `i`, the next child behind it and the children after it. */
  lemma MoreStep(ts: seq<Token>, i: nat, cs: seq<TreeNode>, height: real,
                 fmt: real -> string, parseFloat: string -> Option<real>, e: nat) returns (j: nat)
    requires cs != []
    ensures MoreGoal(ts, i, cs, height, fmt, parseFloat, e) ==>
              MoreShape(ts, i, cs, j)
              && NodeGoal(ts, i + 1, cs[0], Some(height), None, fmt, parseFloat, j)
              && MoreGoal(ts, j, cs[1..], height, fmt, parseFloat, e)
  {
    j := i + 1 + |NodePieces(cs[0], Some(height), None, fmt)|;
    if MoreGoal(ts, i, cs, height, fmt, parseFloat, e) {
      PrintableCons(cs);
      EdgesCons(cs, height, fmt, parseFloat);
      j := MoreLayout(ts, i, cs, height, fmt, e);
    }
  }

  /** ruleS reads back a printed list of children. */
  lemma {:induction false} ParseSBack(ts: seq<Token>, i: nat, cs: seq<TreeNode>, height: real,
                                      fmt: real -> string, parseFloat: string -> Option<real>, e: nat)
    ensures ChildrenGoal(ts, i, cs, height, fmt, parseFloat, e) ==> ChildrenRead(ts, i, parseFloat, cs, height, e) == true
    decreases cs, 1
  {
    if cs == [] {
      if ChildrenGoal(ts, i, cs, height, fmt, parseFloat, e) {
        ParseSNone(ts, i, parseFloat);
      }
    } else if ChildrenGoal(ts, i, cs, height, fmt, parseFloat, e) {
      ParseSConsBack(ts, i, cs, height, fmt, parseFloat, e);
    }
  }

  /** ruleS reads back a printed non-empty list of children: the first child, then the further ones. */
  lemma {:induction false} ParseSConsBack(ts: seq<Token>, i: nat, cs: seq<TreeNode>, height: real,
                                          fmt: real -> string, parseFloat: string -> Option<real>, e: nat)
    requires cs != [] && ChildrenGoal(ts, i, cs, height, fmt, parseFloat, e)
    ensures ChildrenRead(ts, i, parseFloat, cs, height, e)
    decreases cs, 0
  {
    var j := ChildrenStep(ts, i, cs, height, fmt, parseFloat, e);
    ParseNodeBack(ts, i + 1, cs[0], Some(height), None, fmt, parseFloat, j);
    ParseQBack(ts, j, cs[1..], height, fmt, parseFloat, e - 1);
    ChildrenJoin(ts, i, parseFloat, cs, height, j, e);
  }

  /** ruleQ reads back the printed further children, up to the closing ')'. */
  lemma {:induction false} ParseQBack(ts: seq<Token>, i: nat, cs: seq<TreeNode>, height: real,
                                      fmt: real -> string, parseFloat: string -> Option<real>, e: nat)
    ensures MoreGoal(ts, i, cs, height, fmt, parseFloat, e) ==> MoreRead(ts, i, parseFloat, cs, height, e)
    decreases cs, 0
  {
    if cs == [] {
      if MoreGoal(ts, i, cs, height, fmt, parseFloat, e) {
        ParseQNone(ts, i, parseFloat);
      }
    } else {
      var j := MoreStep(ts, i, cs, height, fmt, parseFloat, e);
      ParseNodeBack(ts, i + 1, cs[0], Some(height), None, fmt, parseFloat, j);
      ParseQBack(ts, j, cs[1..], height, fmt, parseFloat, e);
      MoreJoin(ts, i, parseFloat, cs, height, j, e);
    }
  }

  // ---------------------------------------------------------------------
  // The whole round trip

  /** Heights placed from a maximum time give back every branch length as a height difference. */
  lemma {:induction false} ReparsedPlaced(t: TreeNode, offset: real, maxTime: real,
                                          parentHeight: Option<real>, origin: Option<real>)
    requires TimedFrom(t, offset)
    requires EdgeLength(maxTime - t.time, parentHeight, origin) == t.branchLength
    ensures Reparsed(SetHeights(t, maxTime), parentHeight, origin) == Strip(t)
    decreases t, 1
  {
    ReparsedPlacedList(t.children, t.time, maxTime);
  }

  lemma {:induction false} ReparsedPlacedList(cs: seq<TreeNode>, offset: real, maxTime: real)
    requires TimedFromList(cs, offset)
    ensures ReparsedList(SetHeightsList(cs, maxTime), maxTime - offset) == StripList(cs)
    decreases cs, 0
  {
    if cs != [] {
      var hs := SetHeightsList(cs, maxTime);
      assert hs[0] == SetHeights(cs[0], maxTime) && hs[1..] == SetHeightsList(cs[1..], maxTime);
      ReparsedPlaced(cs[0], offset, maxTime, Some(maxTime - offset), None);
      ReparsedPlacedList(cs[1..], offset, maxTime);
    }
  }

  /**
   * The printed form of a printable tree lexes, and ruleN reads it back as the
   * tree with every length recomputed from the heights, followed by ';'.
   */
  lemma ReprReads(tree: Tree, fmt: real -> string, parseFloat: string -> Option<real>) returns (ts: seq<Token>, e: nat)
    requires Printable(tree.root) && (forall x :: BareWord(fmt(x))) && EdgesReadBack(tree.root, None, Some(tree.origin), fmt, parseFloat)
    ensures Lex(Repr(tree, fmt)) == Ok(ts) && WellFormed(ts)
    ensures ParseN(ts, 0, parseFloat) == Ok((Reparsed(tree.root, None, Some(tree.origin)), e))
    ensures e < |ts| && ts[e].kind == Semi
  {
    var np := NodePieces(tree.root, None, Some(tree.origin), fmt);
    var ps := np + [Sym(Semi)];
    NodeText(tree.root, None, Some(tree.origin), fmt);
    TextAppend(np, [Sym(Semi)]);
    TextOne(Sym(Semi));
    assert Text(ps) == Repr(tree, fmt);
    NodeGood(tree.root, None, Some(tree.origin), fmt);
    GoodSym(Semi);
    GoodJoin(np, [Sym(Semi)]);
    LexText(ps);
    ts := Tokens(ps);
    TokensCarryValues(Repr(tree, fmt), 0);
    TokensAtOwn(ps, [], 0);
    assert Tokens(ps) + [] == ts && ps[0..] == ps;
    TokensAtSplit(ts, 0, np, [Sym(Semi)]);
    e := |np|;
    TokensAtSym(ts, e, Semi);
    ParseNodeBack(ts, 0, tree.root, None, Some(tree.origin), fmt, parseFloat, e);
  }

  /** Once the text lexes and ruleN reads a node followed by ';', loading is the two passes on that node. */
  lemma LoadParsed(s: string, parseFloat: string -> Option<real>, ts: seq<Token>, root: Node, e: nat)
    requires Lex(s) == Ok(ts) && WellFormed(ts)
    requires ParseN(ts, 0, parseFloat) == Ok((root, e)) && e < |ts| && ts[e].kind == Semi
    ensures Load(s, parseFloat) == TimesAndHeights(root)
  {
    assert Accept(ts, e, Semi, true) == Ok((true, e + 1));
  }

  /**
   * Loading the printed form of a loaded tree gives the same tree back, when its
   * labels and annotations are printable and numbers are printed so that they
   * read back exactly.
   */
  lemma RoundTrip(s: string, fmt: real -> string, parseFloat: string -> Option<real>)
    requires Load(s, parseFloat).Ok?
    requires Printable(Load(s, parseFloat).value.root) && forall x :: BareWord(fmt(x))
    requires EdgesReadBack(Load(s, parseFloat).value.root, None, Some(Load(s, parseFloat).value.origin), fmt, parseFloat)
    ensures Load(Repr(Load(s, parseFloat).value, fmt), parseFloat) == Load(s, parseFloat)
  {
    var tree := Load(s, parseFloat).value;
    var ts0 := Lex(s).value;
    TokensCarryValues(s, 0);
    var (root0, e0) := ParseN(ts0, 0, parseFloat).value;
    assert Accept(ts0, e0, Semi, true).Ok?;
    LoadParsed(s, parseFloat, ts0, root0, e0);
    ComputeTimesMeaning(root0, 0.0);
    var timed := ComputeTimes(root0, 0.0).value;
    var maxTime := MaxTimeOf(AllNodes(timed));
    assert tree.root == SetHeights(timed, maxTime);
    ReparsedPlaced(timed, 0.0, maxTime, None, Some(tree.origin));
    var ts, e := ReprReads(tree, fmt, parseFloat);
    LoadParsed(Repr(tree, fmt), parseFloat, ts, root0, e);
  }
}
