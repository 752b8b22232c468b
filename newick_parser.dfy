/**
 * The recursive-descent parser of debugging/Tree.py. The grammar rules
 * ruleN/S/Q/L/A/C/D/B are specified by functions that thread the cursor
 * through the token list; the class ParseContext and the Rule methods
 * are the mutable-cursor implementation, each proved equal to its rule.
 */
module NewickParser {
  import opened Wrappers
  import opened NewickLexer

  /** Annotations in insertion order; a key occurs at most once. */
  type Annotations = seq<(string, string)>

  /** A parsed node: children in source order, optional label, annotations and branch length. */
  datatype Node = Node(children: seq<Node>, nodeLabel: Option<string>, annotations: Annotations, branchLength: Option<real>)

  datatype ParseFailure =
    | EndOfTokens(position: nat)                   // IndexError: tokenList[idx] past the end
    | MandatoryMismatch(position: nat, expected: Kind)  // the unqualified ParseError: a NameError
    | NotANumber(text: string)                     // float() raises ValueError

  /** Token lists made by the lexer: exactly the STRING tokens carry a value. */
  predicate WellFormed(ts: seq<Token>)
  {
    forall t | t in ts :: t.value.Some? <==> t.kind == Str
  }

  /** A result paired with the cursor position it leaves. */
  function WithIndex<T>(r: Result<T, ParseFailure>, i: nat): Result<(T, nat), ParseFailure>
  {
    if r.Ok? then Ok((r.value, i)) else Err(r.error)
  }

  /**
   * acceptToken: the token at the cursor is read without a bounds check;
   * on a match the cursor advances, otherwise an optional token gives false
   * and a mandatory one fails.
   */
  function Accept(ts: seq<Token>, i: nat, kind: Kind, mandatory: bool): (r: Result<(bool, nat), ParseFailure>)
    ensures r.Ok? ==> i < |ts| && (r.value.0 <==> ts[i].kind == kind)
    ensures r.Ok? && r.value.0 ==> r.value.1 == i + 1
    ensures r.Ok? && !r.value.0 ==> r.value.1 == i && !mandatory
    ensures r.Err? <==> i >= |ts| || (mandatory && ts[i].kind != kind)
  {
    if i >= |ts| then Err(EndOfTokens(i))
    else if ts[i].kind == kind then Ok((true, i + 1))
    else if !mandatory then Ok((false, i))
    else Err(MandatoryMismatch(i, kind))
  }

  /** getLastValue: the value before the cursor, with Python's wrap-around for index -1. */
  function LastValue(ts: seq<Token>, i: nat): (r: Result<Option<string>, ParseFailure>)
    ensures 0 < i <= |ts| ==> r == Ok(ts[i - 1].value)
    ensures i > |ts| || |ts| == 0 ==> r.Err?
  {
    if 0 < i <= |ts| then Ok(ts[i - 1].value)
    else if i == 0 && |ts| > 0 then Ok(ts[|ts| - 1].value)
    else Err(EndOfTokens(i))
  }

  /** The text of a STRING token. */
  function StringAt(ts: seq<Token>, i: nat): string
    requires WellFormed(ts) && i < |ts| && ts[i].kind == Str
  {
    assert ts[i] in ts;
    ts[i].value.value
  }

  /** node.annotations[key] = value: an existing key keeps its place and takes the new value. */
  function Put(ann: Annotations, key: string, value: string): (r: Annotations)
    ensures |r| == |ann| || |r| == |ann| + 1
  {
    if ann == [] then [(key, value)]
    else if ann[0].0 == key then [(key, value)] + ann[1..]
    else [ann[0]] + Put(ann[1..], key, value)
  }

  /** The value stored under `key`. */
  function Lookup(ann: Annotations, key: string): Option<string>
  {
    if ann == [] then None
    else if ann[0].0 == key then Some(ann[0].1)
    else Lookup(ann[1..], key)
  }

  function KeysOf(ann: Annotations): set<string>
  {
    if ann == [] then {} else {ann[0].0} + KeysOf(ann[1..])
  }

  /** No key occurs twice. */
  predicate DistinctKeys(ann: Annotations)
  {
    ann == [] || (ann[0].0 !in KeysOf(ann[1..]) && DistinctKeys(ann[1..]))
  }

  /** After a store, the key holds the new value and every other key keeps its value. */
  lemma {:induction false} PutLookup(ann: Annotations, key: string, value: string, other: string)
    ensures Lookup(Put(ann, key, value), key) == Some(value)
    ensures other != key ==> Lookup(Put(ann, key, value), other) == Lookup(ann, other)
  {
    if ann != [] && ann[0].0 != key {
      PutLookup(ann[1..], key, value, other);
    }
  }

  /** A key already present keeps its place: the length is unchanged exactly when the key was there. */
  lemma {:induction false} PutKeepsPlace(ann: Annotations, key: string, value: string)
    ensures Lookup(ann, key).Some? <==> |Put(ann, key, value)| == |ann|
    ensures forall i :: 0 <= i < |ann| && ann[i].0 != key ==> Put(ann, key, value)[i] == ann[i]
  {
    if ann != [] && ann[0].0 != key {
      PutKeepsPlace(ann[1..], key, value);
    }
  }

  lemma {:induction false} PutKeys(ann: Annotations, key: string, value: string)
    ensures KeysOf(Put(ann, key, value)) == KeysOf(ann) + {key}
  {
    if ann != [] && ann[0].0 != key {
      PutKeys(ann[1..], key, value);
    }
  }

  /** Storing keeps the keys distinct, so a later duplicate key overwrites instead of adding an entry. */
  lemma {:induction false} PutDistinct(ann: Annotations, key: string, value: string)
    requires DistinctKeys(ann)
    ensures DistinctKeys(Put(ann, key, value))
  {
    if ann != [] && ann[0].0 != key {
      PutDistinct(ann[1..], key, value);
      PutKeys(ann[1..], key, value);
    }
  }

  // ---------------------------------------------------------------------
  // The grammar, one function per rule; each returns its value and the new cursor.

  /** ruleN: a node is its children, then its label, its annotations and its branch length. */
  function ParseN(ts: seq<Token>, i: nat, parseFloat: string -> Option<real>): (r: Result<(Node, nat), ParseFailure>)
    requires WellFormed(ts) && i <= |ts|
    ensures r.Ok? ==> i <= r.value.1 <= |ts|
    decreases |ts| - i, 2
  {
    var s :- ParseS(ts, i, parseFloat);
    var l :- ParseL(ts, s.1);
    var a :- ParseA(ts, l.1);
    var b :- ParseB(ts, a.1, parseFloat);
    Ok((Node(s.0, l.0, a.0, b.0), b.1))
  }

  /** ruleS: an optional parenthesised, comma-separated list of children. */
  function ParseS(ts: seq<Token>, i: nat, parseFloat: string -> Option<real>): (r: Result<(seq<Node>, nat), ParseFailure>)
    requires WellFormed(ts) && i <= |ts|
    ensures r.Ok? ==> i <= r.value.1 <= |ts|
    decreases |ts| - i, 1
  {
    var lp :- Accept(ts, i, LParen, false);
    if !lp.0 then Ok(([], i))
    else
      var first :- ParseN(ts, i + 1, parseFloat);
      var more :- ParseQ(ts, first.1, parseFloat);
      var rp :- Accept(ts, more.1, RParen, true);
      Ok(([first.0] + more.0, rp.1))
  }

  /** ruleQ: further children, each after a comma. */
  function ParseQ(ts: seq<Token>, i: nat, parseFloat: string -> Option<real>): (r: Result<(seq<Node>, nat), ParseFailure>)
    requires WellFormed(ts) && i <= |ts|
    ensures r.Ok? ==> i <= r.value.1 <= |ts|
    decreases |ts| - i, 1
  {
    var c :- Accept(ts, i, Comma, false);
    if !c.0 then Ok(([], i))
    else
      var n :- ParseN(ts, i + 1, parseFloat);
      var more :- ParseQ(ts, n.1, parseFloat);
      Ok(([n.0] + more.0, more.1))
  }

  /** ruleL: an optional label. */
  function ParseL(ts: seq<Token>, i: nat): (r: Result<(Option<string>, nat), ParseFailure>)
    requires WellFormed(ts) && i <= |ts|
    ensures r.Ok? ==> i <= r.value.1 <= |ts|
  {
    var s :- Accept(ts, i, Str, false);
    if s.0 then Ok((Some(StringAt(ts, i)), i + 1)) else Ok((None, i))
  }

  /** ruleA: optional annotations [&k=v(,k=v)*] added to an empty dictionary. */
  function ParseA(ts: seq<Token>, i: nat): (r: Result<(Annotations, nat), ParseFailure>)
    requires WellFormed(ts) && i <= |ts|
    ensures r.Ok? ==> i <= r.value.1 <= |ts|
  {
    var o :- Accept(ts, i, OpenA, false);
    if !o.0 then Ok(([], i))
    else
      var c :- ParseC(ts, i + 1, []);
      var d :- ParseD(ts, c.1, c.0);
      var close :- Accept(ts, d.1, CloseA, true);
      Ok((d.0, close.1))
  }

  /** ruleC: one mandatory key = value pair, stored into `ann`. */
  function ParseC(ts: seq<Token>, i: nat, ann: Annotations): (r: Result<(Annotations, nat), ParseFailure>)
    requires WellFormed(ts) && i <= |ts|
    ensures r.Ok? ==> i + 3 == r.value.1 <= |ts|
  {
    var k :- Accept(ts, i, Str, true);
    var e :- Accept(ts, k.1, Equals, true);
    var v :- Accept(ts, e.1, Str, true);
    Ok((Put(ann, StringAt(ts, i), StringAt(ts, i + 2)), v.1))
  }

  /** ruleD: further pairs, each after a comma. */
  function ParseD(ts: seq<Token>, i: nat, ann: Annotations): (r: Result<(Annotations, nat), ParseFailure>)
    requires WellFormed(ts) && i <= |ts|
    ensures r.Ok? ==> i <= r.value.1 <= |ts|
    decreases |ts| - i
  {
    var c :- Accept(ts, i, Comma, false);
    if !c.0 then Ok((ann, i))
    else
      var a :- ParseC(ts, i + 1, ann);
      ParseD(ts, a.1, a.0)
  }

  /** ruleB: an optional ':' and a mandatory STRING read as a number by `parseFloat`. */
  function ParseB(ts: seq<Token>, i: nat, parseFloat: string -> Option<real>): (r: Result<(Option<real>, nat), ParseFailure>)
    requires WellFormed(ts) && i <= |ts|
    ensures r.Ok? ==> i <= r.value.1 <= |ts|
  {
    var c :- Accept(ts, i, Colon, false);
    if !c.0 then Ok((None, i))
    else
      var s :- Accept(ts, i + 1, Str, true);
      var text := StringAt(ts, i + 1);
      match parseFloat(text)
      case None => Err(NotANumber(text))
      case Some(x) => Ok((Some(x), s.1))
  }

  // ---------------------------------------------------------------------
  // The parser with a mutable cursor

  class ParseContext {
    const tokens: seq<Token>
    var idx: nat

    constructor (tokens: seq<Token>)
      ensures this.tokens == tokens && idx == 0
    {
      this.tokens := tokens;
      idx := 0;
    }

    method AcceptToken(kind: Kind, mandatory: bool) returns (r: Result<bool, ParseFailure>)
      modifies this
      ensures WithIndex(r, idx) == Accept(tokens, old(idx), kind, mandatory)
      ensures r.Err? || !r.value ==> idx == old(idx)
    {
      if idx >= |tokens| {
        return Err(EndOfTokens(idx));
      }
      if tokens[idx].kind == kind {
        idx := idx + 1;
        return Ok(true);
      }
      if !mandatory {
        return Ok(false);
      }
      return Err(MandatoryMismatch(idx, kind));
    }

    method GetLastValue() returns (r: Result<Option<string>, ParseFailure>)
      ensures r == LastValue(tokens, idx)
    {
      if 0 < idx <= |tokens| {
        return Ok(tokens[idx - 1].value);
      } else if idx == 0 && |tokens| > 0 {
        return Ok(tokens[|tokens| - 1].value);
      }
      return Err(EndOfTokens(idx));
    }
  }

  /** ruleN on the context. */
  method RuleN(ctx: ParseContext, parseFloat: string -> Option<real>) returns (r: Result<Node, ParseFailure>)
    requires WellFormed(ctx.tokens) && ctx.idx <= |ctx.tokens|
    modifies ctx
    ensures WithIndex(r, ctx.idx) == ParseN(ctx.tokens, old(ctx.idx), parseFloat)
    decreases |ctx.tokens| - ctx.idx, 2
  {
    var children :- RuleS(ctx, parseFloat);
    var nodeLabel :- RuleL(ctx);
    var annotations :- RuleA(ctx);
    var branchLength :- RuleB(ctx, parseFloat);
    return Ok(Node(children, nodeLabel, annotations, branchLength));
  }

  /** ruleS on the context. */
  method RuleS(ctx: ParseContext, parseFloat: string -> Option<real>) returns (r: Result<seq<Node>, ParseFailure>)
    requires WellFormed(ctx.tokens) && ctx.idx <= |ctx.tokens|
    modifies ctx
    ensures WithIndex(r, ctx.idx) == ParseS(ctx.tokens, old(ctx.idx), parseFloat)
    decreases |ctx.tokens| - ctx.idx, 1
  {
    var lp :- ctx.AcceptToken(LParen, false);
    if !lp {
      return Ok([]);
    }
    var first :- RuleN(ctx, parseFloat);
    var more :- RuleQ(ctx, parseFloat);
    var rp :- ctx.AcceptToken(RParen, true);
    return Ok([first] + more);
  }

  /** ruleQ on the context. */
  method RuleQ(ctx: ParseContext, parseFloat: string -> Option<real>) returns (r: Result<seq<Node>, ParseFailure>)
    requires WellFormed(ctx.tokens) && ctx.idx <= |ctx.tokens|
    modifies ctx
    ensures WithIndex(r, ctx.idx) == ParseQ(ctx.tokens, old(ctx.idx), parseFloat)
    decreases |ctx.tokens| - ctx.idx, 1
  {
    var c :- ctx.AcceptToken(Comma, false);
    if !c {
      return Ok([]);
    }
    var n :- RuleN(ctx, parseFloat);
    var more :- RuleQ(ctx, parseFloat);
    return Ok([n] + more);
  }

  /** ruleL on the context. */
  method RuleL(ctx: ParseContext) returns (r: Result<Option<string>, ParseFailure>)
    requires WellFormed(ctx.tokens) && ctx.idx <= |ctx.tokens|
    modifies ctx
    ensures WithIndex(r, ctx.idx) == ParseL(ctx.tokens, old(ctx.idx))
  {
    var s :- ctx.AcceptToken(Str, false);
    if !s {
      return Ok(None);
    }
    var v := ctx.GetLastValue();
    assert ctx.tokens[ctx.idx - 1] in ctx.tokens;
    return Ok(v.value);
  }

  /** ruleA on the context. */
  method RuleA(ctx: ParseContext) returns (r: Result<Annotations, ParseFailure>)
    requires WellFormed(ctx.tokens) && ctx.idx <= |ctx.tokens|
    modifies ctx
    ensures WithIndex(r, ctx.idx) == ParseA(ctx.tokens, old(ctx.idx))
  {
    var o :- ctx.AcceptToken(OpenA, false);
    if !o {
      return Ok([]);
    }
    var c :- RuleC(ctx, []);
    var d :- RuleD(ctx, c);
    var close :- ctx.AcceptToken(CloseA, true);
    return Ok(d);
  }

  /** ruleC on the context. */
  method RuleC(ctx: ParseContext, ann: Annotations) returns (r: Result<Annotations, ParseFailure>)
    requires WellFormed(ctx.tokens) && ctx.idx <= |ctx.tokens|
    modifies ctx
    ensures WithIndex(r, ctx.idx) == ParseC(ctx.tokens, old(ctx.idx), ann)
  {
    var k :- ctx.AcceptToken(Str, true);
    var key := ctx.GetLastValue();
    var e :- ctx.AcceptToken(Equals, true);
    var v :- ctx.AcceptToken(Str, true);
    var value := ctx.GetLastValue();
    assert ctx.tokens[ctx.idx - 3] in ctx.tokens && ctx.tokens[ctx.idx - 1] in ctx.tokens;
    return Ok(Put(ann, key.value.value, value.value.value));
  }

  /** ruleD on the context. */
  method RuleD(ctx: ParseContext, ann: Annotations) returns (r: Result<Annotations, ParseFailure>)
    requires WellFormed(ctx.tokens) && ctx.idx <= |ctx.tokens|
    modifies ctx
    ensures WithIndex(r, ctx.idx) == ParseD(ctx.tokens, old(ctx.idx), ann)
    decreases |ctx.tokens| - ctx.idx
  {
    var c :- ctx.AcceptToken(Comma, false);
    if !c {
      return Ok(ann);
    }
    var a :- RuleC(ctx, ann);
    r := RuleD(ctx, a);
  }

  /** ruleB on the context. */
  method RuleB(ctx: ParseContext, parseFloat: string -> Option<real>) returns (r: Result<Option<real>, ParseFailure>)
    requires WellFormed(ctx.tokens) && ctx.idx <= |ctx.tokens|
    modifies ctx
    ensures WithIndex(r, ctx.idx) == ParseB(ctx.tokens, old(ctx.idx), parseFloat)
  {
    var c :- ctx.AcceptToken(Colon, false);
    if !c {
      return Ok(None);
    }
    var s :- ctx.AcceptToken(Str, true);
    var v := ctx.GetLastValue();
    assert ctx.tokens[ctx.idx - 1] in ctx.tokens;
    var text := v.value.value;
    match parseFloat(text)
    case None => return Err(NotANumber(text));
    case Some(x) => return Ok(Some(x));
  }
}
