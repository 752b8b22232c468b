/**
 * The lexer of the Newick reader in debugging/Tree.py: at each position of
 * the input the first of eleven patterns, in a fixed order, that matches a
 * prefix of the rest of the input gives the next token.
 */
module NewickLexer {
  import opened Wrappers

  datatype Kind = LParen | RParen | Colon | Str | OpenA | Equals | CloseA | Comma | Semi

  /** A token and its value: the text of a STRING token, None for every other kind. */
  datatype Token = Token(kind: Kind, value: Option<string>)

  /** The error Tree.ParseError raised when no pattern matches. */
  datatype LexError = UnrecognizedCharacter(position: nat, character: char)

  /** The characters of the bare-label class [a-zA-Z0-9_.-]. */
  predicate IsLabelChar(c: char)
  {
    ('a' <= c <= 'z') || ('A' <= c <= 'Z') || ('0' <= c <= '9') || c == '_' || c == '.' || c == '-'
  }

  /** The characters at which some pattern can start matching. */
  predicate IsStartChar(c: char)
  {
    c == '(' || c == ')' || c == ':' || c == '"' || c == '\'' || IsLabelChar(c)
    || c == '[' || c == '=' || c == ']' || c == ',' || c == ';'
  }

  /** The patterns of the token list, one constructor per entry. */
  datatype Pattern =
    | LParenP        // \(
    | RParenP        // \)
    | ColonP         // :
    | DoubleQuotedP  // "[^"]*"
    | SingleQuotedP  // '[^']*'
    | BareP          // [a-zA-Z0-9_.-]+
    | OpenAP         // \[&
    | EqualsP        // =
    | CloseAP        // \]
    | CommaP         // ,
    | SemiP          // ;

  const Patterns: seq<Pattern> :=
    [LParenP, RParenP, ColonP, DoubleQuotedP, SingleQuotedP, BareP, OpenAP, EqualsP, CloseAP, CommaP, SemiP]

  function KindOf(p: Pattern): Kind
  {
    match p
    case LParenP => LParen
    case RParenP => RParen
    case ColonP => Colon
    case DoubleQuotedP => Str
    case SingleQuotedP => Str
    case BareP => Str
    case OpenAP => OpenA
    case EqualsP => Equals
    case CloseAP => CloseA
    case CommaP => Comma
    case SemiP => Semi
  }

  /** Number of bare-label characters in `s` from index `i` on, up to the first other character. */
  function LabelRun(s: string, i: nat): (n: nat)
    requires i <= |s|
    ensures i + n <= |s|
    decreases |s| - i
  {
    if i == |s| || !IsLabelChar(s[i]) then 0 else 1 + LabelRun(s, i + 1)
  }

  /** The index of the first `q` in `s` at or after `i`, if there is one. */
  function NextQuote(s: string, i: nat, q: char): (r: Option<nat>)
    requires i <= |s|
    ensures r.Some? ==> i <= r.value < |s|
    decreases |s| - i
  {
    if i == |s| then None
    else if s[i] == q then Some(i)
    else NextQuote(s, i + 1, q)
  }

  /** Length of a match of q[^q]*q starting at index `i`, 0 if there is none. */
  function QuotedRun(s: string, i: nat, q: char): (n: nat)
    requires i <= |s|
    ensures i + n <= |s|
  {
    if i == |s| || s[i] != q then 0
    else
      match NextQuote(s, i + 1, q)
      case None => 0
      case Some(j) => j + 1 - i
  }

  function CharRun(s: string, i: nat, c: char): (n: nat)
    requires i <= |s|
    ensures i + n <= |s|
  {
    if i < |s| && s[i] == c then 1 else 0
  }

  /** Length of the match of `p` (re.match) at index `i`, 0 when it does not match. */
  function MatchLength(p: Pattern, s: string, i: nat): (n: nat)
    requires i <= |s|
    ensures i + n <= |s|
  {
    match p
    case LParenP => CharRun(s, i, '(')
    case RParenP => CharRun(s, i, ')')
    case ColonP => CharRun(s, i, ':')
    case DoubleQuotedP => QuotedRun(s, i, '"')
    case SingleQuotedP => QuotedRun(s, i, '\'')
    case BareP => LabelRun(s, i)
    case OpenAP => if i + 1 < |s| && s[i] == '[' && s[i + 1] == '&' then 2 else 0
    case EqualsP => CharRun(s, i, '=')
    case CloseAP => CharRun(s, i, ']')
    case CommaP => CharRun(s, i, ',')
    case SemiP => CharRun(s, i, ';')
  }

  /** The first pattern at place k or later of the token list that matches at index `i`, with its length. */
  function FirstMatchFrom(s: string, i: nat, k: nat): (r: Option<(Pattern, nat)>)
    requires i <= |s| && k <= |Patterns|
    ensures r.Some? ==> 0 < r.value.1 == MatchLength(r.value.0, s, i)
    decreases |Patterns| - k
  {
    if k == |Patterns| then None
    else
      var n := MatchLength(Patterns[k], s, i);
      if n > 0 then Some((Patterns[k], n)) else FirstMatchFrom(s, i, k + 1)
  }

  /** The value stored for a STRING lexeme: matching quotes are stripped only from lexemes longer than 2. */
  function StringValue(lexeme: string): string
  {
    if |lexeme| > 2 then
      if lexeme[0] == '"' && lexeme[|lexeme| - 1] == '"' then lexeme[1..|lexeme| - 1]
      else if lexeme[0] == '\'' && lexeme[|lexeme| - 1] == '\'' then lexeme[1..|lexeme| - 1]
      else lexeme
    else lexeme
  }

  function MakeToken(p: Pattern, lexeme: string): Token
  {
    if KindOf(p) == Str then Token(Str, Some(StringValue(lexeme))) else Token(KindOf(p), None)
  }

  /** The tokens of `s` from index `i` on, or the error for the first position where nothing matches. */
  function LexFrom(s: string, i: nat): (r: Result<seq<Token>, LexError>)
    requires i <= |s|
    ensures r.Err? ==> i <= r.error.position < |s| && s[r.error.position] == r.error.character
    decreases |s| - i
  {
    if i == |s| then Ok([])
    else
      match FirstMatchFrom(s, i, 0)
      case None => Err(UnrecognizedCharacter(i, s[i]))
      case Some(m) =>
        var rest := LexFrom(s, i + m.1);
        if rest.Err? then rest
        else Ok([MakeToken(m.0, s[i..i + m.1])] + rest.value)
  }

  /** The token list built by the while loop of loadFromString. */
  function Lex(s: string): Result<seq<Token>, LexError>
  {
    LexFrom(s, 0)
  }

  function Prepend(ts: seq<Token>, r: Result<seq<Token>, LexError>): Result<seq<Token>, LexError>
  {
    if r.Ok? then Ok(ts + r.value) else r
  }

  /** The inner loop of the lexer: try the patterns in list order at index `idx`, stopping at the first match. */
  method MatchAt(s: string, idx: nat) returns (m: Option<(Pattern, nat)>)
    requires idx <= |s|
    ensures m == FirstMatchFrom(s, idx, 0)
  {
    var k := 0;
    while k < |Patterns|
      invariant k <= |Patterns|
      invariant FirstMatchFrom(s, idx, 0) == FirstMatchFrom(s, idx, k)
      decreases |Patterns| - k
    {
      var n := MatchLength(Patterns[k], s, idx);
      if n > 0 {
        return Some((Patterns[k], n));
      }
      k := k + 1;
    }
    return None;
  }

  /** The lexer loop of loadFromString. */
  method Tokenize(s: string) returns (r: Result<seq<Token>, LexError>)
    ensures r == Lex(s)
  {
    var idx := 0;
    var tokenList: seq<Token> := [];
    assert Lex(s).Ok? ==> [] + Lex(s).value == Lex(s).value;
    while idx < |s|
      invariant idx <= |s|
      invariant Lex(s) == Prepend(tokenList, LexFrom(s, idx))
      decreases |s| - idx
    {
      var m := MatchAt(s, idx);
      if m.None? {
        return Err(UnrecognizedCharacter(idx, s[idx]));
      }
      var tok := MakeToken(m.value.0, s[idx..idx + m.value.1]);
      ghost var rest := LexFrom(s, idx + m.value.1);
      LexFromStep(s, idx);
      assert rest.Ok? ==> tokenList + ([tok] + rest.value) == (tokenList + [tok]) + rest.value;
      tokenList := tokenList + [tok];
      idx := idx + m.value.1;
    }
    assert tokenList + [] == tokenList;
    return Ok(tokenList);
  }

  // ---------------------------------------------------------------------
  // Where patterns can start

  /** The characters at which each pattern can start. */
  predicate Opens(p: Pattern, c: char)
  {
    match p
    case LParenP => c == '('
    case RParenP => c == ')'
    case ColonP => c == ':'
    case DoubleQuotedP => c == '"'
    case SingleQuotedP => c == '\''
    case BareP => IsLabelChar(c)
    case OpenAP => c == '['
    case EqualsP => c == '='
    case CloseAP => c == ']'
    case CommaP => c == ','
    case SemiP => c == ';'
  }

  /** The pattern whose first character is `c`, if any. */
  function Opener(c: char): (r: Option<Pattern>)
    ensures r.Some? ==> Opens(r.value, c)
    ensures r.None? <==> !IsStartChar(c)
  {
    if c == '(' then Some(LParenP)
    else if c == ')' then Some(RParenP)
    else if c == ':' then Some(ColonP)
    else if c == '"' then Some(DoubleQuotedP)
    else if c == '\'' then Some(SingleQuotedP)
    else if IsLabelChar(c) then Some(BareP)
    else if c == '[' then Some(OpenAP)
    else if c == '=' then Some(EqualsP)
    else if c == ']' then Some(CloseAP)
    else if c == ',' then Some(CommaP)
    else if c == ';' then Some(SemiP)
    else None
  }

  lemma MatchOpens(p: Pattern, s: string, i: nat)
    requires i <= |s| && MatchLength(p, s, i) > 0
    ensures i < |s| && Opens(p, s[i])
  {
  }

  /** No character opens two patterns, so Opener names the only one. */
  lemma OpenerUnique(p: Pattern, c: char)
    requires Opens(p, c)
    ensures Opener(c) == Some(p)
  {
  }

  /** The match at index `i` found through the character there: the only pattern that can match. */
  function MatchByOpener(s: string, i: nat): (r: Option<(Pattern, nat)>)
    requires i <= |s|
  {
    if i == |s| then None
    else
      match Opener(s[i])
      case None => None
      case Some(p) => if MatchLength(p, s, i) > 0 then Some((p, MatchLength(p, s, i))) else None
  }

  /** When only the pattern at place j matches, the scan from any k <= j finds it. */
  lemma {:induction false} ScanFindsOnly(s: string, i: nat, k: nat, j: nat)
    requires i <= |s| && k <= j < |Patterns|
    requires MatchLength(Patterns[j], s, i) > 0
    requires forall l :: 0 <= l < |Patterns| && l != j ==> MatchLength(Patterns[l], s, i) == 0
    ensures FirstMatchFrom(s, i, k) == Some((Patterns[j], MatchLength(Patterns[j], s, i)))
    decreases j - k
  {
    if k < j {
      ScanFindsOnly(s, i, k + 1, j);
    }
  }

  /** When no pattern matches, the scan finds nothing. */
  lemma {:induction false} ScanFindsNone(s: string, i: nat, k: nat)
    requires i <= |s| && k <= |Patterns|
    requires forall l :: 0 <= l < |Patterns| ==> MatchLength(Patterns[l], s, i) == 0
    ensures FirstMatchFrom(s, i, k) == None
    decreases |Patterns| - k
  {
    if k < |Patterns| {
      ScanFindsNone(s, i, k + 1);
    }
  }

  /** The place of every pattern in the token list. */
  lemma PatternIndex(p: Pattern) returns (j: nat)
    ensures j < |Patterns| && Patterns[j] == p
  {
    match p
    case LParenP => j := 0;
    case RParenP => j := 1;
    case ColonP => j := 2;
    case DoubleQuotedP => j := 3;
    case SingleQuotedP => j := 4;
    case BareP => j := 5;
    case OpenAP => j := 6;
    case EqualsP => j := 7;
    case CloseAP => j := 8;
    case CommaP => j := 9;
    case SemiP => j := 10;
  }

  /**
   * Taking the first pattern in list order that matches is the same as
   * taking the one pattern the current character can start: the order of
   * the list never decides between two matches.
   */
  lemma ScanIsOpenerMatch(s: string, i: nat)
    requires i <= |s|
    ensures FirstMatchFrom(s, i, 0) == MatchByOpener(s, i)
  {
    var m := MatchByOpener(s, i);
    if m.Some? {
      var j := PatternIndex(m.value.0);
      forall l | 0 <= l < |Patterns| && l != j ensures MatchLength(Patterns[l], s, i) == 0 {
        if MatchLength(Patterns[l], s, i) > 0 {
          MatchOpens(Patterns[l], s, i);
          OpenerUnique(Patterns[l], s[i]);
        }
      }
      ScanFindsOnly(s, i, 0, j);
    } else {
      forall l | 0 <= l < |Patterns| ensures MatchLength(Patterns[l], s, i) == 0 {
        if MatchLength(Patterns[l], s, i) > 0 {
          MatchOpens(Patterns[l], s, i);
          OpenerUnique(Patterns[l], s[i]);
        }
      }
      ScanFindsNone(s, i, 0);
    }
  }

  // ---------------------------------------------------------------------
  // Extending the input

  /** `s` extends `p`, and the character after `p` in `s` (if any) cannot continue a bare label. */
  predicate ExtendsAtBoundary(p: string, s: string)
  {
    |p| <= |s| && s[..|p|] == p && (|p| == |s| || !IsLabelChar(s[|p|]))
  }

  lemma {:induction false} LabelRunExtend(p: string, s: string, i: nat)
    requires i <= |p| && ExtendsAtBoundary(p, s)
    ensures LabelRun(s, i) == LabelRun(p, i)
    decreases |p| - i
  {
    if i < |p| {
      assert s[i] == p[i];
      if IsLabelChar(p[i]) {
        LabelRunExtend(p, s, i + 1);
      }
    }
  }

  lemma {:induction false} NextQuoteExtend(p: string, s: string, i: nat, q: char)
    requires i <= |p| <= |s| && s[..|p|] == p
    requires NextQuote(p, i, q).Some?
    ensures NextQuote(s, i, q) == NextQuote(p, i, q)
    decreases |p| - i
  {
    assert s[i] == p[i];
    if p[i] != q {
      NextQuoteExtend(p, s, i + 1, q);
    }
  }

  /** A match inside `p` is the same match inside any extension of `p` at a boundary. */
  lemma MatchLengthExtend(pat: Pattern, p: string, s: string, i: nat)
    requires i <= |p| && ExtendsAtBoundary(p, s)
    requires MatchLength(pat, p, i) > 0
    ensures MatchLength(pat, s, i) == MatchLength(pat, p, i)
  {
    assert s[i] == p[i];
    match pat
    case DoubleQuotedP => NextQuoteExtend(p, s, i + 1, '"');
    case SingleQuotedP => NextQuoteExtend(p, s, i + 1, '\'');
    case BareP => LabelRunExtend(p, s, i);
    case OpenAP => assert s[i + 1] == p[i + 1];
    case _ =>
  }

  lemma FirstMatchExtend(p: string, s: string, i: nat)
    requires i <= |p| && ExtendsAtBoundary(p, s)
    requires FirstMatchFrom(p, i, 0).Some?
    ensures FirstMatchFrom(s, i, 0) == FirstMatchFrom(p, i, 0)
  {
    ScanIsOpenerMatch(p, i);
    ScanIsOpenerMatch(s, i);
    var pat := FirstMatchFrom(p, i, 0).value.0;
    assert s[i] == p[i];
    MatchLengthExtend(pat, p, s, i);
  }

  /** One step of the lexer: the token of the first match, then the rest. */
  lemma LexFromStep(s: string, i: nat)
    requires i < |s| && FirstMatchFrom(s, i, 0).Some?
    ensures var m := FirstMatchFrom(s, i, 0).value;
      LexFrom(s, i) == Prepend([MakeToken(m.0, s[i..i + m.1])], LexFrom(s, i + m.1))
  {
  }

  lemma SliceOfPrefix(p: string, s: string, i: nat, j: nat)
    requires i <= j <= |p| <= |s| && s[..|p|] == p
    ensures s[i..j] == p[i..j]
  {
    forall k | 0 <= k < j - i ensures s[i..j][k] == p[i..j][k] {
      assert s[i + k] == s[..|p|][i + k];
    }
  }

  /**
   * Lexing an extension of `p` at a boundary goes through the tokens of `p`
   * and then carries on at the end of `p`.
   */
  lemma {:induction false} LexExtend(p: string, s: string, i: nat)
    requires i <= |p| && ExtendsAtBoundary(p, s)
    requires LexFrom(p, i).Ok?
    ensures LexFrom(s, i) == Prepend(LexFrom(p, i).value, LexFrom(s, |p|))
    decreases |p| - i
  {
    if i == |p| {
      assert LexFrom(p, i).value == [];
      assert LexFrom(s, i).Ok? ==> [] + LexFrom(s, i).value == LexFrom(s, i).value;
    } else {
      var m := FirstMatchFrom(p, i, 0).value;
      FirstMatchExtend(p, s, i);
      SliceOfPrefix(p, s, i, i + m.1);
      LexFromStep(p, i);
      LexFromStep(s, i);
      var tok := MakeToken(m.0, p[i..i + m.1]);
      LexExtend(p, s, i + m.1);
      var rest := LexFrom(p, i + m.1).value;
      var tail := LexFrom(s, |p|);
      assert tail.Ok? ==> [tok] + (rest + tail.value) == ([tok] + rest) + tail.value;
    }
  }

  // ---------------------------------------------------------------------
  // Properties of the lexer

  /**
   * The lexer stops at the first token boundary where no token can start:
   * when the text before index `j` lexes and the character at `j` starts no
   * pattern (a blank, say), ParseError reports exactly that position and
   * character, whatever follows.
   */
  lemma LexRejectsAt(s: string, j: nat)
    requires j < |s| && Lex(s[..j]).Ok?
    requires !IsStartChar(s[j])
    ensures Lex(s) == Err(UnrecognizedCharacter(j, s[j]))
  {
    var p := s[..j];
    assert ExtendsAtBoundary(p, s);
    LexExtend(p, s, 0);
    ScanIsOpenerMatch(s, j);
  }

  /** Whitespace between tokens is rejected. */
  lemma LexRejectsBlank(p: string, q: string)
    requires Lex(p).Ok?
    ensures Lex(p + " " + q) == Err(UnrecognizedCharacter(|p|, ' '))
  {
    var s := p + " " + q;
    assert s[..|p|] == p;
    LexRejectsAt(s, |p|);
  }

  /** An error is reported at a position where no pattern matches, after a prefix that lexes. */
  lemma {:induction false} LexErrorIsFirstFailure(s: string, i: nat)
    requires i <= |s| && LexFrom(s, i).Err?
    ensures FirstMatchFrom(s, LexFrom(s, i).error.position, 0).None?
    decreases |s| - i
  {
    var m := FirstMatchFrom(s, i, 0);
    if m.Some? {
      LexErrorIsFirstFailure(s, i + m.value.1);
    }
  }

  /** Only STRING tokens carry a value. */
  lemma {:induction false} TokensCarryValues(s: string, i: nat)
    requires i <= |s| && LexFrom(s, i).Ok?
    ensures forall t | t in LexFrom(s, i).value :: t.value.Some? <==> t.kind == Str
    decreases |s| - i
  {
    if i < |s| {
      var m := FirstMatchFrom(s, i, 0).value;
      TokensCarryValues(s, i + m.1);
    }
  }

  /** Quotes are stripped from a quoted lexeme longer than 2; other lexemes are kept verbatim. */
  lemma StringValueStrips(lexeme: string)
    ensures |lexeme| > 2 && lexeme[0] == '"' && lexeme[|lexeme| - 1] == '"' ==> StringValue(lexeme) == lexeme[1..|lexeme| - 1]
    ensures |lexeme| > 2 && lexeme[0] == '\'' && lexeme[|lexeme| - 1] == '\'' ==> StringValue(lexeme) == lexeme[1..|lexeme| - 1]
    ensures |lexeme| <= 2 ==> StringValue(lexeme) == lexeme
    ensures lexeme != [] && lexeme[0] != '"' && lexeme[0] != '\'' ==> StringValue(lexeme) == lexeme
  {
  }
}
