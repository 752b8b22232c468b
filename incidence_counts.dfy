/**
 * The older incidence data class: pairs of an age and a count, given as a
 * string or read from a file, parsed into two arrays of the same length.
 */
module UtilIncidenceData {
  import opened Wrappers
  import opened Text

  /** The exceptions initAndValidate can end with. */
  datatype IncidenceError =
    | MissingInput            // IllegalArgumentException: no string was built
    | OddTokenCount           // IllegalArgumentException: the tokens do not form pairs
    | BadNumber(text: string) // NumberFormatException

  /** What Java's string concatenation writes for a null reference. */
  const NullText: string := "null"

  // ---------------------------------------------------------------------
  // The text

  /** `string += " " + nextLine`, with a null string written as "null". */
  function Appended(s: Option<string>, line: string): string
  {
    (if s.None? then NullText else s.value) + " " + line
  }

  /** The reading loop, from the string `s` (None is null), over the lines left to read. */
  function Accumulate(s: Option<string>, lines: seq<string>): Option<string>
    decreases lines
  {
    if lines == [] then s else Accumulate(Some(Appended(s, lines[0])), lines[1..])
  }

  /** The lines after the header line, which is read and dropped when the file has one. */
  function AfterHeader(lines: seq<string>, hasHeader: bool): seq<string>
  {
    if hasHeader && lines != [] then lines[1..] else lines
  }

  /** From a string, the loop appends each line after a space. */
  lemma {:induction false} AccumulateMeaning(prefix: string, lines: seq<string>)
    ensures Accumulate(Some(prefix), lines) == Some(prefix + SpaceJoined(lines))
    decreases lines
  {
    if lines != [] {
      var next := prefix + " " + lines[0];
      AccumulateMeaning(next, lines[1..]);
      assert SpaceJoined(lines) == " " + lines[0] + SpaceJoined(lines[1..]);
      assert next + SpaceJoined(lines[1..]) == prefix + SpaceJoined(lines);
    } else {
      assert prefix + SpaceJoined(lines) == prefix;
    }
  }

  /** From null, the loop leaves null when there is no line, and otherwise starts the string with "null". */
  lemma AccumulateFromNull(lines: seq<string>)
    ensures lines == [] ==> Accumulate(None, lines) == None
    ensures lines != [] ==> Accumulate(None, lines) == Some(NullText + SpaceJoined(lines))
  {
    if lines != [] {
      assert Accumulate(None, lines) == Accumulate(Some(NullText), lines);
      AccumulateMeaning(NullText, lines);
    }
  }

  /** The string as written: the value, or the file's lines appended to a string that starts as null. */
  function SourceTextAsWritten(value: Option<string>, file: Option<seq<string>>, hasHeader: bool): Option<string>
  {
    if value.Some? then value
    else if file.Some? then Accumulate(None, AfterHeader(file.value, hasHeader))
    else None
  }

  /** The string as intended: the file's lines appended to an empty string. */
  function SourceText(value: Option<string>, file: Option<seq<string>>, hasHeader: bool): Option<string>
  {
    if value.Some? then value
    else if file.Some? then Accumulate(Some(""), AfterHeader(file.value, hasHeader))
    else None
  }

  /** The intended string from a file is its lines after the header, each after a space. */
  lemma SourceTextMeaning(file: seq<string>, hasHeader: bool)
    ensures SourceText(None, Some(file), hasHeader) == Some(SpaceJoined(AfterHeader(file, hasHeader)))
  {
    AccumulateMeaning("", AfterHeader(file, hasHeader));
    assert "" + SpaceJoined(AfterHeader(file, hasHeader)) == SpaceJoined(AfterHeader(file, hasHeader));
  }

  // ---------------------------------------------------------------------
  // The pairs

  /** The first pair, from pair `i` on, whose age or count does not parse; the number of pairs if none. */
  function FirstBad(tokens: seq<string>, i: nat, parseDouble: string -> Option<real>, parseInt: string -> Option<int>): (k: nat)
    requires i <= |tokens| / 2
    ensures i <= k <= |tokens| / 2
    decreases |tokens| / 2 - i
  {
    if i == |tokens| / 2 then i
    else if parseDouble(tokens[2 * i]).None? || parseInt(tokens[2 * i + 1]).None? then i
    else FirstBad(tokens, i + 1, parseDouble, parseInt)
  }

  /** The search stops at the first pair that does not parse. */
  lemma {:induction false} FirstBadMeaning(tokens: seq<string>, i: nat, parseDouble: string -> Option<real>,
                                           parseInt: string -> Option<int>)
    requires i <= |tokens| / 2
    ensures var k := FirstBad(tokens, i, parseDouble, parseInt);
            && i <= k <= |tokens| / 2
            && (forall j :: i <= j < k ==> parseDouble(tokens[2 * j]).Some? && parseInt(tokens[2 * j + 1]).Some?)
            && (k < |tokens| / 2 ==> parseDouble(tokens[2 * k]).None? || parseInt(tokens[2 * k + 1]).None?)
    decreases |tokens| / 2 - i
  {
    if i < |tokens| / 2 && parseDouble(tokens[2 * i]).Some? && parseInt(tokens[2 * i + 1]).Some? {
      FirstBadMeaning(tokens, i + 1, parseDouble, parseInt);
    }
  }

  /** The number of pairs initAndValidate reads from the tokens, or the exception it throws. */
  function CheckTokens(tokens: seq<string>, parseDouble: string -> Option<real>, parseInt: string -> Option<int>): Result<nat, IncidenceError>
  {
    if |tokens| % 2 != 0 then Err(OddTokenCount)
    else
      var k := FirstBad(tokens, 0, parseDouble, parseInt);
      if k == |tokens| / 2 then Ok(k)
      else if parseDouble(tokens[2 * k]).None? then Err(BadNumber(tokens[2 * k]))
      else Err(BadNumber(tokens[2 * k + 1]))
  }

  /** The number of pairs initAndValidate reads from the string, or the exception it throws. */
  function Check(text: Option<string>, parseDouble: string -> Option<real>, parseInt: string -> Option<int>): Result<nat, IncidenceError>
  {
    if text.None? then Err(MissingInput) else CheckTokens(JavaTrimSplitSpaces(text.value), parseDouble, parseInt)
  }

  /**
   * The check succeeds exactly when the tokens pair up and every age and
   * count parses; a failure names the first token that does not parse.
   */
  lemma CheckTokensMeaning(tokens: seq<string>, parseDouble: string -> Option<real>, parseInt: string -> Option<int>)
    ensures CheckTokens(tokens, parseDouble, parseInt).Ok? <==>
              |tokens| % 2 == 0 && forall j :: 0 <= j < |tokens| / 2 ==>
                parseDouble(tokens[2 * j]).Some? && parseInt(tokens[2 * j + 1]).Some?
    ensures CheckTokens(tokens, parseDouble, parseInt).Ok? ==> CheckTokens(tokens, parseDouble, parseInt).value == |tokens| / 2
    ensures CheckTokens(tokens, parseDouble, parseInt) == Err(OddTokenCount) <==> |tokens| % 2 != 0
  {
    if |tokens| % 2 == 0 {
      FirstBadMeaning(tokens, 0, parseDouble, parseInt);
    }
  }

  /** After trimming and splitting, a string that starts with "null" and then a space or nothing has "null" as its first token. */
  lemma NullFirstToken(t: string)
    requires t == [] || t[0] == ' '
    ensures JavaTrimSplitSpaces(NullText + t)[0] == NullText
  {
    assert NullText[0] == 'n' && NullText[1] == 'u' && NullText[2] == 'l' && NullText[3] == 'l';
    FirstWord(NullText, t);
  }

  /**
   * As written, a string read from a file that has any line after its
   * header starts with the token "null", so initAndValidate throws: the
   * token count is odd, or the first age does not parse.
   */
  lemma AsWrittenRejectsFiles(file: seq<string>, hasHeader: bool, parseDouble: string -> Option<real>,
                              parseInt: string -> Option<int>)
    requires AfterHeader(file, hasHeader) != []
    requires parseDouble(NullText).None?
    ensures Check(SourceTextAsWritten(None, Some(file), hasHeader), parseDouble, parseInt).Err?
  {
    var lines := AfterHeader(file, hasHeader);
    AccumulateFromNull(lines);
    var rest := SpaceJoined(lines);
    assert rest[0] == ' ';
    NullFirstToken(rest);
  }

  /** As written, a file with no line after its header leaves the string null. */
  lemma AsWrittenEmptyFile(file: seq<string>, hasHeader: bool, parseDouble: string -> Option<real>,
                           parseInt: string -> Option<int>)
    requires AfterHeader(file, hasHeader) == []
    ensures Check(SourceTextAsWritten(None, Some(file), hasHeader), parseDouble, parseInt) == Err(MissingInput)
  {
    AccumulateFromNull([]);
  }

  // ---------------------------------------------------------------------
  // The object

  class IncidenceData {
    var nCounts: int
    /** The ages and counts of the pairs; null until initialised. */
    var ages: array?<real>
    var counts: array?<int>

    constructor()
      ensures nCounts == 0 && ages == null && counts == null
    {
      nCounts := 0;
      ages := null;
      counts := null;
    }

    /** The reading loop: each line appended after a space to the string `s`, which may be null. */
    static method ReadLines(s: Option<string>, lines: seq<string>) returns (text: Option<string>)
      ensures text == Accumulate(s, lines)
    {
      text := s;
      var i := 0;
      while i < |lines|
        invariant 0 <= i <= |lines|
        invariant Accumulate(text, lines[i..]) == Accumulate(s, lines)
      {
        assert lines[i..][1..] == lines[i + 1..];
        text := Some(Appended(text, lines[i]));
        i := i + 1;
      }
    }

    /** initAndValidate as written: the string read from a file starts as null. */
    method InitAndValidateAsWritten(value: Option<string>, file: Option<seq<string>>, hasHeader: bool,
                                    parseDouble: string -> Option<real>, parseInt: string -> Option<int>)
      returns (r: Result<(), IncidenceError>)
      modifies this
      ensures Outcome(SourceTextAsWritten(value, file, hasHeader), parseDouble, parseInt, r)
    {
      var text: Option<string> := None;
      if value.Some? {
        text := value;
      } else if file.Some? {
        text := ReadLines(None, AfterHeader(file.value, hasHeader));
      }
      r := Parse(text, parseDouble, parseInt);
    }

    /** initAndValidate as intended: the string read from a file starts empty. */
    method InitAndValidate(value: Option<string>, file: Option<seq<string>>, hasHeader: bool,
                           parseDouble: string -> Option<real>, parseInt: string -> Option<int>)
      returns (r: Result<(), IncidenceError>)
      modifies this
      ensures Outcome(SourceText(value, file, hasHeader), parseDouble, parseInt, r)
    {
      var text: Option<string> := None;
      if value.Some? {
        text := value;
      } else if file.Some? {
        text := ReadLines(Some(""), AfterHeader(file.value, hasHeader));
      }
      r := Parse(text, parseDouble, parseInt);
    }

    /** The result agrees with Check, and when the tokens pair up the arrays hold the pairs parsed before the failure. */
    ghost predicate Outcome(text: Option<string>, parseDouble: string -> Option<real>, parseInt: string -> Option<int>,
                            r: Result<(), IncidenceError>)
      reads this, ages, counts
    {
      && (r.Ok? <==> Check(text, parseDouble, parseInt).Ok?)
      && (r.Err? ==> r.error == Check(text, parseDouble, parseInt).error)
      && (text.Some? && |JavaTrimSplitSpaces(text.value)| % 2 == 0 ==>
            var tokens := JavaTrimSplitSpaces(text.value);
            && nCounts == |tokens| / 2
            && ages != null && counts != null
            && Filled(tokens, ages[..], counts[..], parseDouble, parseInt))
    }

    /** Trim, split on white space, check the token count; then allocate and fill the arrays. */
    method Parse(text: Option<string>, parseDouble: string -> Option<real>, parseInt: string -> Option<int>)
      returns (r: Result<(), IncidenceError>)
      modifies this
      ensures Outcome(text, parseDouble, parseInt, r)
    {
      if text.None? {
        return Err(MissingInput);
      }
      var valueStrings := JavaTrimSplitSpaces(text.value);
      if |valueStrings| % 2 != 0 {
        return Err(OddTokenCount);
      }
      nCounts := |valueStrings| / 2;
      var a := new real[nCounts](_ => 0.0);
      var c := new int[nCounts](_ => 0);
      ages := a;
      counts := c;
      r := FillPairs(valueStrings, a, c, parseDouble, parseInt);
    }

    /** The loop over the pairs, which stops at the first age or count that does not parse. */
    static method FillPairs(tokens: seq<string>, a: array<real>, c: array<int>,
                            parseDouble: string -> Option<real>, parseInt: string -> Option<int>)
      returns (r: Result<(), IncidenceError>)
      requires |tokens| % 2 == 0 && a.Length == c.Length == |tokens| / 2
      requires forall j :: 0 <= j < a.Length ==> a[j] == 0.0 && c[j] == 0
      modifies a, c
      ensures Filled(tokens, a[..], c[..], parseDouble, parseInt)
      ensures r.Ok? <==> CheckTokens(tokens, parseDouble, parseInt).Ok?
      ensures r.Err? ==> r.error == CheckTokens(tokens, parseDouble, parseInt).error
    {
      FirstBadMeaning(tokens, 0, parseDouble, parseInt);
      var n := a.Length;
      var i := 0;
      while i < n
        invariant 0 <= i <= n && 2 * n == |tokens|
        invariant i <= FirstBad(tokens, 0, parseDouble, parseInt)
        invariant forall j :: 0 <= j < i ==> a[j] == parseDouble(tokens[2 * j]).value && c[j] == parseInt(tokens[2 * j + 1]).value
        invariant forall j :: i <= j < n ==> a[j] == 0.0 && c[j] == 0
      {
        var age := parseDouble(tokens[2 * i]);
        if age.None? {
          assert FirstBad(tokens, 0, parseDouble, parseInt) == i;
          return Err(BadNumber(tokens[2 * i]));
        }
        a[i] := age.value;
        var count := parseInt(tokens[2 * i + 1]);
        if count.None? {
          assert FirstBad(tokens, 0, parseDouble, parseInt) == i;
          return Err(BadNumber(tokens[2 * i + 1]));
        }
        c[i] := count.value;
        i := i + 1;
      }
      r := Ok(());
    }
  }

  /**
   * There is an age and a count per pair; every pair before the first bad
   * one has its age and count stored; the first bad one has its age stored
   * when that parses; every other entry keeps its zero.
   */
  ghost predicate Filled(tokens: seq<string>, ages: seq<real>, counts: seq<int>,
                         parseDouble: string -> Option<real>, parseInt: string -> Option<int>)
  {
    var n := |tokens| / 2;
    var k := FirstBad(tokens, 0, parseDouble, parseInt);
    && |ages| == n && |counts| == n
    && (forall j :: 0 <= j < k ==>
          && parseDouble(tokens[2 * j]).Some? && parseInt(tokens[2 * j + 1]).Some?
          && ages[j] == parseDouble(tokens[2 * j]).value && counts[j] == parseInt(tokens[2 * j + 1]).value)
    && (k < n ==> ages[k] == (if parseDouble(tokens[2 * k]).Some? then parseDouble(tokens[2 * k]).value else 0.0)
                  && counts[k] == 0)
    && (forall j :: k < j < n ==> ages[j] == 0.0 && counts[j] == 0)
  }
}
