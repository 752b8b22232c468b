/**
 * Incidence data: pairs of a time (or a date) and a count of unsequenced
 * samples, given as a string or read from a file, turned into one age per
 * sample. Ages are measured back from the latest time, plus the offset of
 * the final sample, unless the values already are ages.
 */
module IncidenceData {
  import opened Wrappers
  import opened Text

  /** The exceptions initAndValidate can end with. */
  datatype IncidenceError =
    | MissingInput          // IllegalArgumentException: neither a value nor a file name
    | OddTokenCount         // IllegalArgumentException: the tokens do not form pairs
    | BadNumber(text: string) // NumberFormatException
    | BadDate(text: string)   // DateTimeParseException

  /** One (time, count) pair of the input. */
  datatype Pair = Pair(time: real, count: int)

  // ---------------------------------------------------------------------
  // The text

  /**
   * The file's lines as the reading loop appends them: comment lines are
   * skipped, the first other line is dropped while `isHeader` holds, and
   * every other line is appended after a space.
   */
  function Gather(lines: seq<string>, isHeader: bool): string
  {
    if lines == [] then ""
    else if StartsWith(lines[0], "#") then Gather(lines[1..], isHeader)
    else if isHeader then Gather(lines[1..], false)
    else " " + lines[0] + Gather(lines[1..], isHeader)
  }

  /** The lines that are not comments. */
  function NonComment(lines: seq<string>): (r: seq<string>)
    ensures forall k :: 0 <= k < |r| ==> !StartsWith(r[k], "#")
  {
    if lines == [] then []
    else if StartsWith(lines[0], "#") then NonComment(lines[1..])
    else [lines[0]] + NonComment(lines[1..])
  }

  /** The lines that carry data: the non-comment lines, less the first when the file has a header. */
  function DataLines(lines: seq<string>, hasHeader: bool): seq<string>
  {
    var nc := NonComment(lines);
    if hasHeader && nc != [] then nc[1..] else nc
  }

  /** The text read from a file is its data lines, each after a space. */
  lemma {:induction false} GatherMeaning(lines: seq<string>, hasHeader: bool)
    ensures Gather(lines, hasHeader) == SpaceJoined(DataLines(lines, hasHeader))
  {
    if lines != [] {
      GatherMeaning(lines[1..], hasHeader);
      if !StartsWith(lines[0], "#") && hasHeader {
        GatherMeaning(lines[1..], false);
      }
    }
  }

  /**
   * The string the tokens come from: the value when there is one, otherwise
   * the lines read from the file (an unreadable file gives none), otherwise
   * nothing.
   */
  function SourceText(value: Option<string>, file: Option<seq<string>>, hasHeader: bool): Option<string>
  {
    if value.Some? then Some(value.value)
    else if file.Some? then Some(Gather(file.value, hasHeader))
    else None
  }

  // ---------------------------------------------------------------------
  // The pairs

  /** A time: parsed as a date with the given format when there is one, otherwise as a double. */
  function ParseTime(text: string, dateFormat: Option<string>, parseDate: (string, string) -> Option<real>,
                     parseDouble: string -> Option<real>): Result<real, IncidenceError>
  {
    if dateFormat.Some? then
      (match parseDate(dateFormat.value, text)
       case None => Err(BadDate(text))
       case Some(t) => Ok(t))
    else
      (match parseDouble(text)
       case None => Err(BadNumber(text))
       case Some(t) => Ok(t))
  }

  function Prepend(p: Pair, r: Result<seq<Pair>, IncidenceError>): Result<seq<Pair>, IncidenceError>
  {
    if r.Ok? then Ok([p] + r.value) else r
  }

  /** The pairs from pair `i` on, parsed time first, up to the first token that does not parse. */
  function PairsFrom(tokens: seq<string>, i: nat, dateFormat: Option<string>, parseDate: (string, string) -> Option<real>,
                     parseDouble: string -> Option<real>, parseInt: string -> Option<int>): Result<seq<Pair>, IncidenceError>
    decreases |tokens| / 2 - i
  {
    if i >= |tokens| / 2 then Ok([])
    else
      match ParseTime(tokens[2 * i], dateFormat, parseDate, parseDouble)
      case Err(e) => Err(e)
      case Ok(t) =>
        match parseInt(tokens[2 * i + 1])
        case None => Err(BadNumber(tokens[2 * i + 1]))
        case Some(c) => Prepend(Pair(t, c), PairsFrom(tokens, i + 1, dateFormat, parseDate, parseDouble, parseInt))
  }

  /** `count` copies of `t`; none for a count that is not positive. */
  function Copies(t: real, count: int): (r: seq<real>)
    ensures |r| == if count > 0 then count else 0
    ensures forall k :: 0 <= k < |r| ==> r[k] == t
  {
    if count <= 0 then [] else [t] + Copies(t, count - 1)
  }

  /** Each pair's time, as many times as its count, in the order of the pairs. */
  function Times(pairs: seq<Pair>): seq<real>
  {
    if pairs == [] then [] else Copies(pairs[0].time, pairs[0].count) + Times(pairs[1..])
  }

  /** The number of samples the pairs stand for. */
  function SampleCount(pairs: seq<Pair>): nat
  {
    if pairs == [] then 0 else (if pairs[0].count > 0 then pairs[0].count else 0) + SampleCount(pairs[1..])
  }

  /** The latest time over all pairs, zero counts included; None stands for negative infinity. */
  function MaxTime(pairs: seq<Pair>): Option<real>
  {
    if pairs == [] then None
    else
      var m := MaxTime(pairs[..|pairs| - 1]);
      var t := pairs[|pairs| - 1].time;
      if m.None? || t > m.value then Some(t) else m
  }

  /** The latest time is the time of one of the pairs and no pair is later. */
  lemma {:induction false} MaxTimeMeaning(pairs: seq<Pair>)
    ensures MaxTime(pairs).Some? <==> pairs != []
    ensures MaxTime(pairs).Some? ==>
              (exists k :: 0 <= k < |pairs| && pairs[k].time == MaxTime(pairs).value)
              && forall k :: 0 <= k < |pairs| ==> pairs[k].time <= MaxTime(pairs).value
    decreases |pairs|
  {
    if pairs != [] {
      var init := pairs[..|pairs| - 1];
      MaxTimeMeaning(init);
      assert forall k :: 0 <= k < |init| ==> init[k] == pairs[k];
      if MaxTime(init).Some? && pairs[|pairs| - 1].time <= MaxTime(init).value {
        var k :| 0 <= k < |init| && init[k].time == MaxTime(init).value;
        assert pairs[k].time == MaxTime(pairs).value;
      }
    }
  }

  /** There is one time per sample, and each is the time of some pair. */
  lemma {:induction false} TimesMeaning(pairs: seq<Pair>)
    ensures |Times(pairs)| == SampleCount(pairs)
    ensures forall k :: 0 <= k < |Times(pairs)| ==> exists j :: 0 <= j < |pairs| && Times(pairs)[k] == pairs[j].time
  {
    if pairs != [] {
      TimesMeaning(pairs[1..]);
      var head := Copies(pairs[0].time, pairs[0].count);
      var rest := Times(pairs[1..]);
      forall k | 0 <= k < |Times(pairs)| ensures exists j :: 0 <= j < |pairs| && Times(pairs)[k] == pairs[j].time {
        if k < |head| {
          assert Times(pairs)[k] == pairs[0].time;
        } else {
          var j :| 0 <= j < |pairs[1..]| && rest[k - |head|] == pairs[1..][j].time;
          assert Times(pairs)[k] == pairs[j + 1].time;
        }
      }
    }
  }

  /** Times appended one pair at a time. */
  lemma TimesAppend(pairs: seq<Pair>, p: Pair)
    ensures Times(pairs + [p]) == Times(pairs) + Copies(p.time, p.count)
    decreases |pairs|
  {
    if pairs == [] {
      assert [p][1..] == [];
    } else {
      assert (pairs + [p])[1..] == pairs[1..] + [p];
      TimesAppend(pairs[1..], p);
    }
  }

  /** Each time's distance below the latest time, plus the offset (the stream map of initAndValidate). */
  function Shifted(times: seq<real>, maxTime: Option<real>, offset: real): (r: seq<real>)
    requires times != [] ==> maxTime.Some?
    ensures |r| == |times|
  {
    seq(|times|, k requires 0 <= k < |times| => maxTime.value - times[k] + offset)
  }

  /** The ages: the times themselves when the values are ages, otherwise the shifted times. */
  function Ages(times: seq<real>, maxTime: Option<real>, offset: real, valuesAreAges: bool): seq<real>
    requires times != [] ==> maxTime.Some?
  {
    if valuesAreAges then times else Shifted(times, maxTime, offset)
  }

  lemma TimesHaveMax(pairs: seq<Pair>)
    ensures Times(pairs) != [] ==> MaxTime(pairs).Some?
  {
    MaxTimeMeaning(pairs);
  }

  function AgesOfPairs(pairs: seq<Pair>, offset: real, valuesAreAges: bool): seq<real>
  {
    TimesHaveMax(pairs);
    Ages(Times(pairs), MaxTime(pairs), offset, valuesAreAges)
  }

  /** The ages of the tokens, or the exception their parse throws. */
  function FromTokens(tokens: seq<string>, dateFormat: Option<string>, parseDate: (string, string) -> Option<real>,
                      parseDouble: string -> Option<real>, parseInt: string -> Option<int>,
                      valuesAreAges: bool, offset: real): Result<seq<real>, IncidenceError>
  {
    if |tokens| % 2 != 0 then Err(OddTokenCount)
    else
      match PairsFrom(tokens, 0, dateFormat, parseDate, parseDouble, parseInt)
      case Err(e) => Err(e)
      case Ok(pairs) => Ok(AgesOfPairs(pairs, offset, valuesAreAges))
  }

  /** The ages initAndValidate sets, or the exception it throws. */
  function Load(value: Option<string>, file: Option<seq<string>>, hasHeader: bool,
                dateFormat: Option<string>, parseDate: (string, string) -> Option<real>,
                parseDouble: string -> Option<real>, parseInt: string -> Option<int>,
                valuesAreAges: bool, offset: real): Result<seq<real>, IncidenceError>
  {
    var text := SourceText(value, file, hasHeader);
    if text.None? then Err(MissingInput)
    else FromTokens(JavaTrimSplitSpaces(text.value), dateFormat, parseDate, parseDouble, parseInt, valuesAreAges, offset)
  }

  /**
   * One age per sample: the times themselves when the values are ages, and
   * otherwise each time's distance below the latest time plus the offset,
   * which is never less than the offset.
   */
  lemma AgesMeaning(pairs: seq<Pair>, offset: real, valuesAreAges: bool)
    ensures var ages := AgesOfPairs(pairs, offset, valuesAreAges);
            && |ages| == SampleCount(pairs)
            && (valuesAreAges ==> ages == Times(pairs))
            && (!valuesAreAges ==> forall k :: 0 <= k < |ages| ==>
                                      ages[k] == MaxTime(pairs).value - Times(pairs)[k] + offset && ages[k] >= offset)
  {
    TimesMeaning(pairs);
    MaxTimeMeaning(pairs);
    var ages := AgesOfPairs(pairs, offset, valuesAreAges);
    if !valuesAreAges {
      forall k | 0 <= k < |ages|
        ensures ages[k] == MaxTime(pairs).value - Times(pairs)[k] + offset && ages[k] >= offset
      {
        var j :| 0 <= j < |pairs| && Times(pairs)[k] == pairs[j].time;
      }
    }
  }

  /** Without a value or a file, or with an odd number of tokens, initAndValidate throws. */
  lemma LoadRejects(value: Option<string>, file: Option<seq<string>>, hasHeader: bool,
                    dateFormat: Option<string>, parseDate: (string, string) -> Option<real>,
                    parseDouble: string -> Option<real>, parseInt: string -> Option<int>,
                    valuesAreAges: bool, offset: real)
    ensures value.None? && file.None? ==>
              Load(value, file, hasHeader, dateFormat, parseDate, parseDouble, parseInt, valuesAreAges, offset) == Err(MissingInput)
    ensures value.Some? && |JavaTrimSplitSpaces(value.value)| % 2 == 1 ==>
              Load(value, file, hasHeader, dateFormat, parseDate, parseDouble, parseInt, valuesAreAges, offset) == Err(OddTokenCount)
    ensures value.None? && file.Some? && |JavaTrimSplitSpaces(SpaceJoined(DataLines(file.value, hasHeader)))| % 2 == 1 ==>
              Load(value, file, hasHeader, dateFormat, parseDate, parseDouble, parseInt, valuesAreAges, offset) == Err(OddTokenCount)
  {
    if file.Some? {
      GatherMeaning(file.value, hasHeader);
    }
  }

  // ---------------------------------------------------------------------
  // The object

  class IncidenceData {
    /** The ages of the incidence samples; an empty list until initialised. */
    var ages: seq<real>

    constructor()
      ensures ages == []
    {
      ages := [];
    }

    /** initAndValidate: read the text, parse the pairs and convert the times to ages. */
    method InitAndValidate(value: Option<string>, file: Option<seq<string>>, hasHeader: bool,
                           dateFormat: Option<string>, parseDate: (string, string) -> Option<real>,
                           parseDouble: string -> Option<real>, parseInt: string -> Option<int>,
                           valuesAreAges: bool, offset: real)
      returns (r: Result<(), IncidenceError>)
      modifies this
      ensures var l := Load(value, file, hasHeader, dateFormat, parseDate, parseDouble, parseInt, valuesAreAges, offset);
              && (r.Ok? <==> l.Ok?)
              && (l.Ok? ==> ages == l.value)
              && (l.Err? ==> r.error == l.error && ages == old(ages))
    {
      var text: Option<string> := None;
      if value.Some? {
        text := Some(value.value);
      } else if file.Some? {
        var read := ReadLines(file.value, hasHeader);
        text := Some(read);
      }
      if text.None? {
        return Err(MissingInput);
      }
      var valueStrings := JavaTrimSplitSpaces(text.value);
      if |valueStrings| % 2 != 0 {
        return Err(OddTokenCount);
      }
      var parsed := ReadPairs(valueStrings, dateFormat, parseDate, parseDouble, parseInt);
      if parsed.Err? {
        return Err(parsed.error);
      }
      var times := parsed.value.0;
      var maxTime := parsed.value.1;
      if valuesAreAges {
        ages := times;
      } else {
        ages := Shifted(times, maxTime, offset);
      }
      return Ok(());
    }

    /** The reading loop over the file's lines. */
    static method ReadLines(lines: seq<string>, hasHeader: bool) returns (text: string)
      ensures text == Gather(lines, hasHeader)
    {
      text := "";
      var isHeader := hasHeader;
      var i := 0;
      while i < |lines|
        invariant 0 <= i <= |lines|
        invariant text + Gather(lines[i..], isHeader) == Gather(lines, hasHeader)
      {
        assert lines[i..][1..] == lines[i + 1..];
        var nextLine := lines[i];
        i := i + 1;
        if StartsWith(nextLine, "#") {
          continue;
        }
        if isHeader {
          isHeader := false;
          continue;
        }
        text := text + " " + nextLine;
      }
    }

    /** The pair loop: each pair's time appended as many times as its count, and the latest time. */
    static method ReadPairs(valueStrings: seq<string>, dateFormat: Option<string>, parseDate: (string, string) -> Option<real>,
                            parseDouble: string -> Option<real>, parseInt: string -> Option<int>)
      returns (r: Result<(seq<real>, Option<real>), IncidenceError>)
      ensures var pairs := PairsFrom(valueStrings, 0, dateFormat, parseDate, parseDouble, parseInt);
              && (r.Ok? <==> pairs.Ok?)
              && (r.Ok? ==> r.value == (Times(pairs.value), MaxTime(pairs.value)))
              && (r.Err? ==> r.error == pairs.error)
              && (r.Ok? && r.value.0 != [] ==> r.value.1.Some?)
    {
      var times: seq<real> := [];
      var maxTime: Option<real> := None;
      ghost var done: seq<Pair> := [];
      PrependNothing(PairsFrom(valueStrings, 0, dateFormat, parseDate, parseDouble, parseInt));
      var i := 0;
      while i < |valueStrings| / 2
        invariant 0 <= i <= |valueStrings| / 2
        invariant TimesSoFar(valueStrings, i, dateFormat, parseDate, parseDouble, parseInt, done)
        invariant times == Times(done) && maxTime == MaxTime(done)
        invariant times != [] ==> maxTime.Some?
      {
        var time := ParseTime(valueStrings[2 * i], dateFormat, parseDate, parseDouble);
        if time.Err? {
          return Err(time.error);
        }
        var count := parseInt(valueStrings[2 * i + 1]);
        if count.None? {
          return Err(BadNumber(valueStrings[2 * i + 1]));
        }
        if maxTime.None? || time.value > maxTime.value {
          maxTime := Some(time.value);
        }
        times := AppendCopies(times, time.value, count.value);
        TimesAppend(done, Pair(time.value, count.value));
        PrependOneMore(done, Pair(time.value, count.value), PairsFrom(valueStrings, i + 1, dateFormat, parseDate, parseDouble, parseInt));
        assert (done + [Pair(time.value, count.value)])[..|done|] == done;
        done := done + [Pair(time.value, count.value)];
        i := i + 1;
      }
      assert done + [] == done;
      r := Ok((times, maxTime));
    }

    /** for (j = 0; j < count; j++) times.add(time). */
    static method AppendCopies(times: seq<real>, time: real, count: int) returns (r: seq<real>)
      ensures r == times + Copies(time, count)
    {
      r := times;
      var j := 0;
      while j < count
        invariant 0 <= j <= if count > 0 then count else 0
        invariant r == times + Copies(time, j)
      {
        CopiesStep(time, j);
        r := r + [time];
        j := j + 1;
      }
    }
  }

  /** The pairs before pair `i` are `done`, and the parse of the rest decides the whole. */
  ghost predicate TimesSoFar(tokens: seq<string>, i: nat, dateFormat: Option<string>, parseDate: (string, string) -> Option<real>,
                             parseDouble: string -> Option<real>, parseInt: string -> Option<int>, done: seq<Pair>)
  {
    var whole := PairsFrom(tokens, 0, dateFormat, parseDate, parseDouble, parseInt);
    var rest := PairsFrom(tokens, i, dateFormat, parseDate, parseDouble, parseInt);
    whole == PrependAll(done, rest)
  }

  function PrependAll(done: seq<Pair>, r: Result<seq<Pair>, IncidenceError>): Result<seq<Pair>, IncidenceError>
  {
    if r.Ok? then Ok(done + r.value) else r
  }

  lemma PrependNothing(r: Result<seq<Pair>, IncidenceError>)
    ensures PrependAll([], r) == r
  {
    if r.Ok? {
      assert [] + r.value == r.value;
    }
  }

  lemma PrependOneMore(done: seq<Pair>, p: Pair, r: Result<seq<Pair>, IncidenceError>)
    ensures PrependAll(done, Prepend(p, r)) == PrependAll(done + [p], r)
  {
    if r.Ok? {
      assert done + ([p] + r.value) == (done + [p]) + r.value;
    }
  }

  lemma CopiesStep(t: real, j: nat)
    ensures Copies(t, j + 1) == Copies(t, j) + [t]
  {
  }
}
