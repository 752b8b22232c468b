/**
 * A trajectory read back from a text file of records
 * "t S I R eventType eventMultiplicity": a START line gives the initial
 * state, each event line one event and the state after it, and an END line
 * the trajectory's origin.
 */
module TrajectoryFromFile {
  import opened Wrappers
  import opened Text
  import opened EpidemicState

  /** The header line a trajectory file must begin with. */
  const FileHeader: string := "t S I R eventType eventMultiplicity"

  /** An event as read from the file: its time, its type name and its multiplicity. */
  datatype FileEvent = FileEvent(time: real, eventType: string, multiplicity: int)

  /** A state as read from the file, with the time it holds from. */
  datatype TimedState = TimedState(time: real, counts: Counts)

  /** The exceptions the loader can end with. */
  datatype LoadError =
    | MissingHeader             // readLine() returned null: NullPointerException
    | WrongHeader               // RuntimeException: not a trajectory file
    | MissingField(index: nat)  // ArrayIndexOutOfBoundsException
    | BadNumber(text: string)   // NumberFormatException
    | NullList                  // NullPointerException: the list was never allocated
    | ReadFailed(message: string) // IOException rethrown as RuntimeException

  /** The trajectory's lists (None is a null reference) and its origin. */
  datatype Loaded = Loaded(events: Option<seq<FileEvent>>, states: Option<seq<TimedState>>, origin: Option<real>)

  /** What the loader leaves behind: the fields, and the exception if one was thrown. */
  datatype Progress = Progress(loaded: Loaded, error: Option<LoadError>)

  /** The three counts in fields 1, 2 and 3, parsed left to right. */
  function ParseCounts(f: seq<string>, parseDouble: string -> Option<real>): (r: Result<Counts, LoadError>)
    requires |f| >= 4
    ensures r.Ok? <==> parseDouble(f[1]).Some? && parseDouble(f[2]).Some? && parseDouble(f[3]).Some?
    ensures r.Ok? ==> r.value == Counts(parseDouble(f[1]).value, parseDouble(f[2]).value, parseDouble(f[3]).value)
  {
    match parseDouble(f[1])
    case None => Err(BadNumber(f[1]))
    case Some(s) =>
      match parseDouble(f[2])
      case None => Err(BadNumber(f[2]))
      case Some(i) =>
        match parseDouble(f[3])
        case None => Err(BadNumber(f[3]))
        case Some(r) => Ok(Counts(s, i, r))
  }

  /** stateList.add(state). */
  function AddState(acc: Loaded, s: TimedState): Progress
  {
    if acc.states.None? then Progress(acc, Some(NullList))
    else Progress(acc.(states := Some(acc.states.value + [s])), None)
  }

  /** The effect of one line after the header, in the order the source evaluates it. */
  function Step(acc: Loaded, line: string, parseDouble: string -> Option<real>,
                parseInt: string -> Option<int>): Progress
  {
    var f := JavaSplit(line, ' ');
    if |f| < 5 then Progress(acc, Some(MissingField(4)))
    else if f[4] == "START" then
      match ParseCounts(f, parseDouble)
      case Err(e) => Progress(acc, Some(e))
      case Ok(c) =>
        match parseDouble(f[0])
        case None => Progress(acc, Some(BadNumber(f[0])))
        case Some(t) => AddState(acc, TimedState(t, c))
    else if f[4] == "END" then
      match parseDouble(f[0])
      case None => Progress(acc, Some(BadNumber(f[0])))
      case Some(t) => Progress(acc.(origin := Some(t)), None)
    else
      match parseDouble(f[0])
      case None => Progress(acc, Some(BadNumber(f[0])))
      case Some(t) =>
        if |f| < 6 then Progress(acc, Some(MissingField(5)))
        else
          match parseInt(f[5])
          case None => Progress(acc, Some(BadNumber(f[5])))
          case Some(m) =>
            if acc.events.None? then Progress(acc, Some(NullList))
            else
              var added := acc.(events := Some(acc.events.value + [FileEvent(t, f[4], m)]));
              match ParseCounts(f, parseDouble)
              case Err(e) => Progress(added, Some(e))
              case Ok(c) => AddState(added, TimedState(t, c))
  }

  /** The lines after the header, one after another, up to the first exception. */
  function LoadLines(acc: Loaded, lines: seq<string>, parseDouble: string -> Option<real>,
                     parseInt: string -> Option<int>): Progress
    decreases lines
  {
    if lines == [] then Progress(acc, None)
    else
      var p := Step(acc, lines[0], parseDouble, parseInt);
      if p.error.Some? then p else LoadLines(p.loaded, lines[1..], parseDouble, parseInt)
  }

  /** The whole of initAndValidate, given the file's lines or None when reading it fails. */
  function Load(acc: Loaded, fileName: string, file: Option<seq<string>>,
                parseDouble: string -> Option<real>, parseInt: string -> Option<int>): Progress
  {
    if file.None? then Progress(acc, Some(ReadFailed("Error reading trajectory file '" + fileName + "'.")))
    else if file.value == [] then Progress(acc, Some(MissingHeader))
    else if file.value[0] != FileHeader then Progress(acc, Some(WrongHeader))
    else LoadLines(acc, file.value[1..], parseDouble, parseInt)
  }

  // ---------------------------------------------------------------------
  // What each kind of line does

  /** The type field of a line with at least five fields. */
  function TypeField(line: string): Option<string>
  {
    var f := JavaSplit(line, ' ');
    if |f| < 5 then None else Some(f[4])
  }

  predicate IsStartLine(line: string) { TypeField(line) == Some("START") }
  predicate IsEndLine(line: string) { TypeField(line) == Some("END") }
  predicate IsEventLine(line: string) { TypeField(line).Some? && !IsStartLine(line) && !IsEndLine(line) }

  /**
   * A line that loads without an exception: a START line adds one state and
   * nothing else; an END line sets the origin and nothing else; any other
   * line adds one event, whose type is field 4, and one state at the event's time.
   */
  lemma StepMeaning(acc: Loaded, line: string, parseDouble: string -> Option<real>, parseInt: string -> Option<int>)
    requires Step(acc, line, parseDouble, parseInt).error.None?
    ensures var after := Step(acc, line, parseDouble, parseInt).loaded;
            var f := JavaSplit(line, ' ');
            && |f| >= 5
            && (IsStartLine(line) ==>
                  && after.events == acc.events && after.origin == acc.origin
                  && acc.states.Some? && after.states.Some?
                  && after.states.value == acc.states.value + [TimedState(parseDouble(f[0]).value, ParseCounts(f, parseDouble).value)])
            && (IsEndLine(line) ==>
                  after == acc.(origin := Some(parseDouble(f[0]).value)))
            && (IsEventLine(line) ==>
                  && |f| >= 6 && after.origin == acc.origin
                  && acc.events.Some? && acc.states.Some? && after.events.Some? && after.states.Some?
                  && exists e: FileEvent, s: TimedState ::
                       && after.events.value == acc.events.value + [e] && after.states.value == acc.states.value + [s]
                       && e == FileEvent(parseDouble(f[0]).value, f[4], parseInt(f[5]).value)
                       && s.time == e.time && s.counts == ParseCounts(f, parseDouble).value)
  {
    var f := JavaSplit(line, ' ');
    if IsEventLine(line) {
      var after := Step(acc, line, parseDouble, parseInt).loaded;
      var e := FileEvent(parseDouble(f[0]).value, f[4], parseInt(f[5]).value);
      var s := TimedState(e.time, ParseCounts(f, parseDouble).value);
      assert after.events.value == acc.events.value + [e] && after.states.value == acc.states.value + [s];
    }
  }

  /** The number of lines of each kind. */
  function CountWhere(lines: seq<string>, p: string -> bool): nat
  {
    if lines == [] then 0 else (if p(lines[0]) then 1 else 0) + CountWhere(lines[1..], p)
  }

  /**
   * A load that ends without an exception adds one event per event line and
   * one state per START line and per event line.
   */
  lemma {:induction false} LoadLinesCounts(acc: Loaded, lines: seq<string>, parseDouble: string -> Option<real>,
                                           parseInt: string -> Option<int>)
    requires LoadLines(acc, lines, parseDouble, parseInt).error.None?
    ensures var after := LoadLines(acc, lines, parseDouble, parseInt).loaded;
            && (acc.events.Some? ==> after.events.Some? && |after.events.value| == |acc.events.value| + CountWhere(lines, IsEventLine))
            && (acc.states.Some? ==> after.states.Some? && |after.states.value| == |acc.states.value| + CountWhere(lines, IsStartLine) + CountWhere(lines, IsEventLine))
    decreases lines
  {
    if lines != [] {
      var p := Step(acc, lines[0], parseDouble, parseInt);
      StepMeaning(acc, lines[0], parseDouble, parseInt);
      LoadLinesCounts(p.loaded, lines[1..], parseDouble, parseInt);
    }
  }

  /** A file that loads completely, read into empty lists, holds exactly the counts of its lines. */
  lemma LoadCounts(origin: Option<real>, fileName: string, lines: seq<string>,
                   parseDouble: string -> Option<real>, parseInt: string -> Option<int>)
    requires Load(Loaded(Some([]), Some([]), origin), fileName, Some(lines), parseDouble, parseInt).error.None?
    ensures lines != [] && lines[0] == FileHeader
    ensures var after := Load(Loaded(Some([]), Some([]), origin), fileName, Some(lines), parseDouble, parseInt).loaded;
            && after.events.Some? && |after.events.value| == CountWhere(lines[1..], IsEventLine)
            && after.states.Some? && |after.states.value| == CountWhere(lines[1..], IsStartLine) + CountWhere(lines[1..], IsEventLine)
  {
    LoadLinesCounts(Loaded(Some([]), Some([]), origin), lines[1..], parseDouble, parseInt);
  }

  /** Reading fails, the file is empty or its header is wrong: nothing is loaded, and the error says which. */
  lemma LoadEarlyErrors(acc: Loaded, fileName: string, file: Option<seq<string>>,
                        parseDouble: string -> Option<real>, parseInt: string -> Option<int>)
    ensures file.None? ==> Load(acc, fileName, file, parseDouble, parseInt)
                           == Progress(acc, Some(ReadFailed("Error reading trajectory file '" + fileName + "'.")))
    ensures file == Some([]) ==> Load(acc, fileName, file, parseDouble, parseInt) == Progress(acc, Some(MissingHeader))
    ensures file.Some? && file.value != [] && file.value[0] != FileHeader ==>
              Load(acc, fileName, file, parseDouble, parseInt) == Progress(acc, Some(WrongHeader))
  {
  }

  /**
   * As written the lists were never allocated, so the first START or event
   * line that parses throws a NullPointerException where a load into empty
   * lists adds to them.
   */
  lemma NullListsRejectStates(origin: Option<real>, line: string, parseDouble: string -> Option<real>,
                              parseInt: string -> Option<int>)
    requires Step(Loaded(Some([]), Some([]), origin), line, parseDouble, parseInt).error.None?
    requires !IsEndLine(line)
    ensures Step(Loaded(None, None, origin), line, parseDouble, parseInt) == Progress(Loaded(None, None, origin), Some(NullList))
    ensures Step(Loaded(Some([]), Some([]), origin), line, parseDouble, parseInt).loaded.states.value != []
  {
    StepMeaning(Loaded(Some([]), Some([]), origin), line, parseDouble, parseInt);
  }

  // ---------------------------------------------------------------------
  // The loader

  class TrajectoryFromFile {
    /** eventList, stateList and origin of the trajectory; None is a null reference. */
    var eventList: Option<seq<FileEvent>>
    var stateList: Option<seq<TimedState>>
    var origin: Option<real>

    function Current(): Loaded
      reads this
    {
      Loaded(eventList, stateList, origin)
    }

    /** A new object: its lists are not allocated and its origin is null. */
    constructor()
      ensures Current() == Loaded(None, None, None)
    {
      eventList := None;
      stateList := None;
      origin := None;
    }

    /** The trajectory's own initialiser, which this class does not call: both lists empty. */
    method AllocateLists()
      modifies this
      ensures Current() == Loaded(Some([]), Some([]), old(origin))
    {
      eventList := Some([]);
      stateList := Some([]);
    }

    /** One line after the header. */
    method ReadLine(line: string, parseDouble: string -> Option<real>, parseInt: string -> Option<int>)
      returns (error: Option<LoadError>)
      modifies this
      ensures Progress(Current(), error) == Step(old(Current()), line, parseDouble, parseInt)
    {
      var strVals := JavaSplit(line, ' ');
      if |strVals| < 5 {
        return Some(MissingField(4));
      }
      var eventType := strVals[4];
      if eventType == "START" {
        var counts := ParseCounts(strVals, parseDouble);
        if counts.Err? {
          return Some(counts.error);
        }
        var time := parseDouble(strVals[0]);
        if time.None? {
          return Some(BadNumber(strVals[0]));
        }
        error := AddStateTo(TimedState(time.value, counts.value));
      } else if eventType == "END" {
        var time := parseDouble(strVals[0]);
        if time.None? {
          return Some(BadNumber(strVals[0]));
        }
        origin := Some(time.value);
        error := None;
      } else {
        var time := parseDouble(strVals[0]);
        if time.None? {
          return Some(BadNumber(strVals[0]));
        }
        if |strVals| < 6 {
          return Some(MissingField(5));
        }
        var multiplicity := parseInt(strVals[5]);
        if multiplicity.None? {
          return Some(BadNumber(strVals[5]));
        }
        if eventList.None? {
          return Some(NullList);
        }
        eventList := Some(eventList.value + [FileEvent(time.value, eventType, multiplicity.value)]);
        var counts := ParseCounts(strVals, parseDouble);
        if counts.Err? {
          return Some(counts.error);
        }
        error := AddStateTo(TimedState(time.value, counts.value));
      }
    }

    method AddStateTo(s: TimedState) returns (error: Option<LoadError>)
      modifies this
      ensures Progress(Current(), error) == AddState(old(Current()), s)
    {
      if stateList.None? {
        return Some(NullList);
      }
      stateList := Some(stateList.value + [s]);
      return None;
    }

    /** initAndValidate as written: the lines are read into whatever the lists are. */
    method InitAndValidate(fileName: string, file: Option<seq<string>>,
                           parseDouble: string -> Option<real>, parseInt: string -> Option<int>)
      returns (r: Result<(), LoadError>)
      modifies this
      ensures var p := Load(old(Current()), fileName, file, parseDouble, parseInt);
              Current() == p.loaded && (r.Err? <==> p.error.Some?) && (r.Err? ==> r.error == p.error.value)
    {
      if file.None? {
        return Err(ReadFailed("Error reading trajectory file '" + fileName + "'."));
      }
      var lines := file.value;
      if lines == [] {
        return Err(MissingHeader);
      }
      if lines[0] != FileHeader {
        return Err(WrongHeader);
      }
      ghost var target := LoadLines(Current(), lines[1..], parseDouble, parseInt);
      var i := 1;
      while i < |lines|
        invariant 1 <= i <= |lines|
        invariant LoadLines(Current(), lines[i..], parseDouble, parseInt) == target
      {
        assert lines[i..][1..] == lines[i + 1..];
        var error := ReadLine(lines[i], parseDouble, parseInt);
        if error.Some? {
          return Err(error.value);
        }
        i := i + 1;
      }
      return Ok(());
    }

    /** initAndValidate as intended: the lists are allocated empty before the lines are read. */
    method InitAndValidateIntoEmpty(fileName: string, file: Option<seq<string>>,
                                    parseDouble: string -> Option<real>, parseInt: string -> Option<int>)
      returns (r: Result<(), LoadError>)
      modifies this
      ensures var p := Load(Loaded(Some([]), Some([]), old(origin)), fileName, file, parseDouble, parseInt);
              Current() == p.loaded && (r.Err? <==> p.error.Some?) && (r.Err? ==> r.error == p.error.value)
    {
      AllocateLists();
      r := InitAndValidate(fileName, file, parseDouble, parseInt);
    }
  }
}
