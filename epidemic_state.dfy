/**
 * The mutable record of compartment sizes that the simulators and the
 * models update in place, and its one-line trajectory record.
 */
module EpidemicState {
  import opened Text

  /** The compartment sizes as a value. */
  datatype Counts = Counts(S: real, I: real, R: real)

  /** A Java (long) cast of a double in range: truncation toward zero. */
  function TruncateToLong(x: real): (n: int)
    ensures x >= 0.0 ==> n as real <= x < n as real + 1.0
    ensures x < 0.0 ==> n as real - 1.0 < x <= n as real
  {
    if x >= 0.0 then x.Floor else -((-x).Floor)
  }

  lemma TruncateWhole(n: int)
    ensures TruncateToLong(n as real) == n
  {
  }

  /** getHeader: the column names of a record. */
  const Header: string := "S I R"

  /** getRecord: the three sizes, each cast to long, separated by single spaces. */
  function Record(c: Counts): (r: string)
  {
    Join([IntToString(TruncateToLong(c.S)), IntToString(TruncateToLong(c.I)), IntToString(TruncateToLong(c.R))], ' ')
  }

  /** A record has one field under each column of the header, holding that truncated size. */
  lemma RecordFields(c: Counts)
    ensures PySplit(Record(c), ' ') == [IntToString(TruncateToLong(c.S)), IntToString(TruncateToLong(c.I)), IntToString(TruncateToLong(c.R))]
    ensures |PySplit(Record(c), ' ')| == |PySplit(Header, ' ')|
  {
    PySplitOfJoin([IntToString(TruncateToLong(c.S)), IntToString(TruncateToLong(c.I)), IntToString(TruncateToLong(c.R))], ' ');
    PySplitOfJoin(["S", "I", "R"], ' ');
    assert Join(["S", "I", "R"], ' ') == Header;
  }

  class EpidemicState {
    var S: real
    var I: real
    var R: real

    /** The three-argument constructor: exactly the given sizes. */
    constructor(S: real, I: real, R: real)
      ensures this.S == S && this.I == I && this.R == R
    {
      this.S := S;
      this.I := I;
      this.R := R;
    }

    function Value(): Counts
      reads this
    {
      Counts(S, I, R)
    }

    /** copy: a new object holding the same sizes. */
    method Copy() returns (c: EpidemicState)
      ensures fresh(c)
      ensures c.Value() == Value()
    {
      c := new EpidemicState(S, I, R);
    }

    /** getRecord of the current sizes. */
    method GetRecord() returns (r: string)
      ensures r == Record(Value())
    {
      r := Join([IntToString(TruncateToLong(S)), IntToString(TruncateToLong(I)), IntToString(TruncateToLong(R))], ' ');
    }
  }
}
