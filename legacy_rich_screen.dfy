/**
 * The earlier rich screen (`cDock/rich_screen.py`): its memory formatter, its two-unit "time
 * ago" text, and a cursor bounded by the table of container details it shows.
 */
module LegacyRichScreen {
  import opened Wrappers
  import opened HumanUnits

  // ---------------------------------------------------------------- memory

  /** The `suffixs` list of `get_formatted_memory`. */
  const Suffixes: seq<string> := ["", "KB", "MB", "GB", "TB"]

  /** A formatted memory amount: the scaled value (printed with two decimals) and its suffix. */
  datatype Memory = Memory(value: real, suffix: string)

  /**
   * `m` shows `v` divided `i` times by 1024: `i` is the number of powers 1024, 1024^2, ... that
   * `v` is strictly above, so the scaled value lies in (1, 1024], or at most 1024 when `i` is 0.
   */
  ghost predicate ScaledTimes(v: real, i: nat, m: Memory) {
    && i < |Suffixes| && m.suffix == Suffixes[i]
    && m.value * Pow1024(i) as real == v
    && (i > 0 ==> Pow1024(i) as real < v)
    && v <= Pow1024(i + 1) as real
  }

  /** Comparing after scaling both sides by the same positive factor. */
  lemma MulCompare(a: real, b: real, d: real)
    requires d > 0.0
    ensures a * d > b * d <==> a > b
  {
    if a > b {
      MulStrict(b, a, d);
    } else {
      MulMono(a, b, d);
    }
  }

  /**
   * `get_formatted_memory`.  The loop divides by 1024 while the value over 1024 stays above 1, at
   * most five times; after a fifth division the suffix index runs past the list and IndexError
   * escapes, which happens exactly when the amount is above 1024^5.
   */
  method GetFormattedMemory(v: real) returns (r: Result<Memory>)
    ensures r.Err? <==> v > Pow1024(5) as real
    ensures r.Err? ==> r.error == IndexError
    ensures r.Ok? ==> exists i: nat :: ScaledTimes(v, i, r.value)
  {
    var value := v;
    var i := 0;
    while i <= 4
      invariant 0 <= i <= 5
      invariant value * Pow1024(i) as real == v
      invariant i > 0 ==> Pow1024(i) as real < v
    {
      OverOne(value, 1024.0);
      if value / 1024.0 > 1.0 {
        DivTimes(value, 1024.0);
        assert Pow1024(i + 1) == 1024 * Pow1024(i);
        assert (value / 1024.0) * Pow1024(i + 1) as real == value * Pow1024(i) as real by {
          assert (value / 1024.0) * (1024.0 * Pow1024(i) as real) == ((value / 1024.0) * 1024.0) * Pow1024(i) as real;
        }
        MulCompare(value, 1024.0, Pow1024(i) as real);
        value := value / 1024.0;
      } else {
        assert Pow1024(i + 1) == 1024 * Pow1024(i);
        MulCompare(value, 1024.0, Pow1024(i) as real);
        assert v <= Pow1024(i + 1) as real;
        assert ScaledTimes(v, i, Memory(value, Suffixes[i]));
        return Ok(Memory(value, Suffixes[i]));
      }
      i := i + 1;
    }
    return Err(IndexError);
  }

  /** Only one scaling fits an amount: the result, when there is one, is determined by `v`. */
  lemma ScaledTimesUnique(v: real, i: nat, j: nat, m: Memory, n: Memory)
    requires ScaledTimes(v, i, m) && ScaledTimes(v, j, n)
    ensures i == j && m == n
  {
    PowMono(i + 1, j);
    PowMono(j + 1, i);
    assert i == j;
    MulCompare(m.value, n.value, Pow1024(i) as real);
    MulCompare(n.value, m.value, Pow1024(i) as real);
  }

  /** The comparison is strict: exactly 1024^2 bytes is "1024.00 KB", not "1.00 MB". */
  lemma ExactMebibyteStaysInKilobytes(i: nat, m: Memory)
    requires ScaledTimes(1048576.0, i, m)
    ensures m == Memory(1024.0, "KB")
  {
    assert Pow1024(1) == 1024 && Pow1024(2) == 1048576;
    ScaledTimesUnique(1048576.0, i, 1, m, Memory(1024.0, "KB"));
  }

  // ---------------------------------------------------------------- durations

  /** `a` names part `k` of `l` with its unit and, unless `k` is the seconds, the part after it. */
  predicate ReadsAs(l: seq<int>, k: nat, a: Ago) {
    && |l| == |DurationUnits| && k < |l|
    && (k == 3 ==> a == Ago(l[3], "seconds"))
    && (k < 3 ==> a == AgoPair(l[k], DurationUnits[k], l[k + 1], DurationUnits[k + 1]))
  }

  /**
   * `get_formatted_datetime`: the first non-zero part of the duration with its unit, and the part
   * after it; when that first part is the seconds, the seconds alone.  StopIteration escapes for a
   * duration with no whole second.
   */
  function GetFormattedDatetime(t: TimeDelta): (r: Result<Ago>)
    requires Normalised(t)
    ensures r.Err? <==> t.days == 0 && t.seconds == 0
    ensures r.Err? ==> r.error == StopIteration
    ensures r.Ok? ==> exists k: nat :: FirstNonZeroAt(DurationList(t), k) && ReadsAs(DurationList(t), k, r.value)
  {
    var l := DurationList(t);
    match NonZeroIndex(l)
    case Err(e) => Err(e)
    case Ok(k) =>
      assert FirstNonZeroAt(l, k);
      if k == |DurationUnits| - 1 then Ok(Ago(l[k], "seconds"))
      else Ok(AgoPair(l[k], DurationUnits[k], l[k + 1], DurationUnits[k + 1]))
  }

  /** 1 day 1 hour reads "1 days, 1 hours ago."; 2 hours exactly "2 hours, 0 minutes ago.". */
  lemma DatetimeExamples()
    ensures GetFormattedDatetime(TimeDelta(1, 3661, 0)) == Ok(AgoPair(1, "days", 1, "hours"))
    ensures GetFormattedDatetime(TimeDelta(0, 7200, 0)) == Ok(AgoPair(2, "hours", 0, "minutes"))
    ensures GetFormattedDatetime(TimeDelta(0, 42, 0)) == Ok(Ago(42, "seconds"))
  {
    assert DurationList(TimeDelta(1, 3661, 0)) == [1, 1, 1, 1];
    assert DurationList(TimeDelta(0, 7200, 0)) == [0, 2, 0, 0];
    assert DurationList(TimeDelta(0, 42, 0)) == [0, 0, 0, 42];
  }

  // ---------------------------------------------------------------- cursor

  /** `update_container_details` always lays out ten entries of five keys. */
  const DetailRows := 10
  const DetailKeys := 5

  class RichScreen {
    var row: int
    var column: int
    var refreshLayout: bool
    var singleContainerView: bool
    var inputChars: seq<char>
    /** The key count of each entry of `container_details`; `None` before it is first set. */
    var containerDetails: Option<seq<nat>>

    constructor ()
      ensures row == 0 && column == 0 && refreshLayout && singleContainerView && inputChars == []
      ensures containerDetails.None?
    {
      row := 0;
      column := 0;
      refreshLayout := true;
      singleContainerView := true;
      inputChars := [];
      containerDetails := None;
    }

    /** `update_container_details`: the shape of the table it fills with demo values. */
    method UpdateContainerDetails()
      modifies this`containerDetails
      ensures containerDetails == Some(seq(DetailRows, _ => DetailKeys))
    {
      containerDetails := Some(seq(DetailRows, _ => DetailKeys));
    }

    /** The cursor lies on the table of details. */
    predicate OnTable()
      reads this
    {
      && containerDetails.Some? && |containerDetails.value| > 0
      && 0 <= row < |containerDetails.value| && 0 <= column < containerDetails.value[0]
    }

    /**
     * One character of `input_handler`: it is recorded; 'w' and 'a' move unless at row or column
     * 0, 's' unless on the last row, 'd' unless on the last key of the first entry, and 'l' flips
     * the single-container view and asks for a new layout.  Reading the table before it exists
     * raises AttributeError, and 'd' on an empty table IndexError.
     */
    method InputStep(c: char) returns (r: Outcome)
      modifies this`row, this`column, this`refreshLayout, this`singleContainerView, this`inputChars
      ensures inputChars == old(inputChars) + [c]
      ensures r.Fail? <==>
        (c == 's' && containerDetails.None?) || (c == 'd' && (containerDetails.None? || containerDetails.value == []))
      ensures r.Fail? ==> r.error == (if containerDetails.None? then AttributeError else IndexError)
      ensures r.Fail? ==> row == old(row) && column == old(column)
      ensures r.Pass? ==> row == (if c == 'w' && old(row) != 0 then old(row) - 1
        else if c == 's' && old(row) != |containerDetails.value| - 1 then old(row) + 1
        else old(row))
      ensures r.Pass? ==> column == (if c == 'a' && old(column) != 0 then old(column) - 1
        else if c == 'd' && old(column) != containerDetails.value[0] as int - 1 then old(column) + 1
        else old(column))
      ensures c == 'l' ==> refreshLayout && singleContainerView == !old(singleContainerView)
      ensures c != 'l' ==> refreshLayout == old(refreshLayout) && singleContainerView == old(singleContainerView)
      ensures old(OnTable()) ==> OnTable()
    {
      inputChars := inputChars + [c];
      r := Pass;
      if c == 'w' && row != 0 {
        row := row - 1;
      } else if c == 's' {
        if containerDetails.None? {
          return Fail(AttributeError);
        }
        if row != |containerDetails.value| - 1 {
          row := row + 1;
        }
      } else if c == 'a' && column != 0 {
        column := column - 1;
      } else if c == 'd' {
        if containerDetails.None? {
          return Fail(AttributeError);
        }
        if containerDetails.value == [] {
          return Fail(IndexError);
        }
        if column != containerDetails.value[0] as int - 1 {
          column := column + 1;
        }
      } else if c == 'l' {
        refreshLayout := true;
        singleContainerView := !singleContainerView;
      }
    }
  }
}
