/**
 * The rich terminal screen of the `user_interface` package: its unit picker, its "time ago"
 * text, the style of a table cell, and the cursor that the key listener moves one character at a
 * time.
 */
module RichScreen {
  import opened Wrappers
  import opened HumanUnits
  import Formatter

  // ---------------------------------------------------------------- units

  /** The `prefix` dictionary of `auto_unit`. */
  const PrefixOf: map<char, nat> := map[
    'Y' := 1208925819614629174706176,
    'Z' := 1180591620717411303424,
    'E' := 1152921504606846976,
    'P' := 1125899906842624,
    'T' := 1099511627776,
    'G' := 1073741824,
    'M' := 1048576,
    'K' := 1024]

  lemma PrefixIsPower()
    ensures forall e: nat :: e < |Symbols| ==> Symbols[e] in PrefixOf && PrefixOf[Symbols[e]] == PrefixValue(e)
  {
    assert Pow1024(1) == 1024;
    assert Pow1024(2) == 1048576;
    assert Pow1024(3) == 1073741824;
    assert Pow1024(4) == 1099511627776;
    assert Pow1024(5) == 1125899906842624;
    assert Pow1024(6) == 1152921504606846976;
    assert Pow1024(7) == 1180591620717411303424;
    assert Pow1024(8) == 1208925819614629174706176;
  }

  /**
   * Where the symbol list starts after trimming to `min_symbol`: at that symbol when it is one of
   * them, at 'K' otherwise.
   */
  function MinIndex(minSymbol: string): (lo: nat)
    ensures lo < |Symbols|
    ensures |minSymbol| == 1 && minSymbol[0] in Symbols ==> Symbols[lo] == minSymbol[0]
    ensures !(|minSymbol| == 1 && minSymbol[0] in Symbols) ==> lo == 0
  {
    if |minSymbol| == 1 && minSymbol[0] in Symbols then IndexOfSymbol(minSymbol[0], 0) else 0
  }

  function IndexOfSymbol(c: char, i: nat): (k: nat)
    requires i < |Symbols| && c in Symbols[i..]
    ensures i <= k < |Symbols| && Symbols[k] == c
    decreases |Symbols| - i
  {
    if Symbols[i] == c then i else IndexOfSymbol(c, i + 1)
  }

  /**
   * The loop of `auto_unit` over the trimmed symbols, largest first: the first position, going
   * down from `e` to `lo`, whose prefix the number is more than one of.  The prefix of position
   * `e` is 1024 to the power `e + 1` (`PrefixIsPower`).
   */
  function SearchDown(number: real, lo: nat, e: int): (k: Option<nat>)
    requires e < |Symbols|
    ensures k.Some? ==> lo <= k.value <= e && number / PrefixValue(k.value) as real > 1.0
    ensures k.Some? ==> forall j :: k.value < j <= e ==> number / PrefixValue(j) as real <= 1.0
    ensures k.None? ==> forall j :: lo <= j <= e ==> number / PrefixValue(j) as real <= 1.0
    decreases e
  {
    if e < lo then None
    else if number / PrefixValue(e) as real > 1.0 then Some(e)
    else SearchDown(number, lo, e - 1)
  }

  /** The decimals `auto_unit` picks for a scaled value and its symbol. */
  function Precision(value: real, symbol: char, lowPrecision: bool): nat {
    var p := BasePrecision(value);
    if lowPrecision then (if symbol in "MK" then 0 else if p < 1 then p else 1)
    else if symbol in "K" then 0
    else p
  }

  /**
   * `auto_unit`.  The number is shown over the largest allowed prefix strictly below it, and
   * as it is when it is not above the smallest allowed prefix; low precision keeps `min(1, p)` of
   * the usual decimals `p`, and none for 'M' and 'K'.
   */
  function AutoUnit(number: real, lowPrecision: bool, minSymbol: string): (r: Rendered)
    ensures r != Dash
    ensures r.Plain? <==> number <= PrefixValue(MinIndex(minSymbol)) as real
    ensures r.Plain? ==> r.number == number
    ensures r.Scaled? ==> exists e :: MinIndex(minSymbol) <= e && ScaledBy(number, e, r)
    ensures r.Scaled? && !lowPrecision ==> r.precision == if r.suffix == 'K' then 0 else BasePrecision(r.value)
    ensures r.Scaled? && lowPrecision ==>
      r.precision == if r.suffix in "MK" then 0 else if BasePrecision(r.value) == 0 then 0 else 1
  {
    var lo := MinIndex(minSymbol);
    forall j: nat | j < |Symbols|
      ensures number / PrefixValue(j) as real > 1.0 <==> number > PrefixValue(j) as real
    {
      OverOne(number, PrefixValue(j) as real);
    }
    match SearchDown(number, lo, |Symbols| - 1)
    case None => Plain(number)
    case Some(e) =>
      var symbol := Symbols[e];
      var value := number / PrefixValue(e) as real;
      var r := Scaled(value, Precision(value, symbol, lowPrecision), symbol);
      assert e + 1 < |Symbols| ==> number <= PrefixValue(e + 1) as real by {
        if e + 1 < |Symbols| {
          assert number / PrefixValue(e + 1) as real <= 1.0;
        }
      }
      PowMono(lo + 1, e + 1);
      assert PrefixValue(e) == Pow1024(e + 1) && PrefixValue(lo) == Pow1024(lo + 1);
      assert ScaledBy(number, e, r);
      r
  }

  /** With its default arguments `auto_unit` renders every number as the formatter's `_auto_unit`. */
  lemma AgreesWithFormatter(number: real)
    ensures AutoUnit(number, false, "K") == Formatter.AutoUnit(Some(number))
  {
    var r1 := AutoUnit(number, false, "K");
    var r2 := Formatter.AutoUnit(Some(number));
    assert MinIndex("K") == 0;
    if r1.Scaled? && r2.Scaled? {
      var e1 :| 0 <= e1 && ScaledBy(number, e1, r1);
      var e2 :| ScaledBy(number, e2, r2);
      ScaledByUnique(number, e1, e2, r1, r2);
    }
  }

  /** Between two consecutive prefixes, the default picker scales by the lower one. */
  lemma ScaledAt(number: real, e: nat, lowPrecision: bool)
    requires e < |Symbols| && PrefixValue(e) as real < number
    requires e + 1 < |Symbols| ==> number <= PrefixValue(e + 1) as real
    ensures AutoUnit(number, lowPrecision, "K").Scaled?
    ensures AutoUnit(number, lowPrecision, "K").suffix == Symbols[e]
    ensures AutoUnit(number, lowPrecision, "K").value == number / PrefixValue(e) as real
  {
    var r := AutoUnit(number, lowPrecision, "K");
    assert MinIndex("K") == 0;
    PowMono(1, e + 1);
    assert PrefixValue(0) <= PrefixValue(e);
    var e1: nat :| ScaledBy(number, e1, r);
    var other := Scaled(number / PrefixValue(e) as real, 0, Symbols[e]);
    assert ScaledBy(number, e, other);
    ScaledByUnique(number, e1, e, r, other);
  }

  /** The first example of the documentation: 613421788 is 585 'M', with no decimals. */
  lemma DocExampleMebibytes()
    ensures AutoUnit(613421788.0, false, "K") == Scaled(613421788.0 / 1048576.0, 0, 'M')
    ensures 585.0 < 613421788.0 / 1048576.0 < 586.0
  {
    assert PrefixValue(1) == 1048576 && PrefixValue(2) == 1073741824;
    ScaledAt(613421788.0, 1, false);
  }

  /** 1073741824 is 1024 'M', not 1 'G': the comparison is strict. */
  lemma DocExampleStrict()
    ensures AutoUnit(1073741824.0, false, "K") == Scaled(1024.0, 0, 'M')
  {
    assert PrefixValue(1) == 1048576 && PrefixValue(2) == 1073741824;
    ScaledAt(1073741824.0, 1, false);
  }

  /** 5307033647 is 'G' with two decimals ("4.94G"), or one with low precision ("4.9G"). */
  lemma DocExampleLowPrecision()
    ensures AutoUnit(5307033647.0, false, "K").suffix == 'G' && AutoUnit(5307033647.0, false, "K").precision == 2
    ensures AutoUnit(5307033647.0, true, "K").suffix == 'G' && AutoUnit(5307033647.0, true, "K").precision == 1
  {
    assert PrefixValue(2) == 1073741824 && PrefixValue(3) == 1099511627776;
    ScaledAt(5307033647.0, 2, false);
    ScaledAt(5307033647.0, 2, true);
    assert 1.0 < 5307033647.0 / 1073741824.0 < 10.0;
  }

  /** 838471403472 is "781G" either way: a value of at least 100 keeps no decimal in low precision. */
  lemma DocExampleNoDecimal()
    ensures AutoUnit(838471403472.0, true, "K").suffix == 'G' && AutoUnit(838471403472.0, true, "K").precision == 0
  {
    assert PrefixValue(2) == 1073741824 && PrefixValue(3) == 1099511627776;
    ScaledAt(838471403472.0, 2, true);
    assert 780.0 < 838471403472.0 / 1073741824.0 < 781.0;
  }

  // ---------------------------------------------------------------- durations

  /**
   * `get_formatted_datetime`: the first non-zero part of the duration with its unit.  A duration
   * with no whole second has none, and StopIteration escapes.
   */
  function GetFormattedDatetime(t: TimeDelta): (r: Result<Ago>)
    requires Normalised(t)
    ensures r.Err? <==> t.days == 0 && t.seconds == 0
    ensures r.Err? ==> r.error == StopIteration
    ensures r.Ok? ==> exists k: nat :: FirstNonZeroAt(DurationList(t), k) && r.value == Ago(DurationList(t)[k], DurationUnits[k])
  {
    var l := DurationList(t);
    match NonZeroIndex(l)
    case Err(e) => Err(e)
    case Ok(k) =>
      assert FirstNonZeroAt(l, k);
      if k == |DurationUnits| - 1 then Ok(Ago(l[k], "seconds"))
      else Ok(Ago(l[k], DurationUnits[k]))
  }

  /** A day, an hour, a minute and a second ago reads "1 days ago."; 59 seconds "59 seconds ago.". */
  lemma DatetimeExamples()
    ensures GetFormattedDatetime(TimeDelta(1, 3661, 0)) == Ok(Ago(1, "days"))
    ensures GetFormattedDatetime(TimeDelta(0, 59, 500000)) == Ok(Ago(59, "seconds"))
    ensures GetFormattedDatetime(TimeDelta(0, 7200, 0)) == Ok(Ago(2, "hours"))
  {
    assert DurationList(TimeDelta(1, 3661, 0)) == [1, 1, 1, 1];
    assert DurationList(TimeDelta(0, 59, 500000)) == [0, 0, 0, 59];
    assert DurationList(TimeDelta(0, 7200, 0)) == [0, 2, 0, 0];
  }

  // ---------------------------------------------------------------- cell style

  /** The configured styles `generate_row` chooses from. */
  datatype Styles = Styles(
    created: string, restarting: string, running: string, paused: string, exited: string, dead: string,
    selected: string)

  /** The style of a status, `""` for any other value. */
  function StatusStyle(value: string, s: Styles): string {
    if value == "created" then s.created
    else if value == "restarting" then s.restarting
    else if value == "running" then s.running
    else if value == "paused" then s.paused
    else if value == "exited" then s.exited
    else if value == "dead" then s.dead
    else ""
  }

  /**
   * The style `generate_row` gives the cell in column `count` of row `index`: the selected style
   * at the cursor, otherwise the style of its exact status string, otherwise none.
   */
  function CellStyle(value: string, s: Styles, count: int, index: int, column: int, row: int): (r: string)
    ensures count == column && index == row ==> r == s.selected
    ensures !(count == column && index == row) ==> r == StatusStyle(value, s)
    ensures !(count == column && index == row) && value !in Formatter.KnownStatuses ==> r == ""
  {
    var style := StatusStyle(value, s);
    if count == column && index == row then s.selected else style
  }

  /** Unlike the formatter's, distinct configured styles tell the six statuses apart. */
  lemma StatusStylesDistinguish(a: string, b: string, s: Styles)
    requires a in Formatter.KnownStatuses && b in Formatter.KnownStatuses && a != b
    requires |{s.created, s.restarting, s.running, s.paused, s.exited, s.dead}| == 6
    ensures StatusStyle(a, s) != StatusStyle(b, s)
  {
  }

  // ---------------------------------------------------------------- cursor

  class RichScreen {
    var row: int
    var column: int
    var refreshLayout: bool
    var singleContainerView: bool
    var inputChars: seq<char>

    /** The cursor never leaves the table's top-left corner behind. */
    predicate Valid()
      reads this
    {
      row >= 0 && column >= 0
    }

    constructor ()
      ensures Valid()
      ensures row == 0 && column == 0 && refreshLayout && !singleContainerView && inputChars == []
    {
      row := 0;
      column := 0;
      refreshLayout := true;
      singleContainerView := false;
      inputChars := [];
    }

    /**
     * One character of `input_handler`: it is recorded; 'w' and 'a' move up and left unless at
     * the edge, 's' and 'd' move down and right without bound, 'l' flips the single-container
     * view and asks for a new layout, and any other character only is recorded.
     */
    method InputStep(c: char)
      requires Valid()
      modifies this
      ensures Valid()
      ensures inputChars == old(inputChars) + [c]
      ensures row == (if c == 'w' && old(row) != 0 then old(row) - 1 else if c == 's' then old(row) + 1 else old(row))
      ensures column == (if c == 'a' && old(column) != 0 then old(column) - 1 else if c == 'd' then old(column) + 1 else old(column))
      ensures c == 'l' ==> refreshLayout && singleContainerView == !old(singleContainerView)
      ensures c != 'l' ==> refreshLayout == old(refreshLayout) && singleContainerView == old(singleContainerView)
    {
      inputChars := inputChars + [c];
      if c == 'w' && row != 0 {
        row := row - 1;
      } else if c == 's' {
        row := row + 1;
      } else if c == 'a' && column != 0 {
        column := column - 1;
      } else if c == 'd' {
        column := column + 1;
      } else if c == 'l' {
        refreshLayout := true;
        singleContainerView := !singleContainerView;
      }
    }
  }
}
