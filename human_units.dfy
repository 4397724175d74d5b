/**
 * What the table formatter and the two screens share: the binary prefixes they scale numbers by,
 * the rendering such a scaling produces, and the way they cut a `timedelta` into days, hours,
 * minutes and seconds before naming its first non-zero part.
 */
module HumanUnits {
  import opened Wrappers

  /** 1024 to the power `k`. */
  function Pow1024(k: nat): (p: nat)
    ensures p >= 1
  {
    if k == 0 then 1 else 1024 * Pow1024(k - 1)
  }

  lemma {:induction false} Pow1024Grows(a: nat, b: nat)
    requires a < b
    ensures 1024 * Pow1024(a) <= Pow1024(b)
  {
    if a + 1 < b {
      Pow1024Grows(a, b - 1);
    }
  }

  lemma PowMono(a: nat, b: nat)
    ensures a <= b ==> Pow1024(a) <= Pow1024(b)
  {
    if a < b {
      Pow1024Grows(a, b);
    }
  }

  /** The prefix at position `e` of the symbol list: 1024 to the power `e + 1`. */
  function PrefixValue(e: nat): (p: nat)
    ensures p >= 1024
  {
    1024 * Pow1024(e)
  }

  /** The symbols of the binary prefixes; `Symbols[e]` stands for 1024 to the power `e + 1`. */
  const Symbols: seq<char> := ['K', 'M', 'G', 'T', 'P', 'E', 'Z', 'Y']

  /**
   * A number as the unit pickers render it: `'-'` for nothing, the number itself, or the number
   * over a prefix, printed with `precision` decimals and followed by the prefix symbol.
   */
  datatype Rendered = Dash | Plain(number: real) | Scaled(value: real, precision: nat, suffix: char)

  /**
   * `r` shows `n` over 1024 to the power `e + 1`, the largest power of 1024 strictly below `n`
   * (or the largest there is).
   */
  predicate ScaledBy(n: real, e: nat, r: Rendered) {
    && e < |Symbols|
    && r.Scaled? && r.suffix == Symbols[e]
    && Pow1024(e + 1) as real < n
    && (e + 1 < |Symbols| ==> n <= Pow1024(e + 2) as real)
    && r.value == n / Pow1024(e + 1) as real
  }

  /** Of two different exponents, the smaller's next power is at most the larger's power. */
  lemma PowOrder(a: nat, b: nat)
    ensures a < b ==> Pow1024(a + 2) <= Pow1024(b + 1)
  {
    if a < b {
      Pow1024Grows(a + 1, b + 1);
    }
  }

  /** A number has one largest power of 1024 below it, so one scaled rendering. */
  lemma ScaledByUnique(n: real, e1: nat, e2: nat, r1: Rendered, r2: Rendered)
    requires ScaledBy(n, e1, r1) && ScaledBy(n, e2, r2)
    ensures e1 == e2 && r1.suffix == r2.suffix && r1.value == r2.value
  {
    PowOrder(e1, e2);
    PowOrder(e2, e1);
  }

  /** A scaled rendering shows a value above 1, and at most 1024 below the largest prefix. */
  lemma ScaledValueInRange(n: real, e: nat, r: Rendered)
    requires ScaledBy(n, e, r)
    ensures r.value > 1.0
    ensures e + 1 < |Symbols| ==> r.value <= 1024.0
  {
    var p := Pow1024(e + 1) as real;
    OverOne(n, p);
    if e + 1 < |Symbols| {
      assert Pow1024(e + 2) as real == 1024.0 * p;
      DivMono(n, 1024.0 * p, p);
      assert 1024.0 * p / p == 1024.0;
    }
  }

  lemma DivMono(a: real, b: real, d: real)
    requires a <= b && d > 0.0
    ensures a / d <= b / d
  {
  }

  /** Two decimals below 10, one below 100, none from 100 on. */
  function BasePrecision(value: real): (p: nat)
    ensures p <= 2
    ensures p == 2 <==> value < 10.0
    ensures p == 0 <==> value >= 100.0
  {
    if value < 10.0 then 2 else if value < 100.0 then 1 else 0
  }

  /** `n / u > 1` for a positive `u` says `n` exceeds `u`. */
  lemma OverOne(n: real, u: real)
    requires u > 0.0
    ensures n / u > 1.0 <==> n > u
  {
    DivTimes(n, u);
    if n / u > 1.0 {
      MulStrict(1.0, n / u, u);
    } else {
      MulMono(n / u, 1.0, u);
    }
  }

  lemma DivTimes(x: real, d: real)
    requires d > 0.0
    ensures x / d * d == x
  {
  }

  lemma MulStrict(a: real, b: real, d: real)
    requires a < b && d > 0.0
    ensures a * d < b * d
  {
    assert b * d - a * d == (b - a) * d;
  }

  lemma MulMono(a: real, b: real, d: real)
    requires a <= b && d > 0.0
    ensures a * d <= b * d
  {
    assert b * d - a * d == (b - a) * d;
  }

  // ---------------------------------------------------------------- durations

  /** A Python `timedelta`, with the normalised seconds and microseconds it keeps. */
  datatype TimeDelta = TimeDelta(days: int, seconds: nat, microseconds: nat)

  predicate Normalised(t: TimeDelta) {
    t.seconds < 86400 && t.microseconds < 1000000
  }

  /** `total_seconds()` without its fraction, which the whole parts never see. */
  function WholeSeconds(t: TimeDelta): int {
    t.days * 86400 + t.seconds
  }

  /** `divmod` by a positive divisor: the floored quotient and the remainder. */
  function DivMod(n: int, d: nat): (r: (int, int))
    requires d > 0
    ensures r.0 * d + r.1 == n && 0 <= r.1 < d
  {
    (n / d, n % d)
  }

  /**
   * The list `get_formatted_datetime` builds: `days` from the delta itself, then the whole hours,
   * minutes and seconds left by the divmods of the total seconds by 86400, 3600, 60 and 1.  The
   * parts recompose the delta's whole seconds, and each but the first stays below the next unit.
   */
  function DurationList(t: TimeDelta): (l: seq<int>)
    requires Normalised(t)
    ensures |l| == 4 && l[0] == t.days
    ensures l[0] * 86400 + l[1] * 3600 + l[2] * 60 + l[3] == WholeSeconds(t)
    ensures 0 <= l[1] < 24 && 0 <= l[2] < 60 && 0 <= l[3] < 60
  {
    var days := DivMod(WholeSeconds(t), 86400);
    var hours := DivMod(days.1, 3600);
    var minutes := DivMod(hours.1, 60);
    var seconds := DivMod(minutes.1, 1);
    assert days.0 == t.days;
    [t.days, hours.0, minutes.0, seconds.0]
  }

  // ---------------------------------------------------------------- the first non-zero part

  /** `next(filter(lambda x: x != 0, l))`: the first non-zero value, if any. */
  function FirstNonZeroValue(l: seq<int>): (v: Option<int>)
    ensures v.None? <==> forall j :: 0 <= j < |l| ==> l[j] == 0
    ensures v.Some? ==> v.value != 0 && exists j :: 0 <= j < |l| && l[j] == v.value && forall i :: 0 <= i < j ==> l[i] == 0
  {
    if l == [] then None
    else if l[0] != 0 then Some(l[0])
    else
      var rest := FirstNonZeroValue(l[1..]);
      if rest.Some? then
        var j :| 0 <= j < |l[1..]| && l[1..][j] == rest.value && forall i :: 0 <= i < j ==> l[1..][i] == 0;
        assert l[j + 1] == rest.value;
        rest
      else rest
  }

  /** `l.index(v)`: the first position holding `v`. */
  function IndexOf(l: seq<int>, v: int): (k: Option<nat>)
    ensures k.None? <==> v !in l
    ensures k.Some? ==> k.value < |l| && l[k.value] == v && forall i :: 0 <= i < k.value ==> l[i] != v
  {
    if l == [] then None
    else if l[0] == v then Some(0)
    else
      var rest := IndexOf(l[1..], v);
      if rest.Some? then Some(rest.value + 1) else None
  }

  /**
   * `duration_list.index(next(filter(...)))`: StopIteration when every part is zero, otherwise
   * the position of the first non-zero part.
   */
  function NonZeroIndex(l: seq<int>): (r: Result<nat>)
    ensures r.Err? <==> forall j :: 0 <= j < |l| ==> l[j] == 0
    ensures r.Err? ==> r.error == StopIteration
    ensures r.Ok? ==> r.value < |l| && l[r.value] != 0 && forall i :: 0 <= i < r.value ==> l[i] == 0
  {
    match FirstNonZeroValue(l)
    case None => Err(StopIteration)
    case Some(v) =>
      var j :| 0 <= j < |l| && l[j] == v && forall i :: 0 <= i < j ==> l[i] == 0;
      assert v in l;
      var k := IndexOf(l, v);
      if k.None? then assert false; Err(StopIteration)
      else
        assert k.value == j;
        Ok(k.value)
  }

  /** `k` is the position of the first non-zero part of `l`. */
  predicate FirstNonZeroAt(l: seq<int>, k: nat) {
    k < |l| && l[k] != 0 && forall i :: 0 <= i < k ==> l[i] == 0
  }

  /** The unit names in list order. */
  const DurationUnits: seq<string> := ["days", "hours", "minutes", "seconds"]

  /** The text of a formatted duration: "N unit ago." or "A unit, B unit ago.". */
  datatype Ago = Ago(amount: int, unit: string) | AgoPair(amount: int, unit: string, nextAmount: int, nextUnit: string)
}
