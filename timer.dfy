/** The elapsed-time display of a recording (`updateTimer`): whole seconds since the
    recording started, shown as minutes and seconds, each padded to two digits. */
module Timer {
  import opened JsText

  /** `Math.floor((now - start) / 1000)`: whole seconds elapsed. The divisor is positive,
      so Dafny's Euclidean division is JavaScript's floored division. */
  function Elapsed(nowMs: int, startMs: int): (e: int)
    ensures e * 1000 <= nowMs - startMs < e * 1000 + 1000
  {
    (nowMs - startMs) / 1000
  }

  /** JavaScript's `a % 60`: the remainder takes the sign of the dividend. */
  function JsRemainder60(a: int): (r: int)
    ensures a >= 0 ==> 0 <= r < 60
    ensures a < 0 ==> -60 < r <= 0
    ensures (a - r) % 60 == 0
  {
    if a >= 0 then a % 60 else -((-a) % 60)
  }

  /** `String(Math.floor(e / 60)).padStart(2, '0')` */
  function MinutesField(e: int): string
  {
    PadStart(IntToString(e / 60), 2, '0')
  }

  /** `String(e % 60).padStart(2, '0')` */
  function SecondsField(e: int): string
  {
    PadStart(IntToString(JsRemainder60(e)), 2, '0')
  }

  /** The text of the timer display at time `nowMs` for a recording started at `startMs`. */
  function FormatTimer(nowMs: int, startMs: int): string
  {
    var e := Elapsed(nowMs, startMs);
    MinutesField(e) + ":" + SecondsField(e)
  }

  /** A padded field of a natural number is all digits, at least two of them, and still
      denotes the number. */
  lemma PaddedField(n: nat)
    ensures var f := PadStart(IntToString(n), 2, '0');
      |f| >= 2 && AllDigits(f) && ParseDigits(f) == n
  {
    var s := Digits(n);
    var f := PadStart(s, 2, '0');
    PadStartSpec(s, 2, '0');
    var z := f[..|f| - |s|];
    assert f == z + s;
    ParseLeadingZeros(z, s);
    ParseDigitsOfDigits(n);
  }

  /** The seconds field of a non-negative elapsed time: two digits denoting `e % 60`. */
  lemma SecondsFieldShape(e: int)
    requires e >= 0
    ensures var f := SecondsField(e); |f| == 2 && AllDigits(f) && ParseDigits(f) == e % 60
  {
    var r := e % 60;
    assert JsRemainder60(e) == r;
    PaddedField(r);
    if r >= 10 {
      assert Digits(r) == Digits(r / 10) + [DigitChar(r % 10)];
      assert r / 10 < 10;
    }
    assert |Digits(r)| <= 2;
  }

  /** `d` is a timer display that reads back as `e` seconds: two or more minute digits,
      a colon, exactly two second digits below 60, and minutes * 60 + seconds == e. */
  predicate ReadsBackAs(d: string, e: int)
  {
    |d| >= 5 && d[|d| - 3] == ':' &&
    AllDigits(d[..|d| - 3]) && AllDigits(d[|d| - 2..]) &&
    ParseDigits(d[|d| - 2..]) < 60 &&
    ParseDigits(d[..|d| - 3]) * 60 + ParseDigits(d[|d| - 2..]) == e
  }

  /** The pieces joined around a colon can be cut out again. */
  lemma SplitAtColon(m: string, s: string)
    requires |s| == 2
    ensures var d := m + ":" + s;
      |d| == |m| + 3 && d[..|d| - 3] == m && d[|d| - 3] == ':' && d[|d| - 2..] == s
  {
  }

  /** Once the clock has not gone backwards, the timer display reads back as the
      whole seconds elapsed since the start. */
  lemma FormatTimerReadsBack(nowMs: int, startMs: int)
    requires startMs <= nowMs
    ensures ReadsBackAs(FormatTimer(nowMs, startMs), Elapsed(nowMs, startMs))
  {
    var e := Elapsed(nowMs, startMs);
    var m, s := MinutesField(e), SecondsField(e);
    PaddedField(e / 60);
    SecondsFieldShape(e);
    var q, r := e / 60, e % 60;
    assert ParseDigits(m) == q && ParseDigits(s) == r;
    assert q * 60 + r == e;
    SplitAtColon(m, s);
  }

  /** The display reads 00:00 at the instant a recording starts. */
  lemma FormatTimerAtStart(t: int)
    ensures FormatTimer(t, t) == "00:00"
  {
  }

  /** Within one recording the elapsed seconds never decrease as the clock advances. */
  lemma ElapsedMonotone(startMs: int, t1: int, t2: int)
    requires t1 <= t2
    ensures Elapsed(t1, startMs) <= Elapsed(t2, startMs)
  {
  }

  /** When the clock reads earlier than the start, the fields are negative and the
      decomposition no longer holds: one second before the start shows "-1:-1". */
  lemma FormatTimerBeforeStart()
    ensures Elapsed(0, 1000) == -1
    ensures FormatTimer(0, 1000) == "-1:-1"
  {
  }
}
