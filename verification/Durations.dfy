/** Durations as Go prints whole seconds and as it parses a text of whole numbers with units. */
module Durations {
  import opened Wrappers
  import opened Decimal

  function Hours(h: nat): string { if h > 0 then FormatInt(h) + "h" else "" }

  function Minutes(h: nat, m: nat): string { if h > 0 || m > 0 then FormatInt(m) + "m" else "" }

  /** Hours and minutes only from where they are needed. */
  function ClockText(h: nat, m: nat, s: nat): string { Hours(h) + Minutes(h, m) + (FormatInt(s) + "s") }

  /** A whole number of seconds. */
  function DurationText(seconds: nat): string { ClockText(seconds / 3600, seconds / 60 % 60, seconds % 60) }

  // ---------- Parsing ----------

  /** A text is read number by number, each followed by its unit; sum is what the finished pieces add up to. */
  datatype Scan = Bad | Scan(sum: int, num: nat, seen: bool, unit: string)

  const START := Scan(0, 0, false, "")

  function Scaled(n: nat, unit: string): Option<int> {
    if unit == "h" then Some(n * 3600 * SECOND)
    else if unit == "m" then Some(n * 60 * SECOND)
    else if unit == "s" then Some(n * SECOND)
    else if unit == "ms" then Some(n * MILLISECOND)
    else if unit == "us" then Some(n * MICROSECOND)
    else if unit == "ns" then Some(n)
    else None
  }

  /** The sum once the piece at hand is finished: it needs a unit, and one that is known. */
  function Finished(st: Scan): Option<int> {
    if st.Bad? || Scaled(st.num, st.unit).None? then None else Some(st.sum + Scaled(st.num, st.unit).value)
  }

  function Next(st: Scan, c: char): Scan {
    if st.Bad? || c == '.' then Bad
    else if !IsDigit(c) then if st.seen then st.(unit := st.unit + [c]) else Bad
    else if st.unit == "" then Scan(st.sum, st.num * 10 + DigitValue(c), true, "")
    else if Finished(st).None? then Bad
    else Scan(Finished(st).value, DigitValue(c), true, "")
  }

  function Read(st: Scan, t: string): Scan {
    if t == "" then st else Next(Read(st, t[..|t| - 1]), t[|t| - 1])
  }

  /** Nanoseconds, in 64 bits. Signs and fractions are not modelled. */
  function ParseDuration(t: string): Option<int> {
    if t == "0" then Some(0)
    else
      var v := Finished(Read(START, t));
      if v.Some? && v.value <= INT64_MAX then v else None
  }

  // ---------- What is printed is parsed back ----------

  lemma {:induction false} ReadJoined(st: Scan, a: string, b: string)
    ensures Read(st, a + b) == Read(Read(st, a), b)
  {
    if b == "" {
      assert a + b == a;
    } else {
      var n := |b| - 1;
      ReadJoined(st, a, b[..n]);
      assert (a + b)[..|a + b| - 1] == a + b[..n];
    }
  }

  lemma ReadOne(st: Scan, c: char)
    ensures Read(st, [c]) == Next(st, c)
  {
    assert [c][..0] == "";
  }

  /** Where a new number can begin, and what has been added up before it. */
  predicate Fresh(st: Scan, sum: int) {
    st.Scan? && if st.unit == "" then st.num == 0 && st.sum == sum else Finished(st) == Some(sum)
  }

  lemma {:induction false} ReadsNumber(st: Scan, n: nat, sum: int)
    requires Fresh(st, sum)
    ensures Read(st, Digits(n)) == Scan(sum, n, true, "")
  {
    if n < 10 {
      ReadOne(st, DigitChar(n));
    } else {
      ReadsNumber(st, n / 10, sum);
      ReadJoined(st, Digits(n / 10), [DigitChar(n % 10)]);
      ReadOne(Scan(sum, n / 10, true, ""), DigitChar(n % 10));
    }
  }

  /** A number and its unit. */
  lemma ReadsPiece(st: Scan, n: nat, unit: char, sum: int)
    requires Fresh(st, sum) && !IsDigit(unit) && unit != '.'
    ensures Read(st, FormatInt(n) + [unit]) == Scan(sum, n, true, [unit])
  {
    ReadsNumber(st, n, sum);
    ReadJoined(st, Digits(n), [unit]);
    ReadOne(Scan(sum, n, true, ""), unit);
    assert "" + [unit] == [unit];
  }

  /** Wherever a number can begin, the text adds v, and a number can begin after it. */
  ghost predicate Adds(t: string, v: int) {
    forall st, sum :: Fresh(st, sum) ==> Fresh(Read(st, t), sum + v)
  }

  lemma AddsNothing()
    ensures Adds("", 0)
  {
  }

  lemma PieceFresh(st: Scan, n: nat, unit: char, sum: int, v: int, t: string)
    requires Fresh(st, sum) && Scaled(n, [unit]) == Some(v) && !IsDigit(unit) && unit != '.'
             && t == FormatInt(n) + [unit]
    ensures Fresh(Read(st, t), sum + v)
  {
    ReadsPiece(st, n, unit, sum);
    assert Finished(Scan(sum, n, true, [unit])) == Some(sum + v);
  }

  lemma AddsPiece(n: nat, unit: char, v: int, t: string)
    requires Scaled(n, [unit]) == Some(v) && !IsDigit(unit) && unit != '.' && t == FormatInt(n) + [unit]
    ensures Adds(t, v)
  {
    forall st, sum | Fresh(st, sum) ensures Fresh(Read(st, t), sum + v) {
      PieceFresh(st, n, unit, sum, v, t);
    }
  }

  lemma AddsBoth(a: string, b: string, t: string, v: int, w: int)
    requires Adds(a, v) && Adds(b, w) && t == a + b
    ensures Adds(t, v + w)
  {
    forall st, sum | Fresh(st, sum) ensures Fresh(Read(st, t), sum + (v + w)) {
      ReadJoined(st, a, b);
      assert Fresh(Read(st, a), sum + v);
    }
  }

  lemma HoursAdd(h: nat)
    ensures Adds(Hours(h), h * 3600 * SECOND)
  {
    if h > 0 { AddsPiece(h, 'h', h * 3600 * SECOND, Hours(h)); } else { AddsNothing(); }
  }

  lemma MinutesAdd(h: nat, m: nat)
    ensures Adds(Minutes(h, m), m * 60 * SECOND)
  {
    if h > 0 || m > 0 { AddsPiece(m, 'm', m * 60 * SECOND, Minutes(h, m)); } else { AddsNothing(); }
  }

  lemma ThreeAdd(a: string, b: string, c: string, x: int, y: int, z: int)
    requires Adds(a, x) && Adds(b, y) && Adds(c, z)
    ensures Adds(a + b + c, x + y + z)
  {
    AddsBoth(a, b, a + b, x, y);
    AddsBoth(a + b, c, a + b + c, x + y, z);
  }

  lemma ClockAdds(h: nat, m: nat, s: nat)
    ensures Adds(ClockText(h, m, s), h * 3600 * SECOND + m * 60 * SECOND + s * SECOND)
  {
    HoursAdd(h);
    MinutesAdd(h, m);
    AddsPiece(s, 's', s * SECOND, FormatInt(s) + "s");
    ThreeAdd(Hours(h), Minutes(h, m), FormatInt(s) + "s", h * 3600 * SECOND, m * 60 * SECOND, s * SECOND);
  }

  /** A text that adds v and ends in a unit is read as v. */
  lemma AddsReads(t: string, v: int)
    requires Adds(t, v) && t != "" && t[|t| - 1] == 's'
    ensures Finished(Read(START, t)) == Some(v) && t != "0"
  {
    assert Fresh(START, 0);
    assert Fresh(Read(START, t), 0 + v);
  }

  lemma ClockTextEnds(h: nat, m: nat, s: nat)
    ensures var t := ClockText(h, m, s); t != "" && t[|t| - 1] == 's'
  {
  }

  lemma HoursMinutesSeconds(n: nat)
    ensures n == n / 3600 * 3600 + n / 60 % 60 * 60 + n % 60
  {
    assert n / 60 / 60 == n / 3600;
  }

  lemma ParseOfClock(h: nat, m: nat, s: nat, n: nat)
    requires n == h * 3600 + m * 60 + s
    ensures ParseDuration(ClockText(h, m, s)) == if n * SECOND <= INT64_MAX then Some(n * SECOND) else None
  {
    ClockAdds(h, m, s);
    ClockTextEnds(h, m, s);
    AddsReads(ClockText(h, m, s), h * 3600 * SECOND + m * 60 * SECOND + s * SECOND);
  }

  /** Every number of seconds that 64 bits of nanoseconds hold. */
  lemma ParseOfText(n: nat)
    ensures ParseDuration(DurationText(n)) == if n * SECOND <= INT64_MAX then Some(n * SECOND) else None
  {
    HoursMinutesSeconds(n);
    ParseOfClock(n / 3600, n / 60 % 60, n % 60, n);
  }
}
