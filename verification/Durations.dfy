/** Decimal numbers, and the printing and parsing of durations (src/config.rs:438-466). */
module Durations {
  import opened Wrappers
  import opened Marker

  const U64_MAX: nat := 0xFFFF_FFFF_FFFF_FFFF

  predicate IsDigit(c: char) { '0' <= c <= '9' }

  function Digit(d: nat): (c: char)
    requires d < 10
    ensures IsDigit(c)
  {
    '0' + d as char
  }

  function Decimal(n: nat): (s: Bytes)
    ensures s != [] && forall c :: c in s ==> IsDigit(c)
  {
    if n < 10 then [Digit(n)] else Decimal(n / 10) + [Digit(n % 10)]
  }

  function DigitValue(c: char): nat
    requires IsDigit(c)
  {
    c as int - '0' as int
  }

  function Value(digits: Bytes): nat
    requires forall c :: c in digits ==> IsDigit(c)
  {
    if digits == [] then 0
    else
      var last := digits[|digits| - 1];
      assert last in digits;
      10 * Value(digits[..|digits| - 1]) + DigitValue(last)
  }

  /** What is printed reads back, so distinct numbers are printed differently. */
  lemma {:induction false} DecimalReadsBack(n: nat)
    ensures Value(Decimal(n)) == n
  {
    if n >= 10 {
      DecimalReadsBack(n / 10);
      assert Decimal(n)[..|Decimal(n)| - 1] == Decimal(n / 10);
    }
  }

  lemma DecimalInjective(m: nat, n: nat)
    ensures Decimal(m) == Decimal(n) <==> m == n
  {
    DecimalReadsBack(m);
    DecimalReadsBack(n);
  }

  /** A duration: whole seconds and the nanoseconds below one. */
  datatype Duration = Duration(secs: nat, nanos: nat)

  predicate IsDuration(d: Duration) { d.secs <= U64_MAX && d.nanos < 1_000_000_000 }

  function Print(d: Duration): Bytes {
    Decimal(d.secs) + "s"
  }

  datatype Parse = Parsed(d: Duration) | Rejected | Panics

  /** ASCII white space. */
  predicate IsSpace(c: char) { c in " \t\n\r" || c == '\U{0B}' || c == '\U{0C}' }

  function TrimStart(s: Bytes): Bytes {
    if s != [] && IsSpace(s[0]) then TrimStart(s[1..]) else s
  }

  function TrimEnd(s: Bytes): Bytes {
    if s != [] && IsSpace(s[|s| - 1]) then TrimEnd(s[..|s| - 1]) else s
  }

  function Trim(s: Bytes): Bytes { TrimEnd(TrimStart(s)) }

  predicate AllDigits(s: Bytes) { forall c :: c in s ==> IsDigit(c) }

  function DigitRun(s: Bytes): (n: nat)
    ensures n <= |s| && AllDigits(s[..n]) && (n < |s| ==> !IsDigit(s[n]))
  {
    if s == [] || !IsDigit(s[0]) then 0
    else
      var n := DigitRun(s[1..]);
      assert s[..n + 1] == [s[0]] + s[1..][..n];
      n + 1
  }

  function Scaled(value: nat, factor: nat): nat {
    if value * factor > U64_MAX then U64_MAX else value * factor
  }

  /** The split index falls back to the length of the untrimmed text, which may lie past the end. */
  function ParseDuration(raw: Bytes): Parse {
    var t := Trim(raw);
    var run := DigitRun(t);
    var at := if run < |t| then run else |raw|;
    if at > |t| then Panics
    else
      var unit := t[at..];
      if run == 0 || Value(t[..run]) > U64_MAX then Rejected
      else if unit == "s" then Parsed(Duration(Value(t[..run]), 0))
      else if unit == "m" then Parsed(Duration(Scaled(Value(t[..run]), 60), 0))
      else if unit == "h" then Parsed(Duration(Scaled(Value(t[..run]), 3600), 0))
      else Rejected
  }

  lemma {:induction false} TrimStartShrinks(s: Bytes)
    ensures |TrimStart(s)| <= |s|
  {
    if s != [] && IsSpace(s[0]) {
      TrimStartShrinks(s[1..]);
    }
  }

  lemma {:induction false} TrimEndShrinks(s: Bytes)
    ensures |TrimEnd(s)| <= |s|
  {
    if s != [] && IsSpace(s[|s| - 1]) {
      TrimEndShrinks(s[..|s| - 1]);
    }
  }

  ghost predicate AllSpace(s: Bytes) {
    forall c :: c in s ==> c == ' ' || c == '\t' || c == '\n' || c == '\r' || c == '\U{0B}' || c == '\U{0C}'
  }

  lemma {:induction false} TrimStartCuts(s: Bytes) returns (front: Bytes)
    ensures s == front + TrimStart(s) && AllSpace(front)
    ensures var t := TrimStart(s); t != [] ==> !AllSpace([t[0]])
  {
    front := [];
    if s != [] && IsSpace(s[0]) {
      front := TrimStartCuts(s[1..]);
      front := [s[0]] + front;
    } else if s != [] {
      assert s[0] in [s[0]];
    }
  }

  lemma {:induction false} TrimEndCuts(s: Bytes) returns (back: Bytes)
    ensures s == TrimEnd(s) + back && AllSpace(back)
    ensures var t := TrimEnd(s); t != [] ==> !AllSpace([t[|t| - 1]])
  {
    back := [];
    if s != [] && IsSpace(s[|s| - 1]) {
      back := TrimEndCuts(s[..|s| - 1]);
      back := back + [s[|s| - 1]];
    } else if s != [] {
      assert s[|s| - 1] in [s[|s| - 1]];
    }
  }

  /** Trimming takes away white space at both ends, and all of it. */
  lemma TrimCuts(s: Bytes) returns (front: Bytes, back: Bytes)
    ensures s == front + Trim(s) + back && AllSpace(front) && AllSpace(back)
    ensures var t := Trim(s); t != [] ==> !AllSpace([t[0]]) && !AllSpace([t[|t| - 1]])
  {
    front := TrimStartCuts(s);
    back := TrimEndCuts(TrimStart(s));
    var t := Trim(s);
    hide TrimStart, TrimEnd, AllSpace;
    assert t != [] ==> TrimStart(s)[0] == t[0];
  }

  /** Parsing panics exactly on digits, or nothing, with white space around them. */
  lemma PanicsExactly(raw: Bytes)
    ensures ParseDuration(raw) == Panics <==> AllDigits(Trim(raw)) && |Trim(raw)| < |raw|
  {
    TrimStartShrinks(raw);
    TrimEndShrinks(TrimStart(raw));
    var t := Trim(raw);
    var run := DigitRun(t);
    assert t[..|t|] == t;
    assert run < |t| ==> t[run] in t;
  }

  lemma {:induction false} RunOf(t: Bytes, n: nat)
    requires n <= |t| && AllDigits(t[..n]) && (n < |t| ==> !IsDigit(t[n]))
    ensures DigitRun(t) == n
    decreases n
  {
    if n > 0 {
      assert t[..n][0] == t[0] && t[0] in t[..n];
      forall c | c in t[1..][..n - 1]
        ensures c in t[..n]
      {
        var i :| 0 <= i < n - 1 && t[1..][..n - 1][i] == c;
        assert t[..n][i + 1] == c;
      }
      RunOf(t[1..], n - 1);
    }
  }

  /** Five with a space in front of it, for one. */
  lemma SpacedDigitPanics()
    ensures ParseDuration(" 5") == Panics
  {
    assert " 5"[1..] == "5" && TrimStart(" 5") == TrimStart("5") == "5";
    assert Trim(" 5") == "5";
    hide ParseDuration, Trim;
    PanicsExactly(" 5");
  }

  /** A printed duration reads back as itself exactly when it has whole seconds. */
  lemma PrintedReadsBack(d: Duration)
    requires IsDuration(d)
    ensures ParseDuration(Print(d)) == Parsed(Duration(d.secs, 0))
    ensures ParseDuration(Print(d)) == Parsed(d) <==> d.nanos == 0
  {
    var digits, raw := Decimal(d.secs), Print(d);
    assert digits[0] in digits && !IsSpace(raw[0]) && raw[|raw| - 1] == 's';
    assert Trim(raw) == raw;
    assert raw[..|digits|] == digits && raw[|digits|..] == "s";
    RunOf(raw, |digits|);
    DecimalReadsBack(d.secs);
  }

  /** Seconds in a unit. */
  function SecondsIn(unit: char): nat {
    match unit
    case 's' => 1
    case 'm' => 60
    case 'h' => 60 * 60
    case _ => 0
  }

  /** A text of digits and one unit, and the whole seconds that it means, at most 2^64 - 1. */
  ghost predicate Means(t: Bytes, d: Duration) {
    |t| >= 2 &&
    var digits, unit := t[..|t| - 1], t[|t| - 1];
    && AllDigits(digits) && Value(digits) <= U64_MAX && SecondsIn(unit) > 0
    && d.nanos == 0
    && (d.secs == Value(digits) * SecondsIn(unit) || d.secs == U64_MAX < Value(digits) * SecondsIn(unit))
    && d.secs <= U64_MAX
  }

  /** White space around it aside, exactly the texts of digits and one of the three units are read. */
  lemma ParsesExactly(raw: Bytes, d: Duration)
    ensures ParseDuration(raw) == Parsed(d) <==> Means(Trim(raw), d)
  {
    var t := Trim(raw);
    TrimStartShrinks(raw);
    TrimEndShrinks(TrimStart(raw));
    assert |t| <= |raw|;
    var run := DigitRun(t);
    hide Trim, Value;
    if Means(t, d) {
      RunOf(t, |t| - 1);
      assert t[|t| - 1..] == [t[|t| - 1]];
    }
    if ParseDuration(raw).Parsed? {
      assert t[|t|..] == [];
      assert run < |t|;
      assert t[run..] == "s" || t[run..] == "m" || t[run..] == "h";
      assert run == |t| - 1;
      assert t[run..][0] == t[run];
    }
  }
}
