/** The cron expressions made from the update interval, and how soon they run. */
module UpdateCheckCron {
  import opened Cron
  import opened Numbers
  import opened Text

  // ---- Expressions made from an interval

  function Clamp(n: int, low: int, high: int): int {
    if n < low then low else if n > high then high else n
  }

  /** `None` stands for a number that is not finite. */
  function IntervalOf(minutes: Option<real>): (m: int)
    ensures 15 <= m <= 1440
  {
    Clamp(if minutes.Some? then Round(minutes.value) else 120, 15, 24 * 60)
  }

  function HoursOf(m: int): (h: int)
    ensures 1 <= h <= 24
  {
    Clamp(Round(m as real / 60.0), 1, 24)
  }

  function CronFromUpdateInterval(minutes: Option<real>): string {
    var m := IntervalOf(minutes);
    if m < 60 then "*/" + Decimal(m) + " * * * *"
    else if HoursOf(m) >= 24 then "0 0 * * *"
    else "0 */" + Decimal(HoursOf(m)) + " * * *"
  }

  /** The longest wait between two runs. */
  function LongestWait(minutes: Option<real>): int {
    var m := IntervalOf(minutes);
    if m < 60 then m else 60 * HoursOf(m)
  }

  predicate Word(s: string) {
    s != "" && forall i :: 0 <= i < |s| ==> !IsSpace(s[i])
  }

  lemma WordsCons(word: string, rest: string)
    requires Word(word) && rest != "" && !IsSpace(rest[0])
    ensures Words(word + " " + rest) == [word] + Words(rest)
  {
    hide IsSpace;
    var s := word + " " + rest;
    assert IsSpace(' ') by { SpaceIsSpace(); }
    assert forall j :: 0 <= j < |word| ==> s[j] == word[j];
    assert s[|word|] == ' ';
    assert WordEnd(s) == |word|;
    assert s[..|word|] == word && s[|word| + 1..] == rest;
    assert TrimLeft(rest) == rest;
  }

  lemma SpaceIsSpace()
    ensures IsSpace(' ')
  {
  }

  lemma OneWord(word: string)
    requires Word(word)
    ensures Words(word) == [word]
  {
  }

  /** Five words with single spaces between them. */
  lemma FiveWords(a: string, b: string, c: string, d: string, e: string)
    requires Word(a) && Word(b) && Word(c) && Word(d) && Word(e)
    ensures Parse(a + " " + (b + " " + (c + " " + (d + " " + e)))) == Some(Fields(a, b, c, d, e))
  {
    hide Words, Trim, IsSpace;
    var de := d + " " + e;
    var cde := c + " " + de;
    var bcde := b + " " + cde;
    var s := a + " " + bcde;
    assert s[0] == a[0] && bcde[0] == b[0] && cde[0] == c[0] && de[0] == d[0];
    assert s[|s| - 1] == e[|e| - 1];
    TrimmedTrims(s);
    WordsCons(a, bcde);
    WordsCons(b, cde);
    WordsCons(c, de);
    WordsCons(d, e);
    OneWord(e);
  }

  lemma StepWord(m: nat)
    ensures Word("*/" + Decimal(m))
  {
    hide Decimal;
    StepChars(m);
  }

  lemma SimpleDays(f: Fields, t: int, cal: Calendar, other: OtherNumber)
    requires f.dom == "*" && f.month == "*" && f.dow == "*"
    ensures Accepts(f, t, cal, other)
       <==> Matches(f.minute, Minute(t), 0, 59, other) && Matches(f.hour, Hour(t), 0, 23, other)
  {
  }

  /** The next multiple at or after `u`. */
  lemma NextMultiple(u: nat, m: nat) returns (v: nat)
    requires m > 0
    ensures u <= v < u + m && v % m == 0
  {
    var q, r := u / m, u % m;
    assert u == q * m + r;
    if r == 0 {
      v := u;
    } else {
      v := (q + 1) * m;
      assert v == q * m + m;
      MultipleDivides(q + 1, m);
    }
  }

  lemma MultipleDivides(q: nat, m: nat)
    requires m > 0
    ensures q * m % m == 0
  {
    var d, e := q * m / m, q * m % m;
    assert q * m == d * m + e;
    assert (q - d) * m == e;
    if q > d {
      AtLeastOne(q - d, m);
    } else if q < d {
      AtLeastOne(d - q, m);
    }
  }

  lemma AtLeastOne(k: nat, m: nat)
    requires k >= 1
    ensures k * m >= m
  {
  }

  lemma MinuteHit(from: int, m: nat) returns (t: int)
    requires 0 < m < 60
    ensures from < t <= from + m && Minute(t) % m == 0
  {
    var u := Minute(from + 1);
    var v := NextMultiple(u, m);
    if v < 60 {
      t := from + 1 + (v - u);
      assert Minute(t) == v;
    } else {
      t := from + 1 + (60 - u);
      assert Minute(t) == 0;
    }
  }

  lemma HourHit(from: int, h: nat) returns (t: int)
    requires 0 < h <= 24
    ensures from < t <= from + 60 * h && Minute(t) == 0 && Hour(t) % h == 0
  {
    var start := from + 1;
    var d := start % 1440;
    var full := (d + 59) / 60;
    var v := NextMultiple(full, h);
    assert start == Day(start) * 1440 + d;
    if v < 24 {
      t := Day(start) * 1440 + 60 * v;
      assert t / 60 == Day(start) * 24 + v;
      assert Hour(t) == v;
    } else {
      t := (Day(start) + 1) * 1440;
      assert t / 60 == (Day(start) + 1) * 24;
      assert Hour(t) == 0;
    }
  }

  lemma PlainWords()
    ensures Word("*") && Word("0")
  {
  }

  lemma ParsedMinutes(m: nat)
    ensures Parse("*/" + Decimal(m) + " * * * *") == Some(Fields("*/" + Decimal(m), "*", "*", "*", "*"))
  {
    hide Parse, Decimal, Word;
    var step := "*/" + Decimal(m);
    PlainWords();
    StepWord(m);
    FiveWords(step, "*", "*", "*", "*");
    assert step + " * * * *" == step + " " + ("*" + " " + ("*" + " " + ("*" + " " + "*")));
  }

  lemma ParsedHours(m: nat)
    ensures Parse("0 */" + Decimal(m) + " * * *") == Some(Fields("0", "*/" + Decimal(m), "*", "*", "*"))
  {
    hide Parse, Decimal, Word;
    var step := "*/" + Decimal(m);
    PlainWords();
    StepWord(m);
    FiveWords("0", step, "*", "*", "*");
    assert "0 */" + Decimal(m) + " * * *" == "0" + " " + (step + " " + ("*" + " " + ("*" + " " + "*")));
  }

  lemma ParsedDaily()
    ensures Parse("0 0 * * *") == Some(Fields("0", "0", "*", "*", "*"))
  {
    hide Parse, Word;
    PlainWords();
    FiveWords("0", "0", "*", "*", "*");
    assert "0 0 * * *" == "0" + " " + ("0" + " " + ("*" + " " + ("*" + " " + "*")));
  }

  lemma ParsedInterval(minutes: Option<real>) returns (f: Fields)
    ensures Parse(CronFromUpdateInterval(minutes)) == Some(f)
    ensures f.dom == "*" && f.month == "*" && f.dow == "*"
    ensures var m := IntervalOf(minutes);
      if m < 60 then f.minute == "*/" + Decimal(m) && f.hour == "*"
      else f.minute == "0" && f.hour == (if HoursOf(m) >= 24 then "0" else "*/" + Decimal(HoursOf(m)))
  {
    hide Parse, Decimal, IntervalOf, HoursOf;
    var m := IntervalOf(minutes);
    if m < 60 {
      ParsedMinutes(m);
      f := Fields("*/" + Decimal(m), "*", "*", "*", "*");
    } else if HoursOf(m) >= 24 {
      ParsedDaily();
      f := Fields("0", "0", "*", "*", "*");
    } else {
      ParsedHours(HoursOf(m));
      f := Fields("0", "*/" + Decimal(HoursOf(m)), "*", "*", "*");
    }
  }

  /** Every interval's expression runs again within its interval, for every clock, calendar and number reader. */
  lemma IntervalRunsInTime(minutes: Option<real>, from: int, cal: Calendar, other: OtherNumber) returns (t: int)
    ensures Parse(CronFromUpdateInterval(minutes)).Some?
    ensures from < t <= from + LongestWait(minutes)
    ensures Accepts(Parse(CronFromUpdateInterval(minutes)).value, t, cal, other)
  {
    hide Parse, Matches, Decimal, IntervalOf, HoursOf, CronFromUpdateInterval;
    var f := ParsedInterval(minutes);
    var m := IntervalOf(minutes);
    if m < 60 {
      t := MinuteHit(from, m);
      StepField(m, Minute(t), 59, other);
      StarMatches(Hour(t), 0, 23, other);
    } else {
      var h := HoursOf(m);
      t := HourHit(from, h);
      ZeroField(Minute(t), 59, other);
      if h >= 24 {
        ZeroField(Hour(t), 23, other);
      } else {
        StepField(h, Hour(t), 23, other);
      }
    }
    SimpleDaysOf(f, t, cal, other);
  }

  lemma StarMatches(value: int, min: int, max: int, other: OtherNumber)
    ensures Matches("*", value, min, max, other)
  {
  }

  lemma SimpleDaysOf(f: Fields, t: int, cal: Calendar, other: OtherNumber)
    requires f.dom == "*" && f.month == "*" && f.dow == "*"
    requires Matches(f.minute, Minute(t), 0, 59, other) && Matches(f.hour, Hour(t), 0, 23, other)
    ensures Accepts(f, t, cal, other)
  {
    SimpleDays(f, t, cal, other);
  }

  /** The scan always finds the next run of such an expression, and no later than that. */
  method NextUpdateCheck(minutes: Option<real>, from: int, horizon: nat, cal: Calendar, other: OtherNumber)
    returns (next: Option<int>)
    requires LongestWait(minutes) <= horizon
    ensures next.Some? && from < next.value <= from + LongestWait(minutes)
  {
    hide Parse, Accepts, CronFromUpdateInterval, LongestWait;
    ghost var t := IntervalRunsInTime(minutes, from, cal, other);
    next := NextCronRun(CronFromUpdateInterval(minutes), from, horizon, cal, other);
  }
}
