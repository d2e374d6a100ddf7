/** Five-field cron expressions: the next run by a scan over minutes, and the expressions the settings generate. */
module Cron {
  import opened Numbers
  import opened Text

  /** Minutes since the epoch; days of 24 hours. */
  datatype Calendar = Calendar(dom: int -> int, month: int -> int, dow: int -> int)

  /** `Number` on text that is not plain digits; none when it is not finite. */
  type OtherNumber = string -> Option<real>

  // ---- Splitting

  function Split(s: string, c: char): (parts: seq<string>)
    ensures parts != []
    decreases |s|
  {
    var i := IndexOf(s, c);
    if i == |s| then [s] else [s[..i]] + Split(s[i + 1..], c)
  }

  function WordEnd(s: string): (i: nat)
    ensures i <= |s|
    ensures forall j :: 0 <= j < i ==> !IsSpace(s[j])
    ensures i < |s| ==> IsSpace(s[i])
  {
    if s == "" || IsSpace(s[0]) then 0 else 1 + WordEnd(s[1..])
  }

  /** `split(/\s+/)` */
  function Words(s: string): seq<string>
    decreases |s|
  {
    var i := WordEnd(s);
    if i == |s| then [s]
    else
      assert IsSpace(s[i..][0]);
      [s[..i]] + Words(TrimLeft(s[i + 1..]))
  }

  // ---- One field

  function Number(s: string, other: OtherNumber): Option<real> {
    if Digits(s) then Some(DecimalValue(s) as real) else other(s)
  }

  datatype Range = Range(low: real, high: real)

  function ParseRange(part: string, min: int, max: int, other: OtherNumber): Option<Range> {
    if '-' in part then
      var pieces := Split(part, '-');
      var a := Number(pieces[0], other);
      var b := if |pieces| > 1 then Number(pieces[1], other) else None;
      if a.None? || b.None? then None else Some(Range(Max(min as real, a.value), Min(max as real, b.value)))
    else
      var n := Number(part, other);
      if n.None? || n.value < min as real || n.value > max as real then None else Some(Range(n.value, n.value))
  }

  predicate StepBase(s: string) {
    || s == "*" || Digits(s)
    || (|Split(s, '-')| == 2 && Digits(Split(s, '-')[0]) && Digits(Split(s, '-')[1]))
  }

  /** `base/step` with digits for the step. */
  predicate IsStep(part: string) {
    |Split(part, '/')| == 2 && StepBase(Split(part, '/')[0]) && Digits(Split(part, '/')[1])
  }

  predicate Divides(step: nat, distance: real)
    requires step > 0
  {
    distance == distance.Floor as real && distance.Floor % step == 0
  }

  predicate StepMatches(base: string, step: nat, value: int, min: int, max: int, other: OtherNumber) {
    && step > 0
    && var range := if base == "*" then Some(Range(min as real, max as real)) else ParseRange(base, min, max, other);
      range.Some? && range.value.low <= value as real <= range.value.high
      && Divides(step, value as real - range.value.low)
  }

  predicate PartMatches(part: string, value: int, min: int, max: int, other: OtherNumber) {
    if IsStep(part) then
      StepMatches(Split(part, '/')[0], DecimalValue(Split(part, '/')[1]), value, min, max, other)
    else
      var range := ParseRange(part, min, max, other);
      range.Some? && range.value.low <= value as real <= range.value.high
  }

  predicate AnyMatches(parts: seq<string>, value: int, min: int, max: int, other: OtherNumber) {
    exists i :: 0 <= i < |parts| && PartMatches(parts[i], value, min, max, other)
  }

  predicate Matches(field: string, value: int, min: int, max: int, other: OtherNumber) {
    field == "*" || AnyMatches(Split(field, ','), value, min, max, other)
  }

  method FieldMatches(field: string, value: int, min: int, max: int, other: OtherNumber) returns (ok: bool)
    ensures ok == Matches(field, value, min, max, other)
  {
    hide ParseRange, StepMatches, IsStep, Split;
    if field == "*" {
      return true;
    }
    var parts := Split(field, ',');
    for k := 0 to |parts|
      invariant forall i :: 0 <= i < k ==> !PartMatches(parts[i], value, min, max, other)
    {
      if PartMatches(parts[k], value, min, max, other) {
        return true;
      }
    }
    return false;
  }

  // ---- Lists

  lemma SplitNone(s: string, c: char)
    requires forall j :: 0 <= j < |s| ==> s[j] != c
    ensures Split(s, c) == [s]
  {
  }

  lemma SplitCons(head: string, tail: string, c: char)
    requires forall j :: 0 <= j < |head| ==> head[j] != c
    ensures Split(head + [c] + tail, c) == [head] + Split(tail, c)
  {
    hide IndexOf;
    var s := head + [c] + tail;
    assert s[|head|] == c && forall j :: 0 <= j < |head| ==> s[j] == head[j];
    assert IndexOf(s, c) == |head|;
    assert s[..|head|] == head && s[|head| + 1..] == tail;
  }

  lemma {:induction false} SplitJoined(a: string, b: string, c: char)
    ensures Split(a + [c] + b, c) == Split(a, c) + Split(b, c)
    decreases |a|
  {
    hide IndexOf;
    var i := IndexOf(a, c);
    if i == |a| {
      SplitCons(a, b, c);
    } else {
      var tail := a[i + 1..] + [c] + b;
      assert a + [c] + b == a[..i] + [c] + tail;
      SplitCons(a[..i], tail, c);
      SplitJoined(a[i + 1..], b, c);
    }
  }

  lemma AnyOfJoined(x: seq<string>, y: seq<string>, value: int, min: int, max: int, other: OtherNumber)
    ensures AnyMatches(x + y, value, min, max, other)
       <==> AnyMatches(x, value, min, max, other) || AnyMatches(y, value, min, max, other)
  {
    hide PartMatches;
    var all := x + y;
    if i :| 0 <= i < |x| && PartMatches(x[i], value, min, max, other) {
      assert all[i] == x[i];
    }
    if i :| 0 <= i < |y| && PartMatches(y[i], value, min, max, other) {
      assert all[|x| + i] == y[i];
    }
    if i :| 0 <= i < |all| && PartMatches(all[i], value, min, max, other) {
      assert all[i] == if i < |x| then x[i] else y[i - |x|];
    }
  }

  /** A star by itself is no number, so as one part of a list it matches nothing. */
  lemma StarPart(value: int, min: int, max: int, other: OtherNumber)
    requires other("*").None?
    ensures !AnyMatches(Split("*", ','), value, min, max, other)
  {
    hide Split, DecimalValue;
    SplitNone("*", ',');
    SplitNone("*", '/');
    assert !IsDigit("*"[0]);
  }

  lemma WholeField(a: string, value: int, min: int, max: int, other: OtherNumber)
    requires other("*").None?
    ensures AnyMatches(Split(a, ','), value, min, max, other) <==> a != "*" && Matches(a, value, min, max, other)
  {
    hide AnyMatches, Split;
    StarPart(value, min, max, other);
  }

  /** A list matches what its two sides match, except that a side that is only a star matches nothing. */
  lemma ListIsUnion(a: string, b: string, value: int, min: int, max: int, other: OtherNumber)
    requires other("*").None?
    ensures Matches(a + "," + b, value, min, max, other)
       <==> (a != "*" && Matches(a, value, min, max, other)) || (b != "*" && Matches(b, value, min, max, other))
  {
    hide AnyMatches, Split, Matches;
    WholeField(a, value, min, max, other);
    WholeField(b, value, min, max, other);
    ListParts(a, b, value, min, max, other);
  }

  lemma ListParts(a: string, b: string, value: int, min: int, max: int, other: OtherNumber)
    ensures Matches(a + "," + b, value, min, max, other)
       <==> AnyMatches(Split(a, ','), value, min, max, other) || AnyMatches(Split(b, ','), value, min, max, other)
  {
    hide AnyMatches, Split;
    var field := a + "," + b;
    assert field[|a|] == ',';
    SplitJoined(a, b, ',');
    AnyOfJoined(Split(a, ','), Split(b, ','), value, min, max, other);
  }

  lemma ZeroField(value: int, max: nat, other: OtherNumber)
    ensures Matches("0", value, 0, max, other) <==> value == 0
  {
    SplitNone("0", ',');
    SplitNone("0", '/');
    ZeroValue();
    assert Split("0", ',')[0] == "0";
    assert PartMatches("0", value, 0, max, other) <==> value == 0;
  }

  lemma ZeroValue()
    ensures Digits("0") && DecimalValue("0") == 0
  {
    assert "0"[..0] == "";
  }

  lemma StepChars(m: nat)
    ensures var part := "*/" + Decimal(m);
      part[0] == '*' && part[1] == '/' && forall j :: 2 <= j < |part| ==> IsDigit(part[j])
  {
    hide Decimal;
    var digits := Decimal(m);
    var part := "*/" + digits;
    assert forall j :: 2 <= j < |part| ==> part[j] == digits[j - 2] && IsDigit(digits[j - 2]);
  }

  lemma StepParts(m: nat)
    ensures Split("*/" + Decimal(m), ',') == ["*/" + Decimal(m)]
    ensures Split("*/" + Decimal(m), '/') == ["*", Decimal(m)]
  {
    hide Decimal, Split;
    var digits := Decimal(m);
    StepChars(m);
    SplitNone("*/" + digits, ',');
    SplitNone(digits, '/');
    SplitCons("*", digits, '/');
    assert "*/" + digits == "*" + "/" + digits;
  }

  lemma DigitsOnly(n: nat)
    ensures Digits(Decimal(n))
    ensures forall j :: 0 <= j < |Decimal(n)| ==> Decimal(n)[j] != '-' && Decimal(n)[j] != ',' && Decimal(n)[j] != '/'
  {
    hide Decimal;
    var digits := Decimal(n);
    assert forall j :: 0 <= j < |digits| ==> IsDigit(digits[j]);
  }

  /** A range matches the values between its ends. */
  lemma RangeField(low: nat, high: nat, value: int, min: int, max: int, other: OtherNumber)
    requires min <= value <= max
    ensures Matches(Decimal(low) + "-" + Decimal(high), value, min, max, other) <==> low <= value <= high
  {
    hide Decimal, DecimalValue, Split, AllDigits;
    var a, b := Decimal(low), Decimal(high);
    var field := a + "-" + b;
    DigitsOnly(low);
    DigitsOnly(high);
    RangeChars(a, b);
    SplitNone(field, ',');
    SplitNone(field, '/');
    SplitCons(a, b, '-');
    SplitNone(b, '-');
    DecimalRoundTrip(low);
    DecimalRoundTrip(high);
    assert field[|a|] == '-' && [field][0] == field;
    assert Split(field, '-') == [a, b];
    assert PartMatches(field, value, min, max, other) <==> low <= value <= high;
  }

  lemma RangeChars(a: string, b: string)
    requires Digits(a) && Digits(b)
    ensures forall j :: 0 <= j < |a + "-" + b| ==> (a + "-" + b)[j] != ',' && (a + "-" + b)[j] != '/'
  {
    var field := a + "-" + b;
    forall j | 0 <= j < |field|
      ensures field[j] != ',' && field[j] != '/'
    {
      if j < |a| {
        assert field[j] == a[j] && IsDigit(a[j]);
      } else if j > |a| {
        assert field[j] == b[j - |a| - 1] && IsDigit(b[j - |a| - 1]);
      }
    }
  }

  /** A star with a step matches the values a whole number of steps above the smallest. */
  lemma StepField(m: nat, value: int, max: nat, other: OtherNumber)
    requires m > 0 && 0 <= value <= max
    ensures Matches("*/" + Decimal(m), value, 0, max, other) <==> value % m == 0
  {
    hide Split, Decimal, DecimalValue, ParseRange;
    StepParts(m);
    DecimalRoundTrip(m);
    var part := "*/" + Decimal(m);
    assert part[0] == '*' && part[1] == '/';
    assert [part][0] == part;
    assert PartMatches(part, value, 0, max, other) <==> value % m == 0;
  }

  // ---- One minute

  datatype Fields = Fields(minute: string, hour: string, dom: string, month: string, dow: string)

  function Minute(t: int): int {
    t % 60
  }

  function Hour(t: int): int {
    t / 60 % 24
  }

  function Day(t: int): int {
    t / 1440
  }

  predicate DayOfWeekMatches(f: Fields, dow: int, other: OtherNumber) {
    Matches(f.dow, dow, 0, 7, other) || (dow == 0 && Matches(f.dow, 7, 0, 7, other))
  }

  /** Both days constrained: either may match. */
  predicate DayMatches(f: Fields, day: int, cal: Calendar, other: OtherNumber) {
    && (f.dom != "*" && f.dow == "*" ==> Matches(f.dom, cal.dom(day), 1, 31, other))
    && (f.dom == "*" && f.dow != "*" ==> DayOfWeekMatches(f, cal.dow(day), other))
    && (f.dom != "*" && f.dow != "*" ==>
        Matches(f.dom, cal.dom(day), 1, 31, other) || DayOfWeekMatches(f, cal.dow(day), other))
  }

  predicate Accepts(f: Fields, t: int, cal: Calendar, other: OtherNumber) {
    && Matches(f.minute, Minute(t), 0, 59, other)
    && Matches(f.hour, Hour(t), 0, 23, other)
    && Matches(f.month, cal.month(Day(t)), 1, 12, other)
    && DayMatches(f, Day(t), cal, other)
  }

  function Parse(expression: string): Option<Fields> {
    var parts := Words(Trim(expression));
    if |parts| != 5 then None else Some(Fields(parts[0], parts[1], parts[2], parts[3], parts[4]))
  }

  /** The first accepted minute after `from`, within the horizon. */
  predicate Earliest(f: Fields, from: int, horizon: nat, t: int, cal: Calendar, other: OtherNumber) {
    && from < t <= from + horizon && Accepts(f, t, cal, other)
    && forall u :: from < u < t ==> !Accepts(f, u, cal, other)
  }

  predicate NoneWithin(f: Fields, from: int, horizon: nat, cal: Calendar, other: OtherNumber) {
    forall u :: from < u <= from + horizon ==> !Accepts(f, u, cal, other)
  }

  method NextCronRun(expression: string, from: int, horizon: nat, cal: Calendar, other: OtherNumber)
    returns (next: Option<int>)
    ensures Parse(expression).None? ==> next.None?
    ensures next.Some? ==> Earliest(Parse(expression).value, from, horizon, next.value, cal, other)
    ensures Parse(expression).Some? ==>
      (next.None? <==> NoneWithin(Parse(expression).value, from, horizon, cal, other))
  {
    hide Matches, Words, Trim;
    var fields := Parse(expression);
    if fields.None? {
      return None;
    }
    var f := fields.value;
    for i := 0 to horizon
      invariant forall u :: from < u <= from + i ==> !Accepts(f, u, cal, other)
    {
      var t := from + 1 + i;
      var minuteOk := FieldMatches(f.minute, Minute(t), 0, 59, other);
      var hourOk := FieldMatches(f.hour, Hour(t), 0, 23, other);
      var monthOk := FieldMatches(f.month, cal.month(Day(t)), 1, 12, other);
      var dayOk := CheckDay(f, Day(t), cal, other);
      if minuteOk && hourOk && monthOk && dayOk {
        return Some(t);
      }
    }
    return None;
  }

  method CheckDay(f: Fields, day: int, cal: Calendar, other: OtherNumber) returns (ok: bool)
    ensures ok == DayMatches(f, day, cal, other)
  {
    hide Matches;
    var domOk := FieldMatches(f.dom, cal.dom(day), 1, 31, other);
    var dow := cal.dow(day);
    var dowOk := FieldMatches(f.dow, dow, 0, 7, other);
    if !dowOk && dow == 0 {
      dowOk := FieldMatches(f.dow, 7, 0, 7, other);
    }
    if f.dom == "*" && f.dow == "*" {
      return true;
    }
    if f.dom != "*" && f.dow == "*" {
      return domOk;
    }
    if f.dom == "*" && f.dow != "*" {
      return dowOk;
    }
    return domOk || dowOk;
  }
}
