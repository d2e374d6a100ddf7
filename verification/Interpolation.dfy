/** Finding, previewing and linting `${VAR}` references in a Compose file. */
module Interpolation {
  import opened Text
  import opened EnvFile

  datatype Ref = Ref(name: string, from: nat, to: nat, hasDefault: bool)

  // ---- Searching

  function IndexFrom(s: string, c: char, i: nat): (k: nat)
    requires i <= |s|
    ensures i <= k <= |s|
    ensures forall j :: i <= j < k ==> s[j] != c
    ensures k < |s| ==> s[k] == c
    decreases |s| - i
  {
    if i == |s| || s[i] == c then i else IndexFrom(s, c, i + 1)
  }

  predicate DefaultAt(s: string, k: int) {
    0 <= k < |s| - 1 && s[k] == ':' && s[k + 1] == '-'
  }

  /** The first `:-`, or the length when there is none. */
  function DefaultIndex(s: string, i: nat): (k: nat)
    requires i <= |s|
    ensures i <= k <= |s|
    ensures forall j :: i <= j < k ==> !DefaultAt(s, j)
    ensures k < |s| ==> DefaultAt(s, k)
    decreases |s| - i
  {
    if i == |s| || DefaultAt(s, i) then i else DefaultIndex(s, i + 1)
  }

  // ---- References by position

  predicate OpensBrace(text: string, i: int) {
    0 <= i < |text| - 1 && text[i] == '$' && text[i + 1] == '{'
  }

  predicate OpensBare(text: string, i: int) {
    0 <= i < |text| - 1 && text[i] == '$' && VariableStart(text[i + 1])
  }

  function BraceName(inner: string): string {
    Trim(inner[..DefaultIndex(inner, 0)])
  }

  /** The reference that starts at `i`, whatever comes before. */
  function RefAt(text: string, i: nat): (r: Option<Ref>)
    ensures r.Some? ==> r.value.from == i && i < r.value.to <= |text|
  {
    if OpensBrace(text, i) then
      var close := IndexFrom(text, '}', i + 2);
      if close == |text| then None
      else
        var inner := text[i + 2..close];
        if VariableName(BraceName(inner))
        then Some(Ref(BraceName(inner), i, close + 1, DefaultIndex(inner, 0) < |inner|))
        else None
    else if OpensBare(text, i) then
      var end := RunEnd(text, i + 1, VariableChar);
      Some(Ref(text[i + 1..end], i, end, false))
    else None
  }

  /** `p` lies behind a `${` that no `}` has closed before `p`. */
  ghost predicate Covered(text: string, p: nat) {
    exists q: nat :: q < p && OpensBrace(text, q) && OpenUntil(text, q, p)
  }

  predicate OpenUntil(text: string, q: nat, p: nat) {
    forall j :: q + 2 <= j < p && j < |text| ==> text[j] != '}'
  }

  // ---- The scan

  /** Where the scan goes on after position `i`; an unclosed `${` ends it. */
  function Next(text: string, i: nat): (n: nat)
    requires i < |text|
    ensures i < n <= |text|
  {
    if OpensBrace(text, i) then
      var close := IndexFrom(text, '}', i + 2);
      if close == |text| then |text| else close + 1
    else if OpensBare(text, i) then RunEnd(text, i + 1, VariableChar)
    else i + 1
  }

  function Found(text: string, i: nat): seq<Ref> {
    match RefAt(text, i)
    case Some(r) => [r]
    case None => []
  }

  function Scan(text: string, i: nat): seq<Ref>
    requires i <= |text|
    decreases |text| - i
  {
    if i == |text| then [] else Found(text, i) + Scan(text, Next(text, i))
  }

  lemma PlainStep(text: string, i: nat)
    requires i < |text| && !OpensBrace(text, i) && !OpensBare(text, i)
    ensures Scan(text, i) == Scan(text, i + 1)
  {
  }

  lemma UnclosedStep(text: string, i: nat)
    requires OpensBrace(text, i) && IndexFrom(text, '}', i + 2) == |text|
    ensures Scan(text, i) == []
  {
    assert Found(text, i) == [] && Next(text, i) == |text|;
  }

  lemma BraceStep(text: string, i: nat, close: nat)
    requires OpensBrace(text, i) && close == IndexFrom(text, '}', i + 2) < |text|
    ensures var inner := text[i + 2..close];
      var ref := Ref(BraceName(inner), i, close + 1, DefaultIndex(inner, 0) < |inner|);
      Scan(text, i) == (if VariableName(ref.name) then [ref] else []) + Scan(text, close + 1)
  {
    hide VariableName, BraceName, IndexFrom, DefaultIndex;
  }

  lemma BareStep(text: string, i: nat, end: nat)
    requires OpensBare(text, i) && end == RunEnd(text, i + 1, VariableChar)
    ensures Scan(text, i) == [Ref(text[i + 1..end], i, end, false)] + Scan(text, end)
  {
    hide RunEnd;
  }

  lemma RunStep(text: string, i: nat)
    requires i <= |text|
    ensures RunEnd(text, i, VariableChar)
         == if i < |text| && VariableChar(text[i]) then RunEnd(text, i + 1, VariableChar) else i
  {
    hide VariableChar;
  }

  lemma AddRef(refs: seq<Ref>, ref: Ref, rest: seq<Ref>)
    ensures refs + ([ref] + rest) == refs + [ref] + rest
  {
  }

  /** The source's loop. */
  method FindInterpolationRefs(text: string) returns (refs: seq<Ref>)
    ensures refs == Scan(text, 0)
  {
    hide Scan, VariableName, VariableStart, VariableChar, Trim, IndexFrom, DefaultIndex, RunEnd;
    refs := [];
    var i := 0;
    while i < |text|
      invariant 0 <= i <= |text|
      invariant refs + Scan(text, i) == Scan(text, 0)
    {
      if text[i] != '$' {
        PlainStep(text, i);
        i := i + 1;
      } else if i + 1 < |text| && text[i + 1] == '{' {
        var close := IndexFrom(text, '}', i + 2);
        if close == |text| {
          UnclosedStep(text, i);
          i := |text|;
          break;
        }
        BraceStep(text, i, close);
        var inner := text[i + 2..close];
        var defAt := DefaultIndex(inner, 0);
        var name := Trim(inner[..defAt]);
        if VariableName(name) {
          AddRef(refs, Ref(name, i, close + 1, defAt < |inner|), Scan(text, close + 1));
          refs := refs + [Ref(name, i, close + 1, defAt < |inner|)];
        }
        i := close + 1;
      } else if i + 1 < |text| && VariableStart(text[i + 1]) {
        BareStep(text, i, RunEnd(text, i + 1, VariableChar));
        var from := i;
        i := i + 1;
        while i < |text| && VariableChar(text[i])
          invariant from < i <= |text|
          invariant RunEnd(text, from + 1, VariableChar) == RunEnd(text, i, VariableChar)
        {
          RunStep(text, i);
          i := i + 1;
        }
        RunStep(text, i);
        AddRef(refs, Ref(text[from + 1..i], from, i, false), Scan(text, i));
        refs := refs + [Ref(text[from + 1..i], from, i, false)];
      } else {
        PlainStep(text, i);
        i := i + 1;
      }
    }
    EndOfScan(text);
  }

  lemma EndOfScan(text: string)
    ensures Scan(text, |text|) == []
  {
  }

  // ---- What the scan finds

  lemma NextIsUncovered(text: string, i: nat)
    requires i < |text| && !Covered(text, i)
    ensures Next(text, i) < |text| ==> !Covered(text, Next(text, i))
  {
    var n := Next(text, i);
    forall q: nat | n < |text| && q < n && OpensBrace(text, q)
      ensures !OpenUntil(text, q, n)
    {
      if q < i {
        assert !OpenUntil(text, q, i);
      }
    }
  }

  lemma NothingBetween(text: string, i: nat, p: nat)
    requires i < |text| && i < p < Next(text, i)
    ensures RefAt(text, p) == None || Covered(text, p)
  {
    if OpensBrace(text, i) {
      assert OpenUntil(text, i, p);
    }
  }

  /** A reference is found exactly when one starts there and no open `${` covers it. */
  lemma {:induction false} ScanFindsExactly(text: string, i: nat, r: Ref)
    requires i <= |text| && (i < |text| ==> !Covered(text, i))
    ensures r in Scan(text, i)
       <==> i <= r.from < |text| && RefAt(text, r.from) == Some(r) && !Covered(text, r.from)
    decreases |text| - i
  {
    hide RefAt, Next, Covered;
    if i < |text| {
      NextIsUncovered(text, i);
      ScanFindsExactly(text, Next(text, i), r);
      if i < r.from < Next(text, i) {
        NothingBetween(text, i, r.from);
      }
    }
  }

  lemma FindsExactly(text: string, r: Ref)
    ensures r in Scan(text, 0)
       <==> r.from < |text| && RefAt(text, r.from) == Some(r) && !Covered(text, r.from)
  {
    ScanFindsExactly(text, 0, r);
  }

  /** Spans in order, none touching the part before `i`. */
  predicate Ordered(text: string, refs: seq<Ref>, i: nat) {
    && (forall k :: 0 <= k < |refs| ==> i <= refs[k].from < refs[k].to <= |text|)
    && (forall k, l :: 0 <= k < l < |refs| ==> refs[k].to <= refs[l].from)
  }

  /** Each is the reference that starts at its own position, with a proper name. */
  predicate Genuine(text: string, refs: seq<Ref>) {
    forall r <- refs :: r.from < |text| && RefAt(text, r.from) == Some(r) && VariableName(r.name)
  }

  lemma OrderedCons(text: string, r: Ref, rest: seq<Ref>, i: nat)
    requires i <= r.from < r.to <= |text| && Ordered(text, rest, r.to)
    ensures Ordered(text, [r] + rest, i)
  {
    var refs := [r] + rest;
    assert forall k :: 0 < k < |refs| ==> refs[k] == rest[k - 1];
  }

  lemma OrderedFrom(text: string, refs: seq<Ref>, i: nat, j: nat)
    requires j <= i && Ordered(text, refs, i)
    ensures Ordered(text, refs, j)
  {
  }

  lemma OrderedTail(text: string, refs: seq<Ref>, i: nat)
    requires refs != [] && Ordered(text, refs, i)
    ensures i <= refs[0].from < refs[0].to <= |text|
    ensures Ordered(text, refs[1..], refs[0].to)
  {
    var rest := refs[1..];
    assert forall k :: 0 <= k < |rest| ==> rest[k] == refs[k + 1];
  }

  lemma {:induction false} ScanIsOrdered(text: string, i: nat)
    requires i <= |text|
    ensures Ordered(text, Scan(text, i), i)
    ensures Genuine(text, Scan(text, i))
    decreases |text| - i
  {
    hide RefAt, Next, VariableName, Ordered;
    if i < |text| {
      var n := Next(text, i);
      ScanIsOrdered(text, n);
      FoundHere(text, i);
      match RefAt(text, i)
      case Some(r) => OrderedCons(text, r, Scan(text, n), i);
      case None =>
        assert Scan(text, i) == Scan(text, n);
        OrderedFrom(text, Scan(text, n), n, i);
    } else {
      EmptyOrdered(text, i);
    }
  }

  lemma EmptyOrdered(text: string, i: nat)
    ensures Ordered(text, [], i)
  {
  }

  lemma FoundHere(text: string, i: nat)
    requires i < |text|
    ensures RefAt(text, i).Some? ==>
      RefAt(text, i).value.to == Next(text, i) && VariableName(RefAt(text, i).value.name)
  {
    if RefAt(text, i).Some? && !OpensBrace(text, i) {
      assert RunEnd(text, i + 1, VariableChar) > i + 1;
    }
  }

  // ---- The preview

  /** `raw.indexOf(':-') + 2 .. -1`, or the text itself. */
  function Fallback(raw: string): string {
    var k := DefaultIndex(raw, 0);
    if k < |raw| then (if k + 2 <= |raw| - 1 then raw[k + 2..|raw| - 1] else "") else raw
  }

  function Replacement(text: string, env: map<string, string>, r: Ref): string
    requires r.from <= r.to <= |text|
  {
    if r.name in env then env[r.name] else Fallback(text[r.from..r.to])
  }

  /** The text from `i` on, read once from left to right. */
  function Expand(text: string, env: map<string, string>, i: nat): string
    requires i <= |text|
    decreases |text| - i
  {
    if i == |text| then ""
    else
      (match RefAt(text, i) case Some(r) => Replacement(text, env, r) case None => text[i..Next(text, i)])
      + Expand(text, env, Next(text, i))
  }

  function Render(text: string, env: map<string, string>, refs: seq<Ref>, i: nat): string
    requires i <= |text| && Ordered(text, refs, i)
    decreases |refs|
  {
    if refs == [] then text[i..]
    else
      text[i..refs[0].from] + (Replacement(text, env, refs[0]) + Render(text, env, refs[1..], refs[0].to))
  }

  lemma Regroup(a: string, b: string, c: string)
    ensures (a + b) + c == a + (b + c)
  {
  }

  lemma RenderPrefix(text: string, env: map<string, string>, refs: seq<Ref>, i: nat, j: nat)
    requires i <= j <= |text| && Ordered(text, refs, i) && Ordered(text, refs, j)
    ensures Render(text, env, refs, i) == text[i..j] + Render(text, env, refs, j)
  {
    hide Replacement;
    if refs == [] {
      assert text[i..] == text[i..j] + text[j..];
    } else {
      hide Ordered;
      OrderedTail(text, refs, j);
      var tail := Replacement(text, env, refs[0]) + Render(text, env, refs[1..], refs[0].to);
      assert text[i..refs[0].from] == text[i..j] + text[j..refs[0].from];
      Regroup(text[i..j], text[j..refs[0].from], tail);
    }
  }

  lemma NothingToRender(text: string, env: map<string, string>)
    ensures Ordered(text, Scan(text, |text|), |text|) && Render(text, env, Scan(text, |text|), |text|) == ""
  {
  }

  lemma {:induction false} RenderIsExpand(text: string, env: map<string, string>, i: nat)
    requires i <= |text|
    ensures Ordered(text, Scan(text, i), i)
    ensures Render(text, env, Scan(text, i), i) == Expand(text, env, i)
    decreases |text| - i
  {
    hide RefAt, Next, Replacement, Ordered, Render;
    ScanIsOrdered(text, i);
    if i == |text| {
      NothingToRender(text, env);
    } else {
      var n := Next(text, i);
      RenderIsExpand(text, env, n);
      FoundHere(text, i);
      if RefAt(text, i).None? {
        assert Scan(text, i) == Scan(text, n);
        RenderPrefix(text, env, Scan(text, n), i, n);
      } else {
        RenderFirst(text, env, Scan(text, i), RefAt(text, i).value, Scan(text, n), i);
      }
    }
  }

  lemma RenderFirst(text: string, env: map<string, string>, refs: seq<Ref>, ref: Ref, rest: seq<Ref>, i: nat)
    requires i <= |text| && ref.from == i && refs == [ref] + rest && Ordered(text, refs, i)
    ensures i <= ref.to <= |text| && Ordered(text, rest, ref.to)
    ensures Render(text, env, refs, i) == Replacement(text, env, ref) + Render(text, env, rest, ref.to)
  {
    hide Replacement, Ordered;
    OrderedTail(text, refs, i);
    assert refs[1..] == rest && text[i..i] == "";
  }

  predicate Unset(text: string, env: map<string, string>, r: Ref)
    requires r.from <= r.to <= |text|
  {
    r.name !in env && DefaultIndex(text[r.from..r.to], 0) == r.to - r.from
  }

  predicate InText(text: string, refs: seq<Ref>) {
    forall r <- refs :: r.from <= r.to <= |text|
  }

  /** Names in the order the backwards loop first meets them. */
  function Missing(text: string, env: map<string, string>, refs: seq<Ref>): seq<string>
    requires InText(text, refs)
  {
    if refs == [] then []
    else
      var later := Missing(text, env, refs[1..]);
      if Unset(text, env, refs[0]) && refs[0].name !in later then later + [refs[0].name] else later
  }

  /** One splice: the text before the reference is still the original's. */
  lemma SpliceStep(text: string, env: map<string, string>, refs: seq<Ref>, preview: string)
    requires refs != [] && Ordered(text, refs, 0)
    requires Ordered(text, refs[1..], 0) && preview == Render(text, env, refs[1..], 0)
    ensures refs[0].from <= refs[0].to <= |preview| && refs[0].to <= |text|
    ensures preview[..refs[0].from] + Replacement(text, env, refs[0]) + preview[refs[0].to..]
         == Render(text, env, refs, 0)
  {
    hide Replacement, Ordered;
    var r, rest := refs[0], refs[1..];
    OrderedTail(text, refs, 0);
    RenderPrefix(text, env, rest, 0, r.to);
    var tail := Render(text, env, rest, r.to);
    assert preview == text[0..r.to] + tail;
    assert preview[..r.from] == text[0..r.from] && preview[r.to..] == tail;
  }

  method PreviewComposeInterpolation(text: string, env: map<string, string>)
    returns (preview: string, missing: seq<string>)
    ensures preview == Expand(text, env, 0)
    ensures InText(text, Scan(text, 0)) && missing == Missing(text, env, Scan(text, 0))
  {
    hide Scan, Fallback, Expand, Render, Ordered;
    ScanIsOrdered(text, 0);
    missing := [];
    var refs := FindInterpolationRefs(text);
    preview := text;
    var k := |refs|;
    assert refs[k..] == [];
    EmptyRender(text, env);
    while k > 0
      invariant 0 <= k <= |refs|
      invariant Ordered(text, refs[k..], 0) && preview == Render(text, env, refs[k..], 0)
      invariant InText(text, refs[k..]) && missing == Missing(text, env, refs[k..])
    {
      k := k - 1;
      var ref := refs[k];
      assert refs[k..][1..] == refs[k + 1..] && refs[k..][0] == ref;
      OrderedSuffix(text, refs, k);
      SpliceStep(text, env, refs[k..], preview);
      var raw := text[ref.from..ref.to];
      var replacement := raw;
      if ref.name in env {
        replacement := env[ref.name];
      } else if DefaultIndex(raw, 0) < |raw| {
        replacement := Fallback(raw);
      } else {
        RawFallback(raw);
        if ref.name !in missing {
          missing := missing + [ref.name];
        }
      }
      preview := preview[..ref.from] + replacement + preview[ref.to..];
    }
    assert refs[0..] == refs;
    RenderIsExpand(text, env, 0);
  }

  lemma EmptyRender(text: string, env: map<string, string>)
    ensures Ordered(text, [], 0) && Render(text, env, [], 0) == text
  {
  }

  lemma OrderedSuffix(text: string, refs: seq<Ref>, k: nat)
    requires k <= |refs| && Ordered(text, refs, 0)
    ensures Ordered(text, refs[k..], 0) && InText(text, refs[k..])
  {
    var rest := refs[k..];
    assert forall l :: 0 <= l < |rest| ==> rest[l] == refs[k + l];
  }

  lemma RawFallback(raw: string)
    requires DefaultIndex(raw, 0) == |raw|
    ensures Fallback(raw) == raw
  {
  }

  /** `${NAME:-text}` without a value becomes the text behind its first `:-`. */
  lemma DefaultIsUsed(text: string, env: map<string, string>, r: Ref)
    requires r.from < |text| && RefAt(text, r.from) == Some(r) && r.hasDefault && r.name !in env
    ensures var inner := text[r.from + 2..r.to - 1];
      DefaultIndex(inner, 0) + 2 <= |inner| && Replacement(text, env, r) == inner[DefaultIndex(inner, 0) + 2..]
  {
    hide DefaultIndex, VariableName, BraceName, VariableChar;
    var raw, inner := text[r.from..r.to], text[r.from + 2..r.to - 1];
    assert forall j :: 2 <= j < |raw| - 1 ==> raw[j] == inner[j - 2];
    DefaultInBraces(raw, inner);
    DefaultShifts(raw, inner);
    var k := DefaultIndex(inner, 0);
    assert raw[k + 4..|raw| - 1] == inner[k + 2..];
  }

  lemma DefaultShifts(raw: string, inner: string)
    requires |raw| == |inner| + 3 && raw[0] == '$' && raw[1] == '{' && raw[|raw| - 1] == '}'
    requires forall j :: 2 <= j < |raw| - 1 ==> raw[j] == inner[j - 2]
    requires DefaultIndex(inner, 0) < |inner|
    ensures DefaultIndex(raw, 0) == DefaultIndex(inner, 0) + 2
  {
    hide DefaultIndex;
    var k, d := DefaultIndex(raw, 0), DefaultIndex(inner, 0);
    assert raw[d + 2] == inner[d] && raw[d + 3] == inner[d + 1];
    assert DefaultAt(raw, d + 2);
    assert k <= d + 2 && k >= 2;
    assert DefaultAt(inner, k - 2);
  }

  /** Without a value and without a default the reference itself stays in the text. */
  lemma UnsetStays(text: string, env: map<string, string>, r: Ref)
    requires r.from < |text| && RefAt(text, r.from) == Some(r) && !r.hasDefault && r.name !in env
    ensures Replacement(text, env, r) == text[r.from..r.to]
  {
    hide RefAt;
    DefaultInRaw(text, r);
  }

  // ---- The linter

  datatype Warning = Warning(from: nat, to: nat, name: string)

  predicate Warns(env: map<string, string>, r: Ref) {
    !r.hasDefault && r.name !in env
  }

  function Warnings(env: map<string, string>, refs: seq<Ref>): seq<Warning> {
    if refs == [] then []
    else
      var last := refs[|refs| - 1];
      Warnings(env, refs[..|refs| - 1]) + (if Warns(env, last) then [Warning(last.from, last.to, last.name)] else [])
  }

  lemma NoWarnings(env: map<string, string>, refs: seq<Ref>)
    requires refs == []
    ensures Warnings(env, refs) == []
  {
  }

  lemma WarningsSnoc(env: map<string, string>, refs: seq<Ref>, k: nat)
    requires k < |refs|
    ensures Warnings(env, refs[..k + 1]) == Warnings(env, refs[..k])
         + (if Warns(env, refs[k]) then [Warning(refs[k].from, refs[k].to, refs[k].name)] else [])
  {
    assert refs[..k + 1][..k] == refs[..k];
  }

  method LintMissing(text: string, env: map<string, string>) returns (warnings: seq<Warning>)
    ensures warnings == Warnings(env, Scan(text, 0))
  {
    hide Scan, Warnings;
    warnings := [];
    var refs := FindInterpolationRefs(text);
    var k := 0;
    NoWarnings(env, refs[..0]);
    while k < |refs|
      invariant 0 <= k <= |refs|
      invariant warnings == Warnings(env, refs[..k])
    {
      var ref := refs[k];
      WarningsSnoc(env, refs, k);
      if !ref.hasDefault && ref.name !in env {
        warnings := warnings + [Warning(ref.from, ref.to, ref.name)];
      }
      k := k + 1;
    }
    assert refs[..k] == refs;
  }

  lemma {:induction false} MissingNames(text: string, env: map<string, string>, refs: seq<Ref>, name: string)
    requires InText(text, refs)
    ensures Distinct(Missing(text, env, refs))
    ensures name in Missing(text, env, refs) <==> exists r <- refs :: r.name == name && Unset(text, env, r)
  {
    if refs != [] {
      MissingNames(text, env, refs[1..], name);
      assert forall r :: r in refs <==> r == refs[0] || r in refs[1..];
    }
  }

  lemma {:induction false} WarningNames(env: map<string, string>, refs: seq<Ref>, name: string)
    ensures (exists w <- Warnings(env, refs) :: w.name == name)
       <==> (exists r <- refs :: r.name == name && Warns(env, r))
  {
    if refs != [] {
      var front, last := refs[..|refs| - 1], refs[|refs| - 1];
      WarningNames(env, front, name);
      assert forall r :: r in refs <==> r == last || r in front;
    }
  }

  lemma DefaultInBraces(raw: string, inner: string)
    requires |raw| == |inner| + 3 && raw[0] == '$' && raw[1] == '{' && raw[|raw| - 1] == '}'
    requires forall j :: 2 <= j < |raw| - 1 ==> raw[j] == inner[j - 2]
    ensures DefaultIndex(raw, 0) < |raw| <==> DefaultIndex(inner, 0) < |inner|
  {
    hide DefaultIndex;
    var k, d := DefaultIndex(raw, 0), DefaultIndex(inner, 0);
    if d < |inner| {
      assert raw[d + 2] == inner[d] && raw[d + 3] == inner[d + 1];
      assert DefaultAt(raw, d + 2);
    }
    if k < |raw| {
      assert k >= 2 && k + 1 < |raw| - 1;
      assert DefaultAt(inner, k - 2);
    }
  }

  lemma NoDefaultInName(name: string)
    requires forall i :: 0 <= i < |name| ==> VariableChar(name[i])
    ensures DefaultIndex("$" + name, 0) == |name| + 1
  {
    var raw := "$" + name;
    forall j | 0 < j < |raw|
      ensures raw[j] != ':'
    {
      assert raw[j] == name[j - 1] && VariableChar(name[j - 1]);
    }
  }

  /** A `:-` in the whole reference is one in its inner part, and a bare reference has none. */
  lemma DefaultInRaw(text: string, r: Ref)
    requires r.from < |text| && RefAt(text, r.from) == Some(r)
    ensures r.hasDefault <==> DefaultIndex(text[r.from..r.to], 0) < r.to - r.from
  {
    hide DefaultIndex, VariableName, BraceName, VariableChar;
    var raw := text[r.from..r.to];
    if OpensBrace(text, r.from) {
      var inner := text[r.from + 2..r.to - 1];
      assert forall j :: 2 <= j < |raw| - 1 ==> raw[j] == inner[j - 2];
      DefaultInBraces(raw, inner);
    } else {
      assert raw == "$" + r.name;
      NoDefaultInName(r.name);
    }
  }

  /** The names listed as missing are exactly those warned about, each listed once. */
  lemma MissingIsWarned(text: string, env: map<string, string>, name: string)
    ensures InText(text, Scan(text, 0))
    ensures Distinct(Missing(text, env, Scan(text, 0)))
    ensures name in Missing(text, env, Scan(text, 0))
       <==> exists w <- Warnings(env, Scan(text, 0)) :: w.name == name
  {
    hide RefAt, Scan, Missing, Warnings;
    var refs := Scan(text, 0);
    ScanIsOrdered(text, 0);
    OrderedSuffix(text, refs, 0);
    assert refs[0..] == refs;
    MissingNames(text, env, refs, name);
    WarningNames(env, refs, name);
    forall r | r in refs
      ensures Unset(text, env, r) <==> Warns(env, r)
    {
      FindsExactly(text, r);
      DefaultInRaw(text, r);
    }
  }
}
