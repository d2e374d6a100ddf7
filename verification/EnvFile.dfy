/** Parsing and serialising `.env` files. */
module EnvFile {
  import opened Text

  datatype Entry = Pair(key: string, value: string) | Other(raw: string)

  // ---- Lines

  function DropReturn(s: string): string {
    if s != "" && s[|s| - 1] == '\r' then s[..|s| - 1] else s
  }

  /** `split(/\r?\n/)` */
  function Lines(s: string): (lines: seq<string>)
    ensures |lines| > 0
    decreases |s|
  {
    var i := IndexOf(s, '\n');
    if i == |s| then [s] else [DropReturn(s[..i])] + Lines(s[i + 1..])
  }

  function DropNewlines(s: string): string {
    if s != "" && s[|s| - 1] == '\n' then DropNewlines(s[..|s| - 1]) else s
  }

  // ---- One line

  function ParseLine(line: string): Entry {
    var i := IndexOf(line, '=');
    if i < |line| && VariableName(line[..i]) && forall j :: i < j < |line| ==> !Terminator(line[j])
    then Pair(line[..i], Unquote(line[i + 1..]))
    else Other(line)
  }

  function ParseLines(lines: seq<string>): seq<Entry> {
    seq(|lines|, i requires 0 <= i < |lines| => ParseLine(lines[i]))
  }

  function Parse(content: string): seq<Entry> {
    if content == "" then []
    else
      var lines := Lines(content);
      ParseLines(if lines[|lines| - 1] == "" then lines[..|lines| - 1] else lines)
  }

  // ---- Quoting

  /** `replace(/\\n/g, '\n')` */
  function Unescape(s: string): string {
    if |s| < 2 then s
    else if s[0] == '\\' && s[1] == 'n' then "\n" + Unescape(s[2..])
    else [s[0]] + Unescape(s[1..])
  }

  predicate Wrapped(s: string, q: char) {
    |s| >= 2 && s[0] == q && s[|s| - 1] == q
  }

  function Unquote(value: string): string {
    var trimmed := Trim(value);
    if Wrapped(trimmed, '"') || Wrapped(trimmed, '\'') then Unescape(trimmed[1..|trimmed| - 1]) else value
  }

  /** Backslashes are doubled first, then double quotes get one. */
  function Escape(s: string): string {
    if s == "" then ""
    else (if s[0] == '\\' then "\\\\" else if s[0] == '"' then "\\\"" else [s[0]]) + Escape(s[1..])
  }

  predicate NeedsQuotes(c: char) {
    IsSpace(c) || c == '#' || c == '"' || c == '\'' || c == '\\'
  }

  function Quote(value: string): string {
    if exists i :: 0 <= i < |value| && NeedsQuotes(value[i]) then "\"" + Escape(value) + "\"" else value
  }

  function LineOf(e: Entry): string {
    match e
    case Pair(key, value) => key + "=" + Quote(value)
    case Other(raw) => raw
  }

  function LinesOf(entries: seq<Entry>): seq<string> {
    seq(|entries|, i requires 0 <= i < |entries| => LineOf(entries[i]))
  }

  function Serialize(entries: seq<Entry>): string {
    DropNewlines(Join(LinesOf(entries))) + (if entries != [] then "\n" else "")
  }

  // ---- Values

  predicate Plain(s: string) {
    forall i :: 0 <= i < |s| ==> s[i] != '"' && s[i] != '\\'
  }

  lemma {:induction false} EscapeLength(s: string)
    ensures |Escape(s)| >= |s|
    ensures |Escape(s)| == |s| <==> Plain(s)
    ensures Plain(s) ==> Escape(s) == s
    ensures OneLine(s) ==> OneLine(Escape(s))
  {
    if s != "" {
      EscapeLength(s[1..]);
      assert s == [s[0]] + s[1..];
      assert Plain(s) <==> Plain([s[0]]) && Plain(s[1..]);
    }
  }

  lemma {:induction false} UnescapeSpec(s: string)
    ensures Unescape(s) == s || '\n' in Unescape(s)
    ensures Plain(s) ==> Unescape(s) == s
  {
    if |s| >= 2 {
      if s[0] == '\\' && s[1] == 'n' {
        assert Unescape(s)[0] == '\n';
      } else {
        UnescapeSpec(s[1..]);
        assert s == [s[0]] + s[1..];
      }
    }
  }

  lemma QuoteIsNoSpace()
    ensures !IsSpace('"')
  {
  }

  lemma UnquoteWrapped(inner: string)
    ensures Unquote("\"" + inner + "\"") == Unescape(inner)
  {
    hide Trim, IsSpace, Unescape;
    var s := "\"" + inner + "\"";
    assert s[0] == '"' && s[|s| - 1] == '"' && s[1..|s| - 1] == inner;
    QuoteIsNoSpace();
    TrimmedTrims(s);
  }

  lemma UnquoteBare(value: string)
    requires forall i :: 0 <= i < |value| ==> !NeedsQuotes(value[i])
    ensures Unquote(value) == value
  {
    hide Trim, IsSpace, Unescape;
    if value != "" {
      assert !NeedsQuotes(value[0]) && !NeedsQuotes(value[|value| - 1]);
    }
    TrimmedTrims(value);
  }

  /** A one-line value survives quoting and unquoting exactly when it has no double quote and no backslash. */
  lemma ValueRoundTrip(value: string)
    requires OneLine(value)
    ensures Unquote(Quote(value)) == value <==> Plain(value)
  {
    hide Unquote, Escape, Unescape, IsSpace;
    EscapeLength(value);
    UnescapeSpec(Escape(value));
    if exists i :: 0 <= i < |value| && NeedsQuotes(value[i]) {
      UnquoteWrapped(Escape(value));
      assert '\n' !in value;
    } else {
      UnquoteBare(value);
    }
  }

  // ---- Whole files

  /** Entries a file can carry: no line break can be lost or gained. */
  predicate Storable(e: Entry) {
    match e
    case Pair(key, value) => VariableName(key) && OneLine(value) && Plain(value)
    case Other(raw) => '\n' !in raw && DropReturn(raw) == raw && ParseLine(raw) == e
  }

  /** Trailing blank lines go; of an all-blank list one blank line stays. */
  function Tidy(entries: seq<Entry>): seq<Entry> {
    if |entries| > 1 && entries[|entries| - 1] == Other("") then Tidy(entries[..|entries| - 1]) else entries
  }

  lemma FirstEqualsAt(key: string, rest: string)
    requires VariableName(key)
    ensures IndexOf(key + "=" + rest, '=') == |key|
  {
    var s := key + "=" + rest;
    assert s[|key|] == '=' && s[..|key|] == key;
    assert forall j :: 0 <= j < |key| ==> s[j] == key[j] && VariableChar(key[j]);
  }

  lemma QuoteOneLine(value: string)
    requires OneLine(value)
    ensures OneLine(Quote(value))
  {
    EscapeLength(value);
  }

  lemma PairLine(key: string, rest: string)
    requires VariableName(key) && OneLine(rest)
    ensures ParseLine(key + "=" + rest) == Pair(key, Unquote(rest))
    ensures OneLine(key + "=" + rest)
  {
    hide Unquote, IndexOf;
    var line := key + "=" + rest;
    FirstEqualsAt(key, rest);
    assert line[..|key|] == key && line[|key| + 1..] == rest;
    assert forall j :: 0 <= j < |rest| ==> line[|key| + 1 + j] == rest[j];
    assert forall j :: 0 <= j < |key| ==> line[j] == key[j] && VariableChar(key[j]);
  }

  lemma LineRoundTrip(e: Entry)
    requires Storable(e)
    ensures ParseLine(LineOf(e)) == e
    ensures '\n' !in LineOf(e) && DropReturn(LineOf(e)) == LineOf(e)
    ensures LineOf(e) == "" <==> e == Other("")
  {
    hide Unquote, Quote, VariableName, ParseLine;
    if e.Pair? {
      QuoteOneLine(e.value);
      ValueRoundTrip(e.value);
      PairLine(e.key, Quote(e.value));
    }
  }

  predicate Intact(lines: seq<string>) {
    forall i :: 0 <= i < |lines| ==> '\n' !in lines[i] && DropReturn(lines[i]) == lines[i]
  }

  lemma LinesCons(head: string, tail: string)
    requires '\n' !in head && DropReturn(head) == head
    ensures Lines(head + "\n" + tail) == [head] + Lines(tail)
  {
    hide IndexOf, DropReturn;
    var s := head + "\n" + tail;
    IndexOfAt(head, '\n', tail);
    assert s[..|head|] == head && s[|head| + 1..] == tail;
  }

  lemma {:induction false} LinesOfJoin(lines: seq<string>)
    requires Intact(lines) && lines != []
    ensures Lines(Join(lines) + "\n") == lines + [""]
  {
    hide IndexOf, DropReturn, Lines;
    if |lines| == 1 {
      assert Join(lines) + "\n" == lines[0] + "\n" + "";
      LinesCons(lines[0], "");
      EmptyLine();
    } else {
      var tail := Join(lines[1..]) + "\n";
      assert Join(lines) + "\n" == lines[0] + "\n" + tail;
      LinesCons(lines[0], tail);
      LinesOfJoin(lines[1..]);
      assert [lines[0]] + (lines[1..] + [""]) == lines + [""];
    }
  }

  lemma EmptyLine()
    ensures Lines("") == [""]
  {
  }

  lemma {:induction false} JoinSnoc(lines: seq<string>, last: string)
    requires lines != []
    ensures Join(lines + [last]) == Join(lines) + "\n" + last
  {
    if |lines| == 1 {
      assert (lines + [last])[1..] == [last];
    } else {
      JoinSnoc(lines[1..], last);
      assert (lines + [last])[1..] == lines[1..] + [last];
    }
  }

  /** Dropping the newlines at the end drops the blank entries at the end. */
  lemma {:induction false} DropIsTidy(entries: seq<Entry>)
    requires entries != [] && forall e <- entries :: Storable(e)
    ensures Tidy(entries) != [] && Tidy(entries) <= entries
    ensures DropNewlines(Join(LinesOf(entries))) == Join(LinesOf(Tidy(entries)))
  {
    hide Storable, LineOf, LinesOf, Join, DropNewlines, ParseLine, DropReturn;
    var last := entries[|entries| - 1];
    LineRoundTrip(last);
    if |entries| > 1 {
      var front := entries[..|entries| - 1];
      LinesOfSnoc(entries);
      JoinSnoc(LinesOf(front), LineOf(last));
      EndsWithLine(Join(LinesOf(front)), LineOf(last));
      if last == Other("") {
        DropIsTidy(front);
      }
    } else {
      LinesOfSnoc(entries);
      assert LinesOf(entries) == [LineOf(last)];
      JoinOne(LineOf(last));
      DropStops(LineOf(last));
    }
  }

  lemma LinesOfSnoc(entries: seq<Entry>)
    requires entries != []
    ensures LinesOf(entries) == LinesOf(entries[..|entries| - 1]) + [LineOf(entries[|entries| - 1])]
    ensures |LinesOf(entries[..|entries| - 1])| == |entries| - 1
  {
    hide LineOf;
  }

  lemma JoinOne(line: string)
    ensures Join([line]) == line
  {
  }

  lemma DropStops(s: string)
    requires '\n' !in s
    ensures DropNewlines(s) == s
  {
    assert s != "" ==> s[|s| - 1] in s;
  }

  lemma EndsWithLine(before: string, line: string)
    requires '\n' !in line
    ensures DropNewlines(before + "\n" + line) == if line == "" then DropNewlines(before) else before + "\n" + line
  {
    var s := before + "\n" + line;
    if line == "" {
      assert s[..|s| - 1] == before;
    } else {
      assert s[|s| - 1] == line[|line| - 1] && line[|line| - 1] in line;
    }
  }

  /** Parsing a serialised list gives it back without its trailing blank lines. */
  lemma FileRoundTrip(entries: seq<Entry>)
    requires forall e <- entries :: Storable(e)
    ensures Parse(Serialize(entries)) == Tidy(entries)
  {
    if entries != [] {
      DropIsTidy(entries);
      var tidy := Tidy(entries);
      var lines := LinesOf(tidy);
      forall i | 0 <= i < |tidy|
        ensures ParseLine(lines[i]) == tidy[i] && '\n' !in lines[i] && DropReturn(lines[i]) == lines[i]
      {
        assert tidy[i] == entries[i];
        LineRoundTrip(tidy[i]);
      }
      LinesOfJoin(lines);
      assert (lines + [""])[..|lines|] == lines;
      assert ParseLines(lines) == tidy;
    }
  }

  /** The variables a file sets; a later line wins. */
  function EnvMap(entries: seq<Entry>): map<string, string> {
    if entries == [] then map[]
    else
      var last := entries[|entries| - 1];
      var before := EnvMap(entries[..|entries| - 1]);
      if last.Pair? then before[last.key := last.value] else before
  }

  predicate LastPair(entries: seq<Entry>, i: nat, key: string) {
    && i < |entries| && entries[i].Pair? && entries[i].key == key
    && forall j :: i < j < |entries| && entries[j].Pair? ==> entries[j].key != key
  }

  /** A variable is set exactly when some pair names it, to the value of the last such pair. */
  lemma {:induction false} EnvMapIsLast(entries: seq<Entry>, key: string, i: nat)
    requires LastPair(entries, i, key)
    ensures key in EnvMap(entries) && EnvMap(entries)[key] == entries[i].value
  {
    if i + 1 < |entries| {
      EnvMapIsLast(entries[..|entries| - 1], key, i);
    }
  }

  lemma {:induction false} EnvMapOnlyPairs(entries: seq<Entry>, key: string) returns (i: nat)
    requires key in EnvMap(entries)
    ensures LastPair(entries, i, key)
  {
    i := |entries| - 1;
    if !entries[i].Pair? || entries[i].key != key {
      i := EnvMapOnlyPairs(entries[..|entries| - 1], key);
    }
  }

  method EnvMapFromFile(source: string) returns (out: map<string, string>)
    ensures out == EnvMap(Parse(source))
  {
    hide Parse;
    out := map[];
    var entries := Parse(source);
    for k := 0 to |entries|
      invariant out == EnvMap(entries[..k])
    {
      assert entries[..k + 1][..k] == entries[..k];
      if entries[k].Pair? {
        out := out[entries[k].key := entries[k].value];
      }
    }
    assert entries[..|entries|] == entries;
  }
}
