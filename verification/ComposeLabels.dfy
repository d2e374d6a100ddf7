/** Line-based edits of a service's labels, and the icons read back from the lines. */
module ComposeLabels {
  import opened Text

  // ---- Shapes of a line; a tab counts as two spaces where the source replaces it

  /** Length of the leading white space. */
  function Lead(s: string): (k: nat)
    ensures k <= |s|
    ensures forall j :: 0 <= j < k ==> IsSpace(s[j])
    ensures k < |s| ==> !IsSpace(s[k])
  {
    if s == "" || !IsSpace(s[0]) then 0 else 1 + Lead(s[1..])
  }

  function Width(s: string): (w: nat)
    ensures w >= |s|
  {
    if s == "" then 0 else (if s[0] == '\t' then 2 else 1) + Width(s[1..])
  }

  predicate Blanks(s: string) {
    forall i :: 0 <= i < |s| ==> s[i] == ' ' || s[i] == '\t'
  }

  predicate HeadNameChar(c: char) {
    IsLetter(c) || IsDigit(c) || c == '.' || c == '_' || c == '-'
  }

  /** White space and at most a comment. */
  predicate Tail(s: string) {
    var t := TrimLeft(s);
    t == "" || (t[0] == '#' && OneLine(t))
  }

  /** A name at indentation two, followed by a colon. */
  predicate Headed(line: string) {
    var k := Lead(line);
    && Blanks(line[..k]) && Width(line[..k]) == 2
    && k < |line| && (IsLetter(line[k]) || IsDigit(line[k]))
    && RunEnd(line, k, HeadNameChar) < |line| && line[RunEnd(line, k, HeadNameChar)] == ':'
  }

  function HeadName(line: string): string {
    line[Lead(line)..RunEnd(line, Lead(line), HeadNameChar)]
  }

  /** The service that a line opens. */
  function ServiceHead(line: string): Option<string> {
    if Headed(line) && Tail(line[RunEnd(line, Lead(line), HeadNameChar) + 1..]) then Some(HeadName(line)) else None
  }

  /** The line ends the block before it. */
  predicate EndsBlock(line: string) {
    Headed(line) || (line != "" && !IsSpace(line[0]))
  }

  predicate LabelsHeader(line: string) {
    var k := Lead(line);
    && Width(line[..k]) == 4 && k + 7 <= |line| && line[k..k + 7] == "labels:" && Tail(line[k + 7..])
  }

  // ---- The lines an edit replaces

  datatype Rule = Icon | Url | PublicUrl

  function KeyOf(rule: Rule): string {
    match rule
    case Icon => "icon"
    case Url => "url"
    case PublicUrl => "public_url"
  }

  predicate TokenChar(c: char) {
    IsLetter(c) || IsDigit(c) || c == '_' || c == '.'
  }

  /** Any `….icon` key is an icon; the other keys stand alone. Case does not matter. */
  predicate Names(rule: Rule, token: string) {
    || Lower(token) == KeyOf(rule)
    || (rule.Icon? && |token| > 5 && Lower(token[|token| - 5..]) == ".icon")
  }

  /** The icon edit measures the line as it is, the others after replacing tabs. */
  predicate Deep(rule: Rule, lead: string) {
    (if rule.Icon? then |lead| else Width(lead)) >= 4
  }

  /** `- key=` at depth four or more. */
  predicate ListEntry(rule: Rule, line: string) {
    var k := Lead(line);
    && Deep(rule, line[..k]) && k < |line| && line[k] == '-'
    && var j := k + 1 + Lead(line[k + 1..]);
      && j > k + 1 && RunEnd(line, j, TokenChar) < |line| && line[RunEnd(line, j, TokenChar)] == '='
      && Names(rule, line[j..RunEnd(line, j, TokenChar)])
  }

  /** `key:` at depth four or more. */
  predicate MapEntry(rule: Rule, line: string) {
    var k := Lead(line);
    && Deep(rule, line[..k])
    && var e := RunEnd(line, k, TokenChar);
      var f := e + Lead(line[e..]);
      f < |line| && line[f] == ':' && Names(rule, line[k..e])
  }

  predicate Own(rule: Rule, line: string) {
    ListEntry(rule, line) || MapEntry(rule, line)
  }

  function Header(): string {
    "    labels:"
  }

  function LabelLine(rule: Rule, url: string): string {
    "      - " + KeyOf(rule) + "=" + url
  }

  // ---- The edit

  predicate Opens(line: string, service: string) {
    ServiceHead(line) == Some(service)
  }

  /** The first index from `i` on that passes, or the length. */
  function Find<T>(s: seq<T>, passes: T -> bool, i: nat): (k: nat)
    requires i <= |s|
    ensures i <= k <= |s|
    ensures forall j :: i <= j < k ==> !passes(s[j])
    ensures k < |s| ==> passes(s[k])
    decreases |s| - i
  {
    if i == |s| || passes(s[i]) then i else Find(s, passes, i + 1)
  }

  lemma {:induction false} FindIs<T>(s: seq<T>, passes: T -> bool, i: nat, k: nat)
    requires i <= k <= |s| && (k < |s| ==> passes(s[k])) && forall j :: i <= j < k ==> !passes(s[j])
    ensures Find(s, passes, i) == k
    decreases k - i
  {
    if i < k {
      FindIs(s, passes, i + 1, k);
    }
  }

  function Opener(service: string): string -> bool {
    line => Opens(line, service)
  }

  /** The service's first line. */
  function StartOf(lines: seq<string>, service: string): (k: nat)
    ensures k <= |lines|
  {
    Find(lines, Opener(service), 0)
  }

  /** The first line from `i` on that ends a block. */
  function EndOf(lines: seq<string>, i: nat): (k: nat)
    requires i <= |lines|
    ensures i <= k <= |lines|
  {
    Find(lines, EndsBlock, i)
  }

  function Without(rule: Rule, block: seq<string>): seq<string> {
    if block == [] then []
    else
      var front, last := Without(rule, block[..|block| - 1]), block[|block| - 1];
      if Own(rule, last) then front else front + [last]
  }

  function HeaderIndex(block: seq<string>): (k: nat)
    ensures k <= |block|
  {
    Find(block, LabelsHeader, 0)
  }

  function Insert(block: seq<string>, line: string): seq<string>
    requires block != []
  {
    var i := HeaderIndex(block);
    if i < |block| then block[..i + 1] + [line] + block[i + 1..]
    else block[..1] + [Header(), line] + block[1..]
  }

  function EditBlock(rule: Rule, block: seq<string>, url: string): seq<string> {
    var rest := Without(rule, block);
    if Trim(url) == "" || rest == [] then rest else Insert(rest, LabelLine(rule, Trim(url)))
  }

  datatype Edit = Edited(lines: seq<string>) | NotFound | BadUrl

  /** `^https?:\/\/` in any case. */
  predicate HttpPrefix(s: string) {
    || (|s| >= 7 && Lower(s[..7]) == "http://")
    || (|s| >= 8 && Lower(s[..8]) == "https://")
  }

  /** Only the addresses are checked; an icon may be any text. */
  predicate UrlAllowed(rule: Rule, url: string) {
    rule.Icon? || Trim(url) == "" || HttpPrefix(Trim(url))
  }

  function Set(lines: seq<string>, service: string, rule: Rule, url: string): Edit {
    var start := StartOf(lines, service);
    if start == |lines| then NotFound
    else if !UrlAllowed(rule, url) then BadUrl
    else
      var end := EndOf(lines, start + 1);
      Edited(lines[..start] + EditBlock(rule, lines[start..end], url) + lines[end..])
  }

  /** The search for the end of the block. */
  method FindEnd(lines: seq<string>, start: nat) returns (end: nat)
    requires start < |lines|
    ensures end == EndOf(lines, start + 1)
  {
    hide EndsBlock;
    end := |lines|;
    var i := start + 1;
    while i < |lines|
      invariant start < i <= |lines| && end == |lines|
      invariant EndOf(lines, start + 1) == EndOf(lines, i)
    {
      if EndsBlock(lines[i]) {
        end := i;
        break;
      }
      i := i + 1;
    }
  }

  method DropOwn(rule: Rule, block: seq<string>) returns (filtered: seq<string>)
    ensures filtered == Without(rule, block)
  {
    hide Own;
    filtered := [];
    for k := 0 to |block|
      invariant filtered == Without(rule, block[..k])
    {
      assert block[..k + 1][..k] == block[..k];
      if !Own(rule, block[k]) {
        filtered := filtered + [block[k]];
      }
    }
    assert block[..|block|] == block;
  }

  /** The source's filter and splice. */
  method SetComposeServiceLabel(lines: seq<string>, service: string, rule: Rule, url: string) returns (edit: Edit)
    ensures edit == Set(lines, service, rule, url)
  {
    hide Opens, LabelsHeader, Own, EndsBlock, Trim, HttpPrefix, Find, Without, LabelLine, Header;
    var start := StartOf(lines, service);
    if start == |lines| {
      return NotFound;
    }
    var end := FindEnd(lines, start);
    var filtered := DropOwn(rule, lines[start..end]);
    var next := Trim(url);
    if next == "" {
      return Edited(lines[..start] + filtered + lines[end..]);
    }
    if !rule.Icon? && !HttpPrefix(next) {
      return BadUrl;
    }
    HeadStays(rule, lines[start..end], service);
    var line := LabelLine(rule, next);
    var at := HeaderIndex(filtered);
    if at < |filtered| {
      filtered := filtered[..at + 1] + [line] + filtered[at + 1..];
    } else {
      filtered := filtered[..1] + [Header(), line] + filtered[1..];
    }
    return Edited(lines[..start] + filtered + lines[end..]);
  }

  // ---- Lines of one kind are not of another

  lemma TokenIsUnique(rule: Rule, other: Rule, token: string)
    requires Names(rule, token) && Names(other, token)
    ensures rule == other
  {
    var low := Lower(token);
    if |token| > 5 {
      var tail := token[|token| - 5..];
      assert forall i :: 0 <= i < 5 ==> Lower(tail)[i] == low[|token| - 5 + i];
      assert low == "public_url" ==> Lower(tail)[0] == 'c';
    }
    assert "icon"[0] != "public_url"[0] && |"url"| == 3;
  }

  lemma NoNamelessToken(rule: Rule)
    ensures !Names(rule, "")
  {
  }

  /** No line belongs to two kinds of label. */
  lemma OwnedOnce(rule: Rule, other: Rule, line: string)
    requires Own(rule, line) && Own(other, line)
    ensures rule == other
  {
    hide Names, Deep, Lead;
    var k := Lead(line);
    NoNamelessToken(rule);
    NoNamelessToken(other);
    if k < |line| && line[k] == '-' {
      assert RunEnd(line, k, TokenChar) == k;
      assert line[k..k] == "";
      var j := k + 1 + Lead(line[k + 1..]);
      TokenIsUnique(rule, other, line[j..RunEnd(line, j, TokenChar)]);
    } else {
      TokenIsUnique(rule, other, line[k..RunEnd(line, k, TokenChar)]);
    }
  }

  lemma HeadNotOwned(rule: Rule, line: string)
    requires Headed(line)
    ensures !Own(rule, line) && !LabelsHeader(line)
  {
    var k := Lead(line);
    assert Width(line[..k]) == 2 && |line[..k]| <= 2;
  }

  lemma LeadIs(line: string, k: nat)
    requires k < |line| && !IsSpace(line[k]) && forall j :: 0 <= j < k ==> IsSpace(line[j])
    ensures Lead(line) == k
  {
  }

  lemma SpacesWidth(n: nat, s: string)
    requires |s| == n && forall j :: 0 <= j < n ==> s[j] == ' '
    ensures Width(s) == n
  {
    if n > 0 {
      SpacesWidth(n - 1, s[1..]);
    }
  }

  lemma KeyChars()
    ensures IsSpace(' ') && !IsSpace('-') && !IsSpace('l') && !IsSpace('i') && !IsSpace('u') && !IsSpace('p')
  {
  }

  lemma HeaderLead()
    ensures Lead(Header()) == 4 && Width(Header()[..4]) == 4 && Header()[4] == 'l' && Header()[10] == ':'
    ensures Header()[4..11] == "labels:" && Header()[4..10] == "labels" && |Header()| == 11
  {
    hide IsSpace;
    KeyChars();
    LeadIs(Header(), 4);
    SpacesWidth(4, Header()[..4]);
  }

  lemma HeaderIsHeader()
    ensures LabelsHeader(Header())
  {
    hide IsSpace, Lead, Width;
    HeaderLead();
    assert Header()[11..] == "";
  }

  lemma HeaderNotOwned(rule: Rule)
    ensures !Own(rule, Header())
  {
    hide IsSpace, Lead, Width, Names;
    HeaderLead();
    LabelsIsNoKey(rule);
    assert forall j :: 4 <= j < 10 ==> Header()[j] == Header()[4..10][j - 4] && TokenChar(Header()[j]);
    assert RunEnd(Header(), 4, TokenChar) == 10;
  }

  lemma HeaderFacts(rule: Rule)
    ensures LabelsHeader(Header()) && !Own(rule, Header()) && !EndsBlock(Header())
  {
    hide LabelsHeader, Own, Lead, Width;
    HeaderLead();
    HeaderIsHeader();
    HeaderNotOwned(rule);
  }

  lemma LabelsIsNoKey(rule: Rule)
    ensures !Names(rule, "labels")
  {
    var low := Lower("labels");
    assert low[0] == 'l' && Lower("labels"[1..])[0] == 'a';
    assert "labels"[|"labels"| - 5..] == "labels"[1..];
  }

  lemma LabelLineLead(rule: Rule, url: string)
    ensures var line := LabelLine(rule, url);
      Lead(line) == 6 && Width(line[..6]) == 6 && line[6] == '-' && Lead(line[7..]) == 1
  {
    hide IsSpace;
    var line := LabelLine(rule, url);
    KeyChars();
    KeyIsToken(rule);
    LeadIs(line, 6);
    assert forall j :: 0 <= j < 6 ==> line[..6][j] == ' ';
    SpacesWidth(6, line[..6]);
    assert line[7] == ' ' && line[8] == KeyOf(rule)[0];
    LeadIs(line[7..], 1);
  }

  lemma LabelLineFacts(rule: Rule, url: string)
    ensures Own(rule, LabelLine(rule, url)) && !EndsBlock(LabelLine(rule, url)) && !LabelsHeader(LabelLine(rule, url))
  {
    hide IsSpace, Lead, Width, Names, KeyOf;
    var line, key := LabelLine(rule, url), KeyOf(rule);
    LabelLineLead(rule, url);
    KeyChars();
    KeyIsToken(rule);
    assert forall j :: 0 <= j < |key| ==> line[8 + j] == key[j];
    assert line[8 + |key|] == '=';
    assert forall j :: 8 <= j < 8 + |key| ==> line[j] == key[j - 8];
    assert RunEnd(line, 8, TokenChar) == 8 + |key|;
    assert line[8..8 + |key|] == key;
  }

  lemma KeyIsToken(rule: Rule)
    ensures Names(rule, KeyOf(rule)) && forall j :: 0 <= j < |KeyOf(rule)| ==> TokenChar(KeyOf(rule)[j])
    ensures !TokenChar('=') && !IsSpace(KeyOf(rule)[0])
  {
    var key := KeyOf(rule);
    assert Lower(key) == key;
  }

  lemma HeadStays(rule: Rule, block: seq<string>, service: string)
    requires block != [] && Opens(block[0], service)
    ensures Without(rule, block) != [] && Without(rule, block)[0] == block[0]
  {
    hide Own, ServiceHead;
    HeadedOf(block[0]);
    HeadNotOwned(rule, block[0]);
    FirstStays(rule, block);
  }

  lemma HeadedOf(line: string)
    requires ServiceHead(line).Some?
    ensures Headed(line)
  {
  }

  lemma {:induction false} FirstStays(rule: Rule, block: seq<string>)
    requires block != [] && !Own(rule, block[0])
    ensures Without(rule, block) != [] && Without(rule, block)[0] == block[0]
  {
    hide Own;
    if |block| > 1 {
      FirstStays(rule, block[..|block| - 1]);
    }
  }
}
