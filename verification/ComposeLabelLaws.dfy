/** Laws of the label edits: repeated edits, other labels, other services. */
module ComposeLabelLaws {
  import opened Text
  import opened ComposeLabels

  // ---- Filtering

  lemma {:induction false} WithoutAppend(rule: Rule, a: seq<string>, b: seq<string>)
    ensures Without(rule, a + b) == Without(rule, a) + Without(rule, b)
  {
    hide Own;
    if b == [] {
      assert a + b == a;
    } else {
      var front := b[..|b| - 1];
      WithoutAppend(rule, a, front);
      assert (a + b)[..|a + b| - 1] == a + front;
    }
  }

  lemma {:induction false} WithoutMembers(rule: Rule, block: seq<string>)
    ensures forall line <- Without(rule, block) :: line in block && !Own(rule, line)
  {
    hide Own;
    if block != [] {
      WithoutMembers(rule, block[..|block| - 1]);
    }
  }

  lemma {:induction false} WithoutNone(rule: Rule, block: seq<string>)
    requires forall line <- block :: !Own(rule, line)
    ensures Without(rule, block) == block
  {
    hide Own;
    if block != [] {
      WithoutNone(rule, block[..|block| - 1]);
    }
  }

  lemma WithoutOne(rule: Rule, line: string)
    ensures Without(rule, [line]) == if Own(rule, line) then [] else [line]
  {
    hide Own;
    assert [line][..0] == [];
  }

  /** The lines of one kind, in order. */
  function Only(rule: Rule, block: seq<string>): seq<string> {
    if block == [] then []
    else
      var front, last := Only(rule, block[..|block| - 1]), block[|block| - 1];
      if Own(rule, last) then front + [last] else front
  }

  lemma {:induction false} OnlyAppend(rule: Rule, a: seq<string>, b: seq<string>)
    ensures Only(rule, a + b) == Only(rule, a) + Only(rule, b)
  {
    hide Own;
    if b == [] {
      assert a + b == a;
    } else {
      var front := b[..|b| - 1];
      OnlyAppend(rule, a, front);
      assert (a + b)[..|a + b| - 1] == a + front;
    }
  }

  lemma {:induction false} OnlyWithout(rule: Rule, other: Rule, block: seq<string>)
    requires rule != other
    ensures Only(other, Without(rule, block)) == Only(other, block)
  {
    hide Own;
    if block != [] {
      var last := block[|block| - 1];
      OnlyWithout(rule, other, block[..|block| - 1]);
      if Own(rule, last) {
        if Own(other, last) {
          OwnedOnce(rule, other, last);
        }
      } else {
        OnlySnoc(other, Without(rule, block[..|block| - 1]), last);
      }
    }
  }

  lemma OnlySnoc(rule: Rule, block: seq<string>, last: string)
    ensures Only(rule, block + [last]) == Only(rule, block) + (if Own(rule, last) then [last] else [])
  {
    hide Own;
    assert (block + [last])[..|block|] == block;
  }

  // ---- Editing one block

  lemma WithoutAround(rule: Rule, a: seq<string>, middle: string, b: seq<string>)
    requires forall line <- a + b :: !Own(rule, line)
    ensures Without(rule, a + [middle] + b) == if Own(rule, middle) then a + b else a + [middle] + b
  {
    hide Own, Without;
    assert forall line <- a :: line in a + b;
    assert forall line <- b :: line in a + b;
    WithoutAppend(rule, a + [middle], b);
    WithoutAppend(rule, a, [middle]);
    WithoutOne(rule, middle);
    WithoutNone(rule, a);
    WithoutNone(rule, b);
    assert a + [] == a;
  }

  /** A header line goes behind the first line. */
  function WithHeader(rest: seq<string>): seq<string>
    requires rest != []
  {
    rest[..1] + [Header()] + rest[1..]
  }

  /** The insertion splits the block, or the block with a header put in, in two. */
  lemma InsertSplits(rest: seq<string>, line: string) returns (base: seq<string>, k: nat)
    requires rest != []
    ensures base == if HeaderIndex(rest) < |rest| then rest else WithHeader(rest)
    ensures 0 < k <= |base| && Insert(rest, line) == base[..k] + [line] + base[k..]
    ensures forall x <- base :: x in rest || x == Header()
  {
    hide Find, LabelsHeader, Header;
    if HeaderIndex(rest) < |rest| {
      base, k := rest, HeaderIndex(rest) + 1;
    } else {
      base, k := WithHeader(rest), 2;
      assert base[..2] == rest[..1] + [Header()] && base[2..] == rest[1..];
    }
  }

  /** Taking the inserted line out again leaves the block, with a header if it had none. */
  lemma WithoutInserted(rule: Rule, rest: seq<string>, url: string)
    requires rest != [] && forall line <- rest :: !Own(rule, line)
    ensures Without(rule, Insert(rest, LabelLine(rule, url)))
         == if HeaderIndex(rest) < |rest| then rest else WithHeader(rest)
  {
    hide Own, HeaderIndex, LabelLine, Header, Insert, Without, WithHeader, EndsBlock, LabelsHeader;
    var line := LabelLine(rule, url);
    LabelLineFacts(rule, url);
    HeaderFacts(rule);
    var base, k := InsertSplits(rest, line);
    assert base[..k] + base[k..] == base;
    WithoutAround(rule, base[..k], line, base[k..]);
  }

  /** With a header added at the front, the next line goes where it would have gone without it. */
  lemma InsertWithHeader(rest: seq<string>, line: string)
    requires rest != [] && HeaderIndex(rest) == |rest|
    ensures Insert(WithHeader(rest), line) == Insert(rest, line)
  {
    hide LabelsHeader, Find, Header;
    var headed := WithHeader(rest);
    HeaderIsHeader();
    assert headed[0] == rest[0] && headed[1] == Header() && !LabelsHeader(rest[0]);
    FindIs(headed, LabelsHeader, 0, 1);
    assert headed[..2] == rest[..1] + [Header()] && headed[2..] == rest[1..];
  }

  /** Editing an edited block again gives what the second edit alone gives. */
  lemma EditBlockTwice(rule: Rule, block: seq<string>, first: string, second: string)
    requires Without(rule, block) != [] && Trim(second) != ""
    ensures EditBlock(rule, EditBlock(rule, block, first), second) == EditBlock(rule, block, second)
  {
    hide Own, HeaderIndex, LabelLine, Trim, Insert, Without, Header;
    var rest := Without(rule, block);
    WithoutMembers(rule, block);
    if Trim(first) == "" {
      WithoutNone(rule, rest);
    } else {
      WithoutInserted(rule, rest, Trim(first));
      if HeaderIndex(rest) == |rest| {
        InsertWithHeader(rest, LabelLine(rule, Trim(second)));
      }
    }
  }

  /** Removing what was set restores the block exactly when nothing was set or a `labels:` line was there before. */
  lemma RemoveAfterSet(rule: Rule, block: seq<string>, first: string, second: string)
    requires Without(rule, block) != [] && Trim(second) == ""
    ensures EditBlock(rule, EditBlock(rule, block, first), second) == EditBlock(rule, block, second)
       <==> Trim(first) == "" || HeaderIndex(Without(rule, block)) < |Without(rule, block)|
  {
    hide Own, HeaderIndex, LabelLine, Trim, Insert, Without, Header;
    var rest := Without(rule, block);
    WithoutMembers(rule, block);
    if Trim(first) == "" {
      WithoutNone(rule, rest);
    } else {
      WithoutInserted(rule, rest, Trim(first));
      assert |WithHeader(rest)| == |rest| + 1;
    }
  }

  /** The lines of every other kind stay, in their order. */
  lemma EditKeepsOthers(rule: Rule, other: Rule, block: seq<string>, url: string)
    requires rule != other
    ensures Only(other, EditBlock(rule, block, url)) == Only(other, block)
  {
    hide Own, HeaderIndex, LabelLine, Trim, Insert, Without, Only;
    OnlyWithout(rule, other, block);
    var rest := Without(rule, block);
    if Trim(url) != "" && rest != [] {
      InsertKeepsOthers(rule, other, rest, Trim(url));
    }
  }

  lemma InsertKeepsOthers(rule: Rule, other: Rule, rest: seq<string>, url: string)
    requires rule != other && rest != []
    ensures Only(other, Insert(rest, LabelLine(rule, url))) == Only(other, rest)
  {
    hide Own, HeaderIndex, LabelLine, Header, Insert, Only, EndsBlock, LabelsHeader;
    var line := LabelLine(rule, url);
    LabelLineFacts(rule, url);
    if Own(other, line) {
      OwnedOnce(rule, other, line);
    }
    HeaderFacts(other);
    var base, k := InsertSplits(rest, line);
    OnlyAround(other, base[..k], line, base[k..]);
    assert base[..k] + base[k..] == base;
    if HeaderIndex(rest) >= |rest| {
      OnlyAround(other, rest[..1], Header(), rest[1..]);
      assert rest[..1] + rest[1..] == rest;
    }
  }

  lemma OnlyAround(rule: Rule, a: seq<string>, middle: string, b: seq<string>)
    requires !Own(rule, middle)
    ensures Only(rule, a + [middle] + b) == Only(rule, a + b)
  {
    hide Own, Only;
    OnlyAppend(rule, a + [middle], b);
    OnlySnoc(rule, a, middle);
    OnlyAppend(rule, a, b);
  }

  lemma {:induction false} OnlyNone(rule: Rule, block: seq<string>)
    requires forall line <- block :: !Own(rule, line)
    ensures Only(rule, block) == []
  {
    hide Own;
    if block != [] {
      OnlyNone(rule, block[..|block| - 1]);
    }
  }

  /** Of its own kind an edited block holds exactly the line that was set, or none. */
  lemma OwnLineIsSet(rule: Rule, block: seq<string>, url: string)
    requires Without(rule, block) != []
    ensures Only(rule, EditBlock(rule, block, url)) == if Trim(url) == "" then [] else [LabelLine(rule, Trim(url))]
  {
    hide Own, HeaderIndex, LabelLine, Trim, Header, Insert, Without, Only, EndsBlock, LabelsHeader;
    var rest := Without(rule, block);
    WithoutMembers(rule, block);
    OnlyNone(rule, rest);
    if Trim(url) != "" {
      var line := LabelLine(rule, Trim(url));
      LabelLineFacts(rule, Trim(url));
      HeaderFacts(rule);
      var base, k := InsertSplits(rest, line);
      OnlyNone(rule, base[..k]);
      OnlyNone(rule, base[k..]);
      OnlyAppend(rule, base[..k] + [line], base[k..]);
      OnlySnoc(rule, base[..k], line);
    }
  }

  // ---- The edited file

  /** The service's block. */
  function BlockOf(lines: seq<string>, service: string): seq<string> {
    var start := StartOf(lines, service);
    if start == |lines| then [] else lines[start..EndOf(lines, start + 1)]
  }

  /** A service's first line, then lines that end no block. */
  predicate IsBlock(block: seq<string>, service: string) {
    && block != [] && Opens(block[0], service)
    && forall line <- block[1..] :: !EndsBlock(line)
  }

  lemma BlockIsBlock(lines: seq<string>, service: string)
    requires StartOf(lines, service) < |lines|
    ensures IsBlock(BlockOf(lines, service), service)
  {
    hide Opens, EndsBlock, Find;
    var start := StartOf(lines, service);
    var block := BlockOf(lines, service);
    assert forall k :: 0 < k < |block| ==> block[k] == lines[start + k];
    assert forall k :: 0 <= k < |block| - 1 ==> block[1..][k] == block[k + 1];
  }

  lemma EditStaysBlock(rule: Rule, block: seq<string>, service: string, url: string)
    requires IsBlock(block, service)
    ensures IsBlock(EditBlock(rule, block, url), service)
    ensures Without(rule, block) != [] && EditBlock(rule, block, url)[0] == block[0]
  {
    hide Own, Opens, EndsBlock, Without, Insert, LabelLine, Trim;
    HeadStays(rule, block, service);
    var rest := Without(rule, block);
    assert block == [block[0]] + block[1..];
    WithoutAppend(rule, [block[0]], block[1..]);
    WithoutOne(rule, block[0]);
    WithoutMembers(rule, block[1..]);
    WithoutMembers(rule, block);
    assert rest == [block[0]] + Without(rule, block[1..]);
    assert rest[1..] == Without(rule, block[1..]);
    if Trim(url) != "" {
      InsertStaysBlock(rule, rest, service, Trim(url));
    }
  }

  lemma InsertStaysBlock(rule: Rule, rest: seq<string>, service: string, url: string)
    requires IsBlock(rest, service)
    ensures IsBlock(Insert(rest, LabelLine(rule, url)), service)
    ensures Insert(rest, LabelLine(rule, url))[0] == rest[0]
  {
    hide Own, Opens, EndsBlock, LabelsHeader, LabelLine, Header, Find;
    var line := LabelLine(rule, url);
    LabelLineFacts(rule, url);
    HeaderFacts(rule);
    var next := Insert(rest, line);
    assert forall x <- next[1..] :: x == line || x == Header() || x in rest[1..];
  }

  /** An edit changes the service's block and nothing else, and the result still has the block in its place. */
  lemma EditsOnlyTheBlock(lines: seq<string>, service: string, rule: Rule, url: string)
    requires Set(lines, service, rule, url).Edited?
    ensures var start, next := StartOf(lines, service), Set(lines, service, rule, url).lines;
      var end := EndOf(lines, start + 1);
      && StartOf(next, service) == start < |next| && next[..start] == lines[..start]
      && next[EndOf(next, start + 1)..] == lines[end..]
      && BlockOf(next, service) == EditBlock(rule, BlockOf(lines, service), url)
  {
    hide Own, Opens, EndsBlock, Find, EditBlock, UrlAllowed, Opener;
    var start := StartOf(lines, service);
    var block := BlockOf(lines, service);
    BlockIsBlock(lines, service);
    EditStaysBlock(rule, block, service, url);
    Replaced(lines, service, EditBlock(rule, block, url));
  }

  /** Another block in the same place is found there again. */
  lemma OpenerOpens(line: string, service: string)
    ensures Opener(service)(line) <==> Opens(line, service)
  {
  }

  lemma Replaced(lines: seq<string>, service: string, block: seq<string>)
    requires StartOf(lines, service) < |lines| && IsBlock(block, service)
    ensures var start := StartOf(lines, service);
      var end := EndOf(lines, start + 1);
      var next := lines[..start] + block + lines[end..];
      && StartOf(next, service) == start < |next| && next[..start] == lines[..start]
      && EndOf(next, start + 1) == start + |block| <= |next| && next[start + |block|..] == lines[end..]
      && BlockOf(next, service) == block
  {
    hide Opens, Opener, EndsBlock, Find;
    var start := StartOf(lines, service);
    var end := EndOf(lines, start + 1);
    var next := lines[..start] + block + lines[end..];
    assert next[..start] == lines[..start] && next[start + |block|..] == lines[end..];
    assert next[start..start + |block|] == block;
    ReplacedStart(lines, service, block, lines[end..]);
    ReplacedEnd(lines[..start], service, block, lines[end..]);
  }

  lemma ReplacedStart(lines: seq<string>, service: string, block: seq<string>, rest: seq<string>)
    requires StartOf(lines, service) < |lines| && IsBlock(block, service)
    ensures var start := StartOf(lines, service);
      StartOf(lines[..start] + block + rest, service) == start
  {
    hide Opens, Opener, Find;
    var start := StartOf(lines, service);
    var next := lines[..start] + block + rest;
    assert forall j :: 0 <= j < start ==> next[j] == lines[j];
    assert next[start] == block[0];
    OpenerOpens(block[0], service);
    FindIs(next, Opener(service), 0, start);
  }

  lemma ReplacedEnd(front: seq<string>, service: string, block: seq<string>, rest: seq<string>)
    requires IsBlock(block, service) && (rest != [] ==> EndsBlock(rest[0]))
    ensures EndOf(front + block + rest, |front| + 1) == |front| + |block|
  {
    hide Opens, EndsBlock, Find;
    var next, start, k := front + block + rest, |front|, |front| + |block|;
    assert forall j :: start < j < k ==> next[j] == block[1..][j - start - 1];
    assert k < |next| ==> next[k] == rest[0];
    FindIs(next, EndsBlock, start + 1, k);
  }

  /** The last non-empty value wins, whatever was set before; with one value twice, setting is idempotent. */
  lemma LastSetWins(lines: seq<string>, service: string, rule: Rule, first: string, second: string)
    requires Set(lines, service, rule, first).Edited? && UrlAllowed(rule, second) && Trim(second) != ""
    ensures Set(Set(lines, service, rule, first).lines, service, rule, second) == Set(lines, service, rule, second)
  {
    hide Own, Opens, EndsBlock, Find, EditBlock, UrlAllowed, Without, Trim, Opener;
    EditsOnlyTheBlock(lines, service, rule, first);
    BlockIsBlock(lines, service);
    EditStaysBlock(rule, BlockOf(lines, service), service, first);
    EditBlockTwice(rule, BlockOf(lines, service), first, second);
  }

  /** Icon, address and public address leave each other's lines alone. */
  lemma OtherLabelsStay(lines: seq<string>, service: string, rule: Rule, other: Rule, url: string)
    requires Set(lines, service, rule, url).Edited? && rule != other
    ensures Only(other, BlockOf(Set(lines, service, rule, url).lines, service)) == Only(other, BlockOf(lines, service))
  {
    hide Own, Find, EditBlock, Only, UrlAllowed;
    EditsOnlyTheBlock(lines, service, rule, url);
    EditKeepsOthers(rule, other, BlockOf(lines, service), url);
  }

  // ---- The icons read back

  /** What an icon label on a line says. */
  type IconOf = string -> Option<string>

  datatype Reader = Reader(inServices: bool, current: Option<string>, out: map<string, string>)

  predicate ServicesHeader(line: string) {
    |line| >= 9 && line[..9] == "services:" && Tail(line[9..])
  }

  predicate TopLevel(line: string) {
    line != "" && !IsSpace(line[0]) && line[0] != '#'
  }

  /** Service names with a dot are not recognised here. */
  function IconService(line: string): Option<string> {
    match ServiceHead(line)
    case Some(name) => if '.' in name then None else Some(name)
    case None => None
  }

  function ReadLine(r: Reader, line: string, iconOf: IconOf): Reader {
    if ServicesHeader(line) then Reader(true, None, r.out)
    else
      var s := if r.inServices && TopLevel(line) then Reader(false, None, r.out) else r;
      if !s.inServices then s
      else if IconService(line).Some? then s.(current := IconService(line))
      else if s.current.None? || iconOf(line).None? then s
      else s.(out := s.out[s.current.value := iconOf(line).value])
  }

  function ReadLines(r: Reader, lines: seq<string>, iconOf: IconOf): Reader {
    if lines == [] then r
    else ReadLine(ReadLines(r, lines[..|lines| - 1], iconOf), lines[|lines| - 1], iconOf)
  }

  function Icons(lines: seq<string>, iconOf: IconOf): map<string, string> {
    ReadLines(Reader(false, None, map[]), lines, iconOf).out
  }

  method ExtractComposeServiceIcons(lines: seq<string>, iconOf: IconOf) returns (out: map<string, string>)
    ensures out == Icons(lines, iconOf)
  {
    hide ServicesHeader, TopLevel, IconService;
    out := map[];
    var inServices := false;
    var currentService: Option<string> := None;
    for k := 0 to |lines|
      invariant Reader(inServices, currentService, out) == ReadLines(Reader(false, None, map[]), lines[..k], iconOf)
    {
      var line := lines[k];
      assert lines[..k + 1][..k] == lines[..k];
      if ServicesHeader(line) {
        inServices := true;
        currentService := None;
        continue;
      }
      if inServices && TopLevel(line) {
        inServices := false;
        currentService := None;
      }
      if !inServices {
        continue;
      }
      var service := IconService(line);
      if service.Some? {
        currentService := service;
        continue;
      }
      if currentService.None? {
        continue;
      }
      var url := iconOf(line);
      if url.Some? {
        out := out[currentService.value := url.value];
      }
    }
    assert lines[..|lines|] == lines;
  }

  lemma {:induction false} ReadAppend(r: Reader, a: seq<string>, b: seq<string>, iconOf: IconOf)
    ensures ReadLines(r, a + b, iconOf) == ReadLines(ReadLines(r, a, iconOf), b, iconOf)
  {
    hide ReadLine;
    if b == [] {
      assert a + b == a;
    } else {
      ReadAppend(r, a, b[..|b| - 1], iconOf);
      assert (a + b)[..|a + b| - 1] == a + b[..|b| - 1];
    }
  }

  /** The same but for one service's icon. */
  predicate Alike(r: Reader, s: Reader, service: string) {
    r.inServices == s.inServices && r.current == s.current && r.out - {service} == s.out - {service}
  }

  lemma {:induction false} AlikeStays(r: Reader, s: Reader, lines: seq<string>, iconOf: IconOf, service: string)
    requires Alike(r, s, service)
    ensures Alike(ReadLines(r, lines, iconOf), ReadLines(s, lines, iconOf), service)
  {
    hide ReadLine;
    if lines != [] {
      AlikeStays(r, s, lines[..|lines| - 1], iconOf, service);
      AlikeStep(ReadLines(r, lines[..|lines| - 1], iconOf), ReadLines(s, lines[..|lines| - 1], iconOf),
        lines[|lines| - 1], iconOf, service);
    }
  }

  lemma AlikeStep(r: Reader, s: Reader, line: string, iconOf: IconOf, service: string)
    requires Alike(r, s, service)
    ensures Alike(ReadLine(r, line, iconOf), ReadLine(s, line, iconOf), service)
  {
    hide ServicesHeader, TopLevel, IconService;
    var n, m := ReadLine(r, line, iconOf), ReadLine(s, line, iconOf);
    if n.out != r.out && r.current.Some? {
      SameUpdate(r.out, s.out, service, r.current.value, n.out[r.current.value]);
    }
  }

  lemma UpdateMinus(a: map<string, string>, service: string, key: string, value: string)
    ensures a[key := value] - {service} == if key == service then a - {service} else (a - {service})[key := value]
  {
  }

  lemma SameUpdate(a: map<string, string>, b: map<string, string>, service: string, key: string, value: string)
    requires a - {service} == b - {service}
    ensures a[key := value] - {service} == b[key := value] - {service}
  {
    UpdateMinus(a, service, key, value);
    UpdateMinus(b, service, key, value);
  }

  lemma SectionsAreTop(line: string)
    requires line != "" && IsSpace(line[0])
    ensures !ServicesHeader(line) && !TopLevel(line)
  {
    assert |line| >= 9 ==> line[..9][0] == line[0];
    assert "services:"[0] == 's';
  }

  lemma InnerIsPlain(line: string)
    requires !EndsBlock(line)
    ensures !ServicesHeader(line) && !TopLevel(line) && IconService(line) == None
  {
    hide IsSpace, Headed, Tail, TopLevel, ServicesHeader;
    if line != "" {
      SectionsAreTop(line);
    } else {
      EmptyIsPlain();
    }
    if ServiceHead(line).Some? {
      HeadedOf(line);
    }
  }

  lemma EmptyIsPlain()
    ensures !ServicesHeader("") && !TopLevel("")
  {
  }

  lemma InnerStep(r: Reader, line: string, iconOf: IconOf, service: string)
    requires !EndsBlock(line) && (r.inServices ==> r.current == Some(service))
    ensures Alike(ReadLine(r, line, iconOf), r, service)
  {
    hide ServicesHeader, TopLevel, IconService, EndsBlock;
    InnerIsPlain(line);
    if r.inServices && iconOf(line).Some? {
      UpdateMinus(r.out, service, service, iconOf(line).value);
    }
  }

  lemma {:induction false} InnerLines(r: Reader, lines: seq<string>, iconOf: IconOf, service: string)
    requires (forall line <- lines :: !EndsBlock(line)) && (r.inServices ==> r.current == Some(service))
    ensures Alike(ReadLines(r, lines, iconOf), r, service)
  {
    hide ReadLine, EndsBlock;
    if lines != [] {
      InnerLines(r, lines[..|lines| - 1], iconOf, service);
      InnerStep(ReadLines(r, lines[..|lines| - 1], iconOf), lines[|lines| - 1], iconOf, service);
    }
  }

  lemma HeadIsIndented(line: string)
    requires Headed(line)
    ensures line != "" && IsSpace(line[0])
  {
    hide IsSpace;
    var lead := line[..Lead(line)];
    assert lead == "" || Lead(line) > 0;
    assert Width("") == 0;
  }

  lemma HeadLine(r: Reader, line: string, iconOf: IconOf, service: string)
    requires Opens(line, service) && '.' !in service
    ensures var n := ReadLine(r, line, iconOf); n.inServices ==> n.current == Some(service)
  {
    hide ServicesHeader, TopLevel, ServiceHead, Headed, IsSpace;
    HeadedOf(line);
    HeadIsIndented(line);
    SectionsAreTop(line);
  }

  lemma BlockReads(r: Reader, block: seq<string>, next: seq<string>, iconOf: IconOf, service: string)
    requires IsBlock(block, service) && IsBlock(next, service) && block[0] == next[0] && '.' !in service
    ensures Alike(ReadLines(r, block, iconOf), ReadLines(r, next, iconOf), service)
  {
    hide ReadLine, Opens, EndsBlock, ReadLines;
    var head := [block[0]];
    assert block == head + block[1..] && next == head + next[1..];
    ReadAppend(r, head, block[1..], iconOf);
    ReadAppend(r, head, next[1..], iconOf);
    ReadOne(r, block[0], iconOf);
    HeadLine(r, block[0], iconOf, service);
    InnerLines(ReadLine(r, block[0], iconOf), block[1..], iconOf, service);
    InnerLines(ReadLine(r, block[0], iconOf), next[1..], iconOf, service);
  }

  lemma ReadOne(r: Reader, line: string, iconOf: IconOf)
    ensures ReadLines(r, [line], iconOf) == ReadLine(r, line, iconOf)
  {
    hide ReadLine;
    assert ReadLines(r, [line][..0], iconOf) == r;
  }

  lemma ReadThree(r: Reader, a: seq<string>, b: seq<string>, c: seq<string>, iconOf: IconOf)
    ensures ReadLines(r, a + b + c, iconOf) == ReadLines(ReadLines(ReadLines(r, a, iconOf), b, iconOf), c, iconOf)
  {
    hide ReadLines;
    ReadAppend(r, a + b, c, iconOf);
    ReadAppend(r, a, b, iconOf);
  }

  lemma BlockSwapReads(
    before: seq<string>, block: seq<string>, next: seq<string>, after: seq<string>, iconOf: IconOf, service: string)
    requires IsBlock(block, service) && IsBlock(next, service) && block[0] == next[0] && '.' !in service
    ensures Icons(before + block + after, iconOf) - {service} == Icons(before + next + after, iconOf) - {service}
  {
    hide ReadLines, IsBlock;
    var init := Reader(false, None, map[]);
    var r := ReadLines(init, before, iconOf);
    ReadThree(init, before, block, after, iconOf);
    ReadThree(init, before, next, after, iconOf);
    BlockReads(r, block, next, iconOf, service);
    AlikeStays(ReadLines(r, block, iconOf), ReadLines(r, next, iconOf), after, iconOf, service);
  }

  /** For a service whose name has no dot, every edit leaves the icons of all other services as they were. */
  lemma OtherIconsStay(lines: seq<string>, service: string, rule: Rule, url: string, iconOf: IconOf)
    requires Set(lines, service, rule, url).Edited? && '.' !in service
    ensures Icons(Set(lines, service, rule, url).lines, iconOf) - {service} == Icons(lines, iconOf) - {service}
  {
    hide Opens, EndsBlock, Find, EditBlock, UrlAllowed, Icons, Opener;
    var start := StartOf(lines, service);
    var block := BlockOf(lines, service);
    BlockIsBlock(lines, service);
    EditStaysBlock(rule, block, service, url);
    BlockSwapReads(lines[..start], block, EditBlock(rule, block, url), lines[EndOf(lines, start + 1)..], iconOf, service);
    assert lines == lines[..start] + block + lines[EndOf(lines, start + 1)..];
  }
}
