/** Icons of services with a dot in their name: the label editor finds such a service, the icon reader does not. */
module DottedServices {
  import opened Text
  import opened ComposeLabels
  import opened ComposeLabelLaws

  const UNREAD := Reader(false, None, map[])

  /** The service whose icons the reader is looking for when it comes to the block of `dotted`. */
  function Above(lines: seq<string>, dotted: string, iconOf: IconOf): Option<string> {
    var r := ReadLines(UNREAD, lines[..StartOf(lines, dotted)], iconOf);
    if r.inServices then r.current else None
  }

  /** The block that the icon line goes into. */
  function Base(kept: seq<string>): seq<string>
    requires kept != []
  {
    if HeaderIndex(kept) < |kept| then kept else WithHeader(kept)
  }

  /** The place it takes there. */
  function Slot(kept: seq<string>): (k: nat)
    requires kept != []
    ensures 0 < k <= |Base(kept)|
  {
    if HeaderIndex(kept) < |kept| then HeaderIndex(kept) + 1 else 2
  }

  lemma InsertAtSlot(kept: seq<string>, line: string)
    requires kept != []
    ensures Insert(kept, line) == Base(kept)[..Slot(kept)] + [line] + Base(kept)[Slot(kept)..]
  {
    hide Find, LabelsHeader, Header;
    if HeaderIndex(kept) == |kept| {
      assert Base(kept)[..2] == kept[..1] + [Header()] && Base(kept)[2..] == kept[1..];
    }
  }

  /** A file taken apart where the edit puts the icon line: what stands in front of it and behind it. */
  datatype Halves = Halves(front: seq<string>, back: seq<string>)

  function Around(lines: seq<string>, service: string): Halves
    requires StartOf(lines, service) < |lines|
    requires Without(Icon, BlockOf(lines, service)) != []
  {
    var start := StartOf(lines, service);
    var kept := Without(Icon, BlockOf(lines, service));
    Halves(lines[..start] + Base(kept)[..Slot(kept)], Base(kept)[Slot(kept)..] + lines[EndOf(lines, start + 1)..])
  }

  /** What the reader gathers for services from these lines, coming to them within `plain`. */
  function Later(plain: string, lines: seq<string>, iconOf: IconOf): map<string, string> {
    ReadLines(Reader(true, Some(plain), map[]), lines, iconOf).out
  }

  /** What is gathered later is laid over what was gathered before. */
  lemma {:induction false} ReadOver(r: Reader, lines: seq<string>, iconOf: IconOf)
    ensures var n, alone := ReadLines(r, lines, iconOf), ReadLines(r.(out := map[]), lines, iconOf);
      n == alone.(out := r.out + alone.out)
  {
    hide ReadLine;
    if lines == [] {
      assert r.out + map[] == r.out;
    } else {
      var front, last := lines[..|lines| - 1], lines[|lines| - 1];
      ReadOver(r, front, iconOf);
      LineOver(ReadLines(r.(out := map[]), front, iconOf), r.out, last, iconOf);
    }
  }

  lemma LineOver(r: Reader, out: map<string, string>, line: string, iconOf: IconOf)
    ensures ReadLine(r.(out := out + r.out), line, iconOf)
         == ReadLine(r, line, iconOf).(out := out + ReadLine(r, line, iconOf).out)
  {
    hide ServicesHeader, TopLevel, IconService;
    if r.current.Some? && iconOf(line).Some? {
      SetOver(out, r.out, r.current.value, iconOf(line).value);
    }
  }

  lemma SetOver(a: map<string, string>, b: map<string, string>, key: string, value: string)
    ensures a + b[key := value] == (a + b)[key := value]
  {
  }

  /** The first lines of a dotted service's block leave the reader where it was. */
  lemma {:induction false} PassesBlock(r: Reader, block: seq<string>, dotted: string, iconOf: IconOf)
    requires IsBlock(block, dotted) && '.' in dotted
    ensures var n := ReadLines(r, block, iconOf); n.inServices == r.inServices && (r.inServices ==> n.current == r.current)
    decreases |block|
  {
    hide ReadLine, Opens, EndsBlock;
    var front, last := block[..|block| - 1], block[|block| - 1];
    if front == [] {
      assert ReadLines(r, front, iconOf) == r;
      HeadPassesBy(r, last, dotted, iconOf);
    } else {
      assert block[1..][|block| - 2] == last;
      assert front[1..] == block[1..][..|block| - 2];
      PassesBlock(r, front, dotted, iconOf);
      InnerPasses(ReadLines(r, front, iconOf), last, iconOf);
    }
  }

  lemma HeadPassesBy(r: Reader, head: string, dotted: string, iconOf: IconOf)
    requires Opens(head, dotted) && '.' in dotted
    ensures var n := ReadLine(r, head, iconOf); n.inServices == r.inServices && (r.inServices ==> n.current == r.current)
  {
    hide ServicesHeader, TopLevel, ServiceHead, Headed;
    HeadedOf(head);
    HeadIsIndented(head);
    SectionsAreTop(head);
  }

  lemma InnerPasses(r: Reader, line: string, iconOf: IconOf)
    requires !EndsBlock(line)
    ensures ReadLine(r, line, iconOf)
         == if !r.inServices || r.current.None? || iconOf(line).None? then r
            else r.(out := r.out[r.current.value := iconOf(line).value])
  {
    hide ServicesHeader, TopLevel, IconService, EndsBlock;
    InnerIsPlain(line);
  }

  /** The edit puts the line between the two halves. */
  lemma SetIsBetween(lines: seq<string>, service: string, url: string)
    requires StartOf(lines, service) < |lines| && Trim(url) != ""
    ensures Without(Icon, BlockOf(lines, service)) != []
    ensures var halves := Around(lines, service);
      Set(lines, service, Icon, url) == Edited(halves.front + [LabelLine(Icon, Trim(url))] + halves.back)
  {
    hide Own, Opens, EndsBlock, Find, Without, Insert, Base, Slot, LabelLine, Trim, Opener;
    var start := StartOf(lines, service);
    var block := BlockOf(lines, service);
    BlockIsBlock(lines, service);
    EditStaysBlock(Icon, block, service, url);
    InsertAtSlot(Without(Icon, block), LabelLine(Icon, Trim(url)));
  }

  /** In front of the line the reader stands where it stood before the block. */
  lemma FrontLeadsHere(lines: seq<string>, dotted: string, iconOf: IconOf)
    requires StartOf(lines, dotted) < |lines| && '.' in dotted && Without(Icon, BlockOf(lines, dotted)) != []
    ensures var r := ReadLines(UNREAD, Around(lines, dotted).front, iconOf);
      Above(lines, dotted, iconOf) == if r.inServices then r.current else None
  {
    hide Own, Opens, EndsBlock, Find, Without, ReadLines, Header, Opener;
    var start, kept := StartOf(lines, dotted), Without(Icon, BlockOf(lines, dotted));
    BlockIsBlock(lines, dotted);
    EditStaysBlock(Icon, BlockOf(lines, dotted), dotted, "");
    EmptyTrims();
    BaseIsBlock(kept, dotted);
    ReadAppend(UNREAD, lines[..start], Base(kept)[..Slot(kept)], iconOf);
    PassesBlock(ReadLines(UNREAD, lines[..start], iconOf), Base(kept)[..Slot(kept)], dotted, iconOf);
  }

  lemma EmptyTrims()
    ensures Trim("") == ""
  {
  }

  lemma BaseIsBlock(kept: seq<string>, service: string)
    requires IsBlock(kept, service)
    ensures IsBlock(Base(kept)[..Slot(kept)], service)
  {
    hide Opens, EndsBlock, Find, Header, LabelsHeader;
    HeaderFacts(Icon);
    var base, front := Base(kept), Base(kept)[..Slot(kept)];
    assert forall x <- front[1..] :: x in base[1..];
    assert forall x <- base[1..] :: x == Header() || x in kept[1..];
  }

  /**
   * Where the icon of a dotted service goes, wherever that service stands: to the service above, unless a later line
   * read for that one names an icon too, or there is none above. Everything else is read as without the line.
   */
  lemma DottedIconGoesAbove(lines: seq<string>, dotted: string, url: string, iconOf: IconOf)
    requires StartOf(lines, dotted) < |lines| && '.' in dotted && Trim(url) != ""
    ensures Without(Icon, BlockOf(lines, dotted)) != [] && Set(lines, dotted, Icon, url).Edited?
    ensures var halves, above := Around(lines, dotted), Above(lines, dotted, iconOf);
      var icon := iconOf(LabelLine(Icon, Trim(url)));
      Icons(Set(lines, dotted, Icon, url).lines, iconOf)
      == if above.Some? && icon.Some? && above.value !in Later(above.value, halves.back, iconOf)
         then Icons(halves.front + halves.back, iconOf)[above.value := icon.value]
         else Icons(halves.front + halves.back, iconOf)
  {
    hide Own, Set, Around, Find, Without, ReadLines, LabelLine, Trim, Above, BlockOf;
    SetIsBetween(lines, dotted, url);
    FrontLeadsHere(lines, dotted, iconOf);
    var halves, line := Around(lines, dotted), LabelLine(Icon, Trim(url));
    LabelLineFacts(Icon, Trim(url));
    LineBetween(halves, line, iconOf);
  }

  /** One line more between two halves. */
  lemma LineBetween(halves: Halves, line: string, iconOf: IconOf)
    requires !EndsBlock(line)
    ensures var r := ReadLines(UNREAD, halves.front, iconOf);
      Icons(halves.front + [line] + halves.back, iconOf)
      == if && r.inServices && r.current.Some? && iconOf(line).Some?
            && r.current.value !in Later(r.current.value, halves.back, iconOf)
         then Icons(halves.front + halves.back, iconOf)[r.current.value := iconOf(line).value]
         else Icons(halves.front + halves.back, iconOf)
  {
    hide ReadLine, ReadLines, EndsBlock;
    var r := ReadLines(UNREAD, halves.front, iconOf);
    ReadThree(UNREAD, halves.front, [line], halves.back, iconOf);
    ReadAppend(UNREAD, halves.front, halves.back, iconOf);
    ReadOne(r, line, iconOf);
    InnerPasses(r, line, iconOf);
    ReadOver(r, halves.back, iconOf);
    if r.inServices && r.current.Some? && iconOf(line).Some? {
      var key, value := r.current.value, iconOf(line).value;
      ReadOver(r.(out := r.out[key := value]), halves.back, iconOf);
      LaidOver(r.out, Later(key, halves.back, iconOf), key, value);
    }
  }

  lemma LaidOver(a: map<string, string>, b: map<string, string>, key: string, value: string)
    ensures a[key := value] + b == if key in b then a + b else (a + b)[key := value]
  {
  }

  /** A service without that icon otherwise gets it exactly when it stands above and no later line of it names one. */
  lemma DottedIconReachesIff(lines: seq<string>, dotted: string, url: string, iconOf: IconOf, plain: string)
    requires StartOf(lines, dotted) < |lines| && '.' in dotted && Trim(url) != ""
    requires iconOf(LabelLine(Icon, Trim(url))) == Some(Trim(url))
    requires Without(Icon, BlockOf(lines, dotted)) != []
    requires (plain, Trim(url)) !in Icons(Around(lines, dotted).front + Around(lines, dotted).back, iconOf).Items
    ensures Set(lines, dotted, Icon, url).Edited?
    ensures (plain, Trim(url)) in Icons(Set(lines, dotted, Icon, url).lines, iconOf).Items
       <==> && Above(lines, dotted, iconOf) == Some(plain)
            && plain !in Later(plain, Around(lines, dotted).back, iconOf)
  {
    hide Around, Icons, Set, Above, Later, StartOf, BlockOf, Without, Trim, LabelLine;
    DottedIconGoesAbove(lines, dotted, url, iconOf);
  }

  // ---- The case of a dotted service that ends the file

  predicate ServiceName(name: string) {
    name != "" && (IsLetter(name[0]) || IsDigit(name[0])) && forall i :: 0 <= i < |name| ==> HeadNameChar(name[i])
  }

  function HeadText(name: string): string {
    "  " + name + ":"
  }

  lemma HeadTextParts(name: string)
    requires ServiceName(name)
    ensures var line := HeadText(name);
      && |line| == |name| + 3 && line[2] == name[0] && line[2..|name| + 2] == name && line[|name| + 2] == ':'
      && line[|name| + 3..] == ""
      && Lead(line) == 2 && Blanks(line[..2]) && Width(line[..2]) == 2 && RunEnd(line, 2, HeadNameChar) == |name| + 2
  {
    hide IsSpace, Lead, Width, RunEnd;
    var line := HeadText(name);
    KeyChars();
    NameStartNoSpace(name[0]);
    assert line[0] == ' ' && line[1] == ' ' && line[2] == name[0];
    LeadIs(line, 2);
    SpacesWidth(2, line[..2]);
    var e := 2 + |name|;
    assert forall j :: 2 <= j < e ==> line[j] == name[j - 2];
    assert line[e] == ':' && !HeadNameChar(':');
    NameEndIs(line, 2, e);
    assert line[2..e] == name && line[e + 1..] == "";
  }

  lemma HeadTextOpens(name: string)
    requires ServiceName(name)
    ensures ServiceHead(HeadText(name)) == Some(name) && EndsBlock(HeadText(name))
  {
    hide HeadText, IsSpace, Lead, Width, RunEnd, Tail, Blanks;
    HeadTextParts(name);
    EmptyTail();
    assert Headed(HeadText(name));
  }

  lemma NameStartNoSpace(c: char)
    requires IsLetter(c) || IsDigit(c)
    ensures !IsSpace(c)
  {
  }

  lemma NameEndIs(s: string, i: nat, k: nat)
    requires i <= k < |s| && !HeadNameChar(s[k]) && forall j :: i <= j < k ==> HeadNameChar(s[j])
    ensures RunEnd(s, i, HeadNameChar) == k
  {
  }

  lemma EmptyTail()
    ensures Tail("")
  {
  }

  lemma ServicesLine()
    ensures ServicesHeader("services:") && ServiceHead("services:") == None
  {
    assert "services:"[..9] == "services:" && "services:"[9..] == "";
    EmptyTail();
    NameStartNoSpace('s');
    LeadIs("services:", 0);
    assert "services:"[..0] == "";
  }

  /**
   * Setting the icon of a dotted service that ends the file, with no lines of its own yet, gives it to the service
   * above: the one whose icon the reader is looking for when it comes to that line.
   */
  lemma DottedServiceLeaks(before: seq<string>, head: string, plain: string, dotted: string, url: string, iconOf: IconOf)
    requires Opens(head, dotted) && '.' in dotted && forall line <- before :: !Opens(line, dotted)
    requires var r := ReadLines(Reader(false, None, map[]), before, iconOf); r.inServices && r.current == Some(plain)
    requires Trim(url) == url && url != ""
    requires iconOf(LabelLine(Icon, url)) == Some(url) && iconOf(head) == None && iconOf(Header()) == None
    ensures var lines := before + [head];
      Set(lines, dotted, Icon, url).Edited?
      && Icons(Set(lines, dotted, Icon, url).lines, iconOf) == Icons(lines, iconOf)[plain := url]
  {
    hide Own, Find, Header, LabelLine, Trim, EndsBlock, ServiceHead, LabelsHeader, Without, ServicesHeader, TopLevel,
         ReadLines, ReadLine;
    var lines := before + [head];
    LastServiceIsSet(before, head, dotted, url);
    hide Set;
    var init := Reader(false, None, map[]);
    var r := ReadLines(init, before, iconOf);
    ReadAppend(init, before, [head], iconOf);
    ReadOne(r, head, iconOf);
    DottedPasses(r, head, dotted, iconOf);
    ReadLabel(lines, plain, url, iconOf);
  }

  /** The edit of a service that ends the file, with no lines of its own. */
  lemma LastServiceIsSet(before: seq<string>, head: string, service: string, url: string)
    requires Opens(head, service) && forall line <- before :: !Opens(line, service)
    requires Trim(url) == url && url != ""
    ensures Set(before + [head], service, Icon, url) == Edited(before + [head] + [Header(), LabelLine(Icon, url)])
  {
    hide Own, Opens, Opener, Find, Header, LabelLine, Trim, EndsBlock, EditBlock;
    var lines, line, n := before + [head], LabelLine(Icon, url), |before|;
    forall k | 0 <= k <= n ensures Opener(service)(lines[k]) <==> k == n {
      OpenerOpens(lines[k], service);
      assert k < n ==> lines[k] == before[k];
    }
    FindIs(lines, Opener(service), 0, n);
    FindIs(lines, EndsBlock, n + 1, n + 1);
    assert lines[n..n + 1] == [head];
    SingleBlock(head, line, url, service);
    assert lines[..n] + [head, Header(), line] + lines[n + 1..] == lines + [Header(), line];
  }

  /** The reader takes no notice of a dotted service's first line. */
  lemma DottedPasses(r: Reader, head: string, dotted: string, iconOf: IconOf)
    requires Opens(head, dotted) && '.' in dotted && iconOf(head) == None && r.inServices
    ensures ReadLine(r, head, iconOf) == r
  {
    hide ServicesHeader, TopLevel, ServiceHead, Headed;
    HeadedOf(head);
    HeadIsIndented(head);
    SectionsAreTop(head);
  }

  /** The case of two services without lines of their own. */
  lemma DottedServiceFile(plain: string, dotted: string, iconOf: IconOf)
    requires ServiceName(plain) && '.' !in plain && ServiceName(dotted) && '.' in dotted
    ensures var before := ["services:", HeadText(plain)];
      && Opens(HeadText(dotted), dotted) && (forall line <- before :: !Opens(line, dotted))
      && ReadLines(Reader(false, None, map[]), before, iconOf) == Reader(true, Some(plain), map[])
  {
    hide HeadText, ServiceHead, ServicesHeader, TopLevel;
    var init := Reader(false, None, map[]);
    ServicesLine();
    HeadTextOpens(plain);
    HeadTextOpens(dotted);
    HeadPasses(plain);
    ReadOne(init, "services:", iconOf);
    ReadAppend(init, ["services:"], [HeadText(plain)], iconOf);
    ReadOne(Reader(true, None, map[]), HeadText(plain), iconOf);
    assert ["services:"] + [HeadText(plain)] == ["services:", HeadText(plain)];
  }

  lemma SingleBlock(head: string, line: string, url: string, service: string)
    requires Opens(head, service) && line == LabelLine(Icon, Trim(url)) && Trim(url) != ""
    ensures EditBlock(Icon, [head], url) == [head, Header(), line]
  {
    hide Own, Header, LabelLine, Trim, LabelsHeader, ServiceHead, Find, Without;
    HeadedOf(head);
    HeadNotOwned(Icon, head);
    WithoutOne(Icon, head);
    FindIs([head], LabelsHeader, 0, 1);
    assert [head][..1] + [Header(), line] + [head][1..] == [head, Header(), line];
  }

  lemma HeadPasses(name: string)
    requires ServiceName(name)
    ensures !ServicesHeader(HeadText(name)) && !TopLevel(HeadText(name))
  {
    hide ServicesHeader, TopLevel, ServiceHead, HeadText, Headed;
    HeadTextOpens(name);
    HeadedOf(HeadText(name));
    HeadIsIndented(HeadText(name));
    SectionsAreTop(HeadText(name));
  }

  lemma ReadLabel(lines: seq<string>, plain: string, url: string, iconOf: IconOf)
    requires var r := ReadLines(Reader(false, None, map[]), lines, iconOf); r.inServices && r.current == Some(plain)
    requires iconOf(LabelLine(Icon, url)) == Some(url) && iconOf(Header()) == None
    ensures Icons(lines + [Header(), LabelLine(Icon, url)], iconOf) == Icons(lines, iconOf)[plain := url]
  {
    hide Header, LabelLine, ReadLine, ReadLines, EndsBlock;
    var r := ReadLines(Reader(false, None, map[]), lines, iconOf);
    ReadThree(Reader(false, None, map[]), lines, [Header()], [LabelLine(Icon, url)], iconOf);
    assert lines + [Header(), LabelLine(Icon, url)] == lines + [Header()] + [LabelLine(Icon, url)];
    ReadOne(r, Header(), iconOf);
    ReadOne(r, LabelLine(Icon, url), iconOf);
    HeaderFacts(Icon);
    LabelLineFacts(Icon, url);
    InnerPasses(r, Header(), iconOf);
    InnerPasses(r, LabelLine(Icon, url), iconOf);
  }
}
