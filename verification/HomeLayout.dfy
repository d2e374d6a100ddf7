/** The server's normaliser of the shared home layout. */
module HomeLayout {
  import opened Text
  import opened HomeBox

  /** A parsed JSON value; `Infinite` is a number beyond the finite ones. Field names are distinct. */
  datatype Json =
    | Null
    | Bool(b: bool)
    | Num(value: real)
    | Infinite
    | Str(s: string)
    | Arr(items: seq<Json>)
    | Obj(fields: seq<Field>)

  datatype Field = Field(name: string, value: Json)

  const MAX_LINKS := 40
  const MAX_DEPARTMENTS := 24
  const MAX_ORDER := 200
  const MAX_TEXT := 160
  const MAX_URL := 500
  const MAX_NAME := 80
  const MAX_DEPARTMENT_NAME := 40

  // ---- Reading a value

  function Lookup(fields: seq<Field>, name: string): Json {
    if fields == [] then Null
    else if fields[0].name == name then fields[0].value
    else Lookup(fields[1..], name)
  }

  /** A missing field, or a field of something that is no record, is `Null`. */
  function Get(input: Json, name: string): Json {
    if input.Obj? then Lookup(input.fields, name) else Null
  }

  function TextOf(input: Json): string {
    if input.Str? then Trim(input.s) else ""
  }

  function Items(input: Json): seq<Json> {
    if input.Arr? then input.items else []
  }

  function Fields(input: Json): seq<Field> {
    if input.Obj? then input.fields else []
  }

  predicate Control(c: char) {
    c <= '\U{001F}'
  }

  predicate NoControl(s: string) {
    forall i :: 0 <= i < |s| ==> !Control(s[i])
  }

  predicate SafeText(s: string) {
    0 < |s| <= MAX_TEXT && NoControl(s)
  }

  predicate IdChars(s: string) {
    4 <= |s| <= 40 && forall i :: 0 <= i < |s| ==> IsLetter(s[i]) || IsDigit(s[i]) || s[i] == '-'
  }

  /** `http` says whether the URL parser reads the text as an http or https address. */
  type UrlParser = string -> bool

  predicate IsHttpUrl(s: string, http: UrlParser) {
    s != "" && |s| <= MAX_URL && (forall i :: 0 <= i < |s| ==> !IsSpace(s[i])) && http(s)
  }

  // ---- Keeping the first of each key

  function Keys<T>(kept: seq<T>, key: T -> string): seq<string> {
    seq(|kept|, i requires 0 <= i < |kept| => key(kept[i]))
  }

  function Keep<T>(kept: seq<T>, candidate: Option<T>, max: nat, key: T -> string): seq<T> {
    if |kept| >= max || candidate.None? || key(candidate.value) in Keys(kept, key) then kept
    else kept + [candidate.value]
  }

  /** One pass over the items; what an item becomes may depend on how many were kept before it. */
  function KeepFirst<T>(items: seq<Json>, max: nat, clean: (Json, nat) -> Option<T>, key: T -> string): seq<T> {
    if items == [] then []
    else
      var kept := KeepFirst(items[..|items| - 1], max, clean, key);
      Keep(kept, clean(items[|items| - 1], |kept|), max, key)
  }

  ghost predicate Cleaned<T(!new)>(kept: seq<T>, i: nat, items: seq<Json>, clean: (Json, nat) -> Option<T>)
    requires i < |kept|
  {
    exists item <- items :: clean(item, i) == Some(kept[i])
  }

  lemma KeysSnoc<T>(kept: seq<T>, last: T, key: T -> string)
    ensures Keys(kept + [last], key) == Keys(kept, key) + [key(last)]
  {
  }

  /** At most `max`, no key twice, each made from an item. */
  lemma {:induction false} KeepFirstSpec<T(!new)>(items: seq<Json>, max: nat, clean: (Json, nat) -> Option<T>, key: T -> string)
    ensures var kept := KeepFirst(items, max, clean, key);
      && |kept| <= max && Distinct(Keys(kept, key))
      && forall i: nat :: i < |kept| ==> Cleaned(kept, i, items, clean)
  {
    if items != [] {
      var front, last := items[..|items| - 1], items[|items| - 1];
      KeepFirstSpec(front, max, clean, key);
      var before, kept := KeepFirst(front, max, clean, key), KeepFirst(items, max, clean, key);
      if clean(last, |before|).Some? {
        KeysSnoc(before, clean(last, |before|).value, key);
      }
      forall i: nat | i < |kept|
        ensures Cleaned(kept, i, items, clean)
      {
        if i < |before| {
          assert Cleaned(before, i, front, clean);
          var item :| item in front && clean(item, i) == Some(before[i]);
          assert item in items;
        } else {
          assert clean(last, i) == Some(kept[i]);
        }
      }
    }
  }

  /** What was kept is never displaced by later items. */
  lemma {:induction false} KeepFirstPrefix<T>(items: seq<Json>, n: nat, max: nat, clean: (Json, nat) -> Option<T>, key: T -> string)
    requires n <= |items|
    ensures KeepFirst(items[..n], max, clean, key) <= KeepFirst(items, max, clean, key)
  {
    if n < |items| {
      assert items[..|items| - 1][..n] == items[..n];
      KeepFirstPrefix(items[..|items| - 1], n, max, clean, key);
    } else {
      assert items[..n] == items;
    }
  }

  /** While there is room, the key of every acceptable item is kept. */
  lemma KeepFirstComplete<T>(items: seq<Json>, k: nat, id: string, max: nat, clean: (Json, nat) -> Option<T>, key: T -> string)
    requires k < |items| && |KeepFirst(items, max, clean, key)| < max
    requires forall i: nat :: clean(items[k], i).Some? && key(clean(items[k], i).value) == id
    ensures id in Keys(KeepFirst(items, max, clean, key), key)
  {
    var before, after := KeepFirst(items[..k], max, clean, key), KeepFirst(items[..k + 1], max, clean, key);
    assert items[..k + 1][..k] == items[..k];
    KeepFirstPrefix(items, k + 1, max, clean, key);
    KeysSnoc(before, clean(items[k], |before|).value, key);
    var kept := KeepFirst(items, max, clean, key);
    assert id in Keys(after, key);
    var i :| 0 <= i < |after| && Keys(after, key)[i] == id;
    assert Keys(kept, key)[i] == id;
  }

  /** A list that is clean item by item is kept whole. */
  lemma {:induction false} KeepsAll<T>(items: seq<Json>, all: seq<T>, max: nat, clean: (Json, nat) -> Option<T>, key: T -> string)
    requires |items| == |all| <= max && Distinct(Keys(all, key))
    requires forall i: nat :: i < |all| ==> clean(items[i], i) == Some(all[i])
    ensures KeepFirst(items, max, clean, key) == all
  {
    if items != [] {
      var n := |items| - 1;
      assert forall i :: 0 <= i < n ==> Keys(all[..n], key)[i] == Keys(all, key)[i];
      KeepsAll(items[..n], all[..n], max, clean, key);
      assert Keys(all, key)[n] !in Keys(all[..n], key);
      assert all == all[..n] + [all[n]];
    }
  }

  // ---- Keeping the fields that pass

  function KeepFields(fields: seq<Field>, max: nat, clean: Field -> Option<string>): seq<(string, string)> {
    if fields == [] then []
    else
      var last := fields[|fields| - 1];
      var kept := KeepFields(fields[..|fields| - 1], max, clean);
      if |kept| >= max || clean(last).None? then kept else kept + [(last.name, clean(last).value)]
  }

  function FieldsOf(pairs: seq<(string, string)>): seq<Field> {
    seq(|pairs|, i requires 0 <= i < |pairs| => Field(pairs[i].0, Str(pairs[i].1)))
  }

  predicate Passes(pair: (string, string), clean: Field -> Option<string>) {
    clean(Field(pair.0, Str(pair.1))) == Some(pair.1)
  }

  lemma {:induction false} KeepFieldsSpec(fields: seq<Field>, max: nat, clean: Field -> Option<string>)
    requires forall f <- fields :: clean(f).Some? ==> Passes((f.name, clean(f).value), clean)
    ensures var kept := KeepFields(fields, max, clean);
      |kept| <= max && forall pair <- kept :: Passes(pair, clean)
  {
    if fields != [] {
      KeepFieldsSpec(fields[..|fields| - 1], max, clean);
    }
  }

  lemma {:induction false} KeepsAllFields(pairs: seq<(string, string)>, max: nat, clean: Field -> Option<string>)
    requires |pairs| <= max && forall pair <- pairs :: Passes(pair, clean)
    ensures KeepFields(FieldsOf(pairs), max, clean) == pairs
  {
    if pairs != [] {
      var front, last := pairs[..|pairs| - 1], pairs[|pairs| - 1];
      KeepsAllFields(front, max, clean);
      assert FieldsOf(pairs)[..|pairs| - 1] == FieldsOf(front);
      assert Passes(last, clean);
      assert pairs == front + [last];
    }
  }

  // ---- The parts of a layout

  datatype Link = Link(id: string, name: string, url: string, icon: string)

  datatype Department = Department(id: string, name: string, box: Box)

  datatype Widgets = Widgets(system: bool, storage: bool, network: bool)

  function CleanText(item: Json): Option<string> {
    if item.Str? && Trim(item.s) != "" && |Trim(item.s)| <= MAX_TEXT then Some(Trim(item.s)) else None
  }

  function TextCleaner(): (Json, nat) -> Option<string> {
    (item, i) => CleanText(item)
  }

  function SameText(s: string): string {
    s
  }

  function StringList(input: Json): seq<string> {
    KeepFirst(Items(input), MAX_ORDER, TextCleaner(), SameText)
  }

  function Filter(list: seq<string>, keep: string -> bool): seq<string> {
    if list == [] then []
    else
      var front := Filter(list[..|list| - 1], keep);
      if keep(list[|list| - 1]) then front + [list[|list| - 1]] else front
  }

  function CleanUrl(http: UrlParser): Field -> Option<string> {
    (f: Field) =>
      if !SafeText(f.name) || !f.value.Str? then None
      else if f.value.s == "" then Some("")
      else if IsHttpUrl(f.value.s, http) then Some(Trim(f.value.s))
      else None
  }

  function CleanLink(item: Json, http: UrlParser): Option<Link> {
    var link := Link(TextOf(Get(item, "id")), TextOf(Get(item, "name")), TextOf(Get(item, "url")), TextOf(Get(item, "icon")));
    if item.Obj? && IdChars(link.id) && 0 < |link.name| <= MAX_NAME && IsHttpUrl(link.url, http) && IsHttpUrl(link.icon, http)
    then Some(link) else None
  }

  function LinkCleaner(http: UrlParser): (Json, nat) -> Option<Link> {
    (item, i) => CleanLink(item, http)
  }

  function LinkId(l: Link): string {
    l.id
  }

  predicate AllFinite(item: Json) {
    Get(item, "x").Num? && Get(item, "y").Num? && Get(item, "width").Num? && Get(item, "height").Num?
  }

  function BoxOf(item: Json, index: nat): Box {
    if AllFinite(item) then
      ServerBox(Box(Get(item, "x").value, Get(item, "y").value, Get(item, "width").value, Get(item, "height").value))
    else DefaultBox(index)
  }

  predicate DepartmentText(id: string, name: string) {
    IdChars(id) && Lower(id) != "loose" && 0 < |name| <= MAX_DEPARTMENT_NAME && NoControl(name)
  }

  function CleanDepartment(item: Json, index: nat): Option<Department> {
    var id, name := TextOf(Get(item, "id")), TextOf(Get(item, "name"));
    if item.Obj? && DepartmentText(id, name) then Some(Department(id, name, BoxOf(item, index))) else None
  }

  function DepartmentId(d: Department): string {
    d.id
  }

  function Ids(departments: seq<Department>): seq<string> {
    Keys(departments, DepartmentId)
  }

  function CleanPlace(known: seq<string>): Field -> Option<string> {
    (f: Field) => if SafeText(f.name) && f.value.Str? && f.value.s in known then Some(f.value.s) else None
  }

  function NormalWidgets(input: Json): Widgets {
    Widgets(Get(input, "system") != Bool(false), Get(input, "storage") != Bool(false), Get(input, "network") != Bool(false))
  }

  // ---- The whole layout

  const DOCK_KEYS: seq<string> := [
    "containers", "compose", "images", "volumes", "updates", "monitoring", "network", "backups", "logs", "terminal",
    "selfUpdate", "settings"]

  predicate IsDockKey(s: string) {
    s in DOCK_KEYS
  }

  datatype Layout = Layout(
    appOrder: seq<string>,
    containerOrder: seq<string>,
    appUrls: seq<(string, string)>,
    appPublicUrls: seq<(string, string)>,
    links: seq<Link>,
    widgets: Widgets,
    departments: seq<Department>,
    appDepartments: seq<(string, string)>)

  function Links(input: Json, http: UrlParser): seq<Link> {
    KeepFirst(Items(input), MAX_LINKS, LinkCleaner(http), LinkId)
  }

  function Departments(input: Json): seq<Department> {
    KeepFirst(Items(input), MAX_DEPARTMENTS, CleanDepartment, DepartmentId)
  }

  function Urls(input: Json, http: UrlParser): seq<(string, string)> {
    KeepFields(Fields(input), MAX_ORDER, CleanUrl(http))
  }

  function Places(input: Json, known: seq<string>): seq<(string, string)> {
    KeepFields(Fields(input), MAX_ORDER, CleanPlace(known))
  }

  function Normalize(input: Json, http: UrlParser): Layout {
    var departments := Departments(Get(input, "departments"));
    Layout(
      Filter(StringList(Get(input, "appOrder")), IsDockKey),
      Filter(StringList(Get(input, "containerOrder")), SafeText),
      Urls(Get(input, "appUrls"), http),
      Urls(Get(input, "appPublicUrls"), http),
      Links(Get(input, "links"), http),
      NormalWidgets(Get(input, "widgets")),
      departments,
      Places(Get(input, "appDepartments"), Ids(departments)))
  }

  // ---- The loops

  method StringListLoop(input: Json) returns (next: seq<string>)
    ensures next == StringList(input)
  {
    hide Trim;
    next := [];
    if !input.Arr? {
      return;
    }
    var items := input.items;
    var seen: set<string> := {};
    for k := 0 to |items|
      invariant next == KeepFirst(items[..k], MAX_ORDER, TextCleaner(), SameText)
      invariant forall s :: s in seen <==> s in Keys(next, SameText)
    {
      assert items[..k + 1][..k] == items[..k];
      if |next| >= MAX_ORDER || !items[k].Str? {
        continue;
      }
      var value := Trim(items[k].s);
      if value == "" || |value| > MAX_TEXT || value in seen {
        continue;
      }
      KeysSnoc(next, value, SameText);
      seen := seen + {value};
      next := next + [value];
    }
    assert items[..|items|] == items;
  }

  method NormalizeLinks(input: Json, http: UrlParser) returns (links: seq<Link>)
    ensures links == Links(input, http)
  {
    hide IdChars, IsHttpUrl, TextOf, Get;
    links := [];
    if !input.Arr? {
      return;
    }
    var items := input.items;
    var seen: set<string> := {};
    for k := 0 to |items|
      invariant links == KeepFirst(items[..k], MAX_LINKS, LinkCleaner(http), LinkId)
      invariant forall s :: s in seen <==> s in Keys(links, LinkId)
    {
      assert items[..k + 1][..k] == items[..k];
      if |links| >= MAX_LINKS || !items[k].Obj? {
        continue;
      }
      var id, name := TextOf(Get(items[k], "id")), TextOf(Get(items[k], "name"));
      var url, icon := TextOf(Get(items[k], "url")), TextOf(Get(items[k], "icon"));
      if !IdChars(id) || id in seen {
        continue;
      }
      if name == "" || |name| > MAX_NAME {
        continue;
      }
      if !IsHttpUrl(url, http) || !IsHttpUrl(icon, http) {
        continue;
      }
      KeysSnoc(links, Link(id, name, url, icon), LinkId);
      seen := seen + {id};
      links := links + [Link(id, name, url, icon)];
    }
    assert items[..|items|] == items;
  }

  method NormalizeDepartments(input: Json) returns (departments: seq<Department>)
    ensures departments == Departments(input)
  {
    hide IdChars, TextOf, Get, NoControl, Lower, ServerBox;
    departments := [];
    if !input.Arr? {
      return;
    }
    var items := input.items;
    var seen: set<string> := {};
    for k := 0 to |items|
      invariant departments == KeepFirst(items[..k], MAX_DEPARTMENTS, CleanDepartment, DepartmentId)
      invariant forall s :: s in seen <==> s in Keys(departments, DepartmentId)
    {
      assert items[..k + 1][..k] == items[..k];
      if |departments| >= MAX_DEPARTMENTS || !items[k].Obj? {
        continue;
      }
      var id, name := TextOf(Get(items[k], "id")), TextOf(Get(items[k], "name"));
      if !IdChars(id) || id in seen || Lower(id) == "loose" {
        continue;
      }
      if name == "" || |name| > MAX_DEPARTMENT_NAME || !NoControl(name) {
        continue;
      }
      var department := Department(id, name, BoxOf(items[k], |departments|));
      KeysSnoc(departments, department, DepartmentId);
      seen := seen + {id};
      departments := departments + [department];
    }
    assert items[..|items|] == items;
  }

  lemma {:induction false} FullStays(fields: seq<Field>, k: nat, max: nat, clean: Field -> Option<string>)
    requires k <= |fields| && |KeepFields(fields[..k], max, clean)| >= max
    ensures KeepFields(fields, max, clean) == KeepFields(fields[..k], max, clean)
  {
    if k < |fields| {
      assert fields[..|fields| - 1][..k] == fields[..k];
      FullStays(fields[..|fields| - 1], k, max, clean);
    } else {
      assert fields[..k] == fields;
    }
  }

  method NormalizeUrls(input: Json, http: UrlParser) returns (urls: seq<(string, string)>)
    ensures urls == Urls(input, http)
  {
    hide SafeText, IsHttpUrl, Trim;
    urls := [];
    if !input.Obj? {
      return;
    }
    var fields := input.fields;
    for k := 0 to |fields|
      invariant urls == KeepFields(fields[..k], MAX_ORDER, CleanUrl(http))
    {
      var f := fields[k];
      assert fields[..k + 1][..k] == fields[..k];
      if !SafeText(f.name) || !f.value.Str? {
        continue;
      }
      if |urls| >= MAX_ORDER {
        FullStays(fields, k, MAX_ORDER, CleanUrl(http));
        return;
      }
      if f.value.s == "" {
        urls := urls + [(f.name, "")];
        continue;
      }
      if IsHttpUrl(f.value.s, http) {
        urls := urls + [(f.name, Trim(f.value.s))];
      }
    }
    assert fields[..|fields|] == fields;
  }

  method NormalizeAppDepartments(input: Json, departments: seq<Department>) returns (next: seq<(string, string)>)
    ensures next == Places(input, Ids(departments))
  {
    hide SafeText;
    next := [];
    if !input.Obj? {
      return;
    }
    var known := Ids(departments);
    var fields := input.fields;
    for k := 0 to |fields|
      invariant next == KeepFields(fields[..k], MAX_ORDER, CleanPlace(known))
    {
      var f := fields[k];
      assert fields[..k + 1][..k] == fields[..k];
      if !SafeText(f.name) || !f.value.Str? || f.value.s !in known {
        continue;
      }
      if |next| >= MAX_ORDER {
        FullStays(fields, k, MAX_ORDER, CleanPlace(known));
        return;
      }
      next := next + [(f.name, f.value.s)];
    }
    assert fields[..|fields|] == fields;
  }
}
