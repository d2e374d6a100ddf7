/** Normalising a normalised layout: what stays, what moves, and when it settles. */
module HomeLayoutLaws {
  import opened Text
  import opened HomeBox
  import opened HomeLayout

  // ---- Back to JSON

  function Texts(list: seq<string>): seq<Json> {
    seq(|list|, i requires 0 <= i < |list| => Str(list[i]))
  }

  function LinkJson(l: Link): Json {
    Obj([Field("id", Str(l.id)), Field("name", Str(l.name)), Field("url", Str(l.url)), Field("icon", Str(l.icon))])
  }

  function DepartmentJson(d: Department): Json {
    Obj([Field("id", Str(d.id)), Field("name", Str(d.name)), Field("x", Num(d.box.x)), Field("y", Num(d.box.y)),
      Field("width", Num(d.box.width)), Field("height", Num(d.box.height))])
  }

  function LinksJson(links: seq<Link>): seq<Json> {
    seq(|links|, i requires 0 <= i < |links| => LinkJson(links[i]))
  }

  function DepartmentsJson(departments: seq<Department>): seq<Json> {
    seq(|departments|, i requires 0 <= i < |departments| => DepartmentJson(departments[i]))
  }

  function WidgetsJson(w: Widgets): Json {
    Obj([Field("system", Bool(w.system)), Field("storage", Bool(w.storage)), Field("network", Bool(w.network))])
  }

  function ToJson(l: Layout): Json {
    Obj([
      Field("appOrder", Arr(Texts(l.appOrder))),
      Field("containerOrder", Arr(Texts(l.containerOrder))),
      Field("appUrls", Obj(FieldsOf(l.appUrls))),
      Field("appPublicUrls", Obj(FieldsOf(l.appPublicUrls))),
      Field("links", Arr(LinksJson(l.links))),
      Field("widgets", WidgetsJson(l.widgets)),
      Field("departments", Arr(DepartmentsJson(l.departments))),
      Field("appDepartments", Obj(FieldsOf(l.appDepartments)))])
  }

  lemma LookupCons(f: Field, rest: seq<Field>, name: string)
    ensures Lookup([f] + rest, name) == if f.name == name then f.value else Lookup(rest, name)
  {
    assert ([f] + rest)[1..] == rest;
  }

  /** The first field is the identifier, which no other field is called. */
  lemma PassId(id: string, rest: seq<Field>)
    ensures var fields := [Field("id", Str(id))] + rest;
      Lookup(fields, "id") == Str(id) && forall name :: name != "id" ==> Lookup(fields, name) == Lookup(rest, name)
    ensures "name" != "id" && "x" != "id" && "y" != "id" && "width" != "id" && "height" != "id"
    ensures "url" != "id" && "icon" != "id"
  {
    var f := Field("id", Str(id));
    LookupCons(f, rest, "id");
    forall name: string | name != "id"
      ensures Lookup([f] + rest, name) == Lookup(rest, name)
    {
      LookupCons(f, rest, name);
    }
  }

  lemma PassName(text: string, rest: seq<Field>)
    ensures var fields := [Field("name", Str(text))] + rest;
      Lookup(fields, "name") == Str(text) && forall name :: name != "name" ==> Lookup(fields, name) == Lookup(rest, name)
    ensures "x" != "name" && "y" != "name" && "width" != "name" && "height" != "name"
    ensures "url" != "name" && "icon" != "name"
  {
    var f := Field("name", Str(text));
    LookupCons(f, rest, "name");
    assert "icon"[0] != "name"[0];
    forall name: string | name != "name"
      ensures Lookup([f] + rest, name) == Lookup(rest, name)
    {
      LookupCons(f, rest, name);
    }
  }

  // ---- Strings

  predicate CleanList(list: seq<string>, keep: string -> bool) {
    && |list| <= MAX_ORDER && Distinct(list)
    && forall s <- list :: keep(s) && CleanText(Str(s)) == Some(s)
  }

  lemma {:induction false} FilterSpec(list: seq<string>, keep: string -> bool)
    requires Distinct(list)
    ensures var kept := Filter(list, keep);
      |kept| <= |list| && Distinct(kept) && forall s <- kept :: s in list && keep(s)
  {
    if list != [] {
      FilterSpec(list[..|list| - 1], keep);
    }
  }

  lemma {:induction false} FilterKeeps(list: seq<string>, keep: string -> bool)
    requires forall s <- list :: keep(s)
    ensures Filter(list, keep) == list
  {
    if list != [] {
      FilterKeeps(list[..|list| - 1], keep);
    }
  }

  lemma CleanTextTwice(item: Json)
    requires CleanText(item).Some?
    ensures CleanText(Str(CleanText(item).value)) == CleanText(item)
  {
    hide Trim;
    TrimIsTrimmed(item.s);
    TrimmedTrims(Trim(item.s));
  }

  lemma SameKeys(list: seq<string>)
    ensures Keys(list, SameText) == list
  {
    forall i | 0 <= i < |list|
      ensures Keys(list, SameText)[i] == list[i]
    {
      assert SameText(list[i]) == list[i];
    }
  }

  lemma ListIsClean(input: Json, keep: string -> bool)
    ensures CleanList(Filter(StringList(input), keep), keep)
  {
    hide CleanText, KeepFirst;
    var list := StringList(input);
    KeepFirstSpec(Items(input), MAX_ORDER, TextCleaner(), SameText);
    SameKeys(list);
    FilterSpec(list, keep);
    forall s | s in list
      ensures CleanText(Str(s)) == Some(s)
    {
      var i: nat :| i < |list| && list[i] == s;
      assert Cleaned(list, i, Items(input), TextCleaner());
      var item :| item in Items(input) && TextCleaner()(item, i) == Some(s);
      CleanTextTwice(item);
    }
  }

  lemma ListStays(list: seq<string>, keep: string -> bool)
    requires CleanList(list, keep)
    ensures Filter(StringList(Arr(Texts(list))), keep) == list
  {
    hide CleanText, KeepFirst, Filter;
    SameKeys(list);
    KeepsAll(Texts(list), list, MAX_ORDER, TextCleaner(), SameText);
    FilterKeeps(list, keep);
  }

  // ---- Fields

  predicate CleanPairs(pairs: seq<(string, string)>, clean: Field -> Option<string>) {
    |pairs| <= MAX_ORDER && forall pair <- pairs :: Passes(pair, clean)
  }

  lemma NoSpaceTrims(s: string)
    requires forall i :: 0 <= i < |s| ==> !IsSpace(s[i])
    ensures Trim(s) == s
  {
    hide IsSpace, Trim;
    TrimmedTrims(s);
  }

  lemma UrlsAreClean(input: Json, http: UrlParser)
    ensures CleanPairs(Urls(input, http), CleanUrl(http))
  {
    hide Trim, SafeText;
    var clean := CleanUrl(http);
    forall f | f in Fields(input) && clean(f).Some?
      ensures Passes((f.name, clean(f).value), clean)
    {
      if f.value.s != "" {
        NoSpaceTrims(f.value.s);
      }
    }
    KeepFieldsSpec(Fields(input), MAX_ORDER, clean);
  }

  lemma PlacesAreClean(input: Json, known: seq<string>)
    ensures CleanPairs(Places(input, known), CleanPlace(known))
  {
    KeepFieldsSpec(Fields(input), MAX_ORDER, CleanPlace(known));
  }

  // ---- Links

  predicate CleanLinks(links: seq<Link>, http: UrlParser) {
    && |links| <= MAX_LINKS && Distinct(Keys(links, LinkId))
    && forall l <- links :: CleanLink(LinkJson(l), http) == Some(l)
  }

  lemma LinkLookups(l: Link)
    ensures Get(LinkJson(l), "id") == Str(l.id) && Get(LinkJson(l), "name") == Str(l.name)
    ensures Get(LinkJson(l), "url") == Str(l.url) && Get(LinkJson(l), "icon") == Str(l.icon)
  {
    var f3 := [Field("icon", Str(l.icon))];
    var f2 := [Field("url", Str(l.url))] + f3;
    var f1 := [Field("name", Str(l.name))] + f2;
    assert LinkJson(l).fields == [Field("id", Str(l.id))] + f1;
    PassId(l.id, f1);
    PassName(l.name, f2);
    LookupCons(Field("url", Str(l.url)), f3, "url");
    LookupCons(Field("url", Str(l.url)), f3, "icon");
    LookupCons(Field("icon", Str(l.icon)), [], "icon");
    assert f3 == f3[..1] + [];
  }

  lemma TextOfTwice(input: Json)
    ensures TextOf(Str(TextOf(input))) == TextOf(input)
  {
    hide Trim;
    if input.Str? {
      TrimIsTrimmed(input.s);
    }
    TrimmedTrims(TextOf(input));
  }

  lemma LinkTwice(item: Json, http: UrlParser)
    requires CleanLink(item, http).Some?
    ensures CleanLink(LinkJson(CleanLink(item, http).value), http) == CleanLink(item, http)
  {
    hide TextOf, Get, IdChars, IsHttpUrl;
    LinkLookups(CleanLink(item, http).value);
    TextOfTwice(Get(item, "id"));
    TextOfTwice(Get(item, "name"));
    TextOfTwice(Get(item, "url"));
    TextOfTwice(Get(item, "icon"));
  }

  lemma LinksAreClean(input: Json, http: UrlParser)
    ensures CleanLinks(Links(input, http), http)
  {
    hide CleanLink, KeepFirst;
    var links := Links(input, http);
    KeepFirstSpec(Items(input), MAX_LINKS, LinkCleaner(http), LinkId);
    forall l | l in links
      ensures CleanLink(LinkJson(l), http) == Some(l)
    {
      var i: nat :| i < |links| && links[i] == l;
      assert Cleaned(links, i, Items(input), LinkCleaner(http));
      var item :| item in Items(input) && LinkCleaner(http)(item, i) == Some(l);
      LinkTwice(item, http);
    }
  }

  lemma LinksStay(links: seq<Link>, http: UrlParser)
    requires CleanLinks(links, http)
    ensures Links(Arr(LinksJson(links)), http) == links
  {
    hide CleanLink, KeepFirst;
    KeepsAll(LinksJson(links), links, MAX_LINKS, LinkCleaner(http), LinkId);
  }

  // ---- Departments

  /** Proper texts, and a box that the next application settles. */
  predicate CleanDepartments(departments: seq<Department>) {
    && |departments| <= MAX_DEPARTMENTS && Distinct(Ids(departments))
    && forall d <- departments :: GoodDepartment(d)
  }

  predicate GoodDepartment(d: Department) {
    && TextOf(Str(d.id)) == d.id && TextOf(Str(d.name)) == d.name && DepartmentText(d.id, d.name)
    && Steady(ServerBox(d.box))
  }

  function Reboxed(d: Department): Department {
    d.(box := ServerBox(d.box))
  }

  function ReboxedAll(departments: seq<Department>): seq<Department> {
    seq(|departments|, i requires 0 <= i < |departments| => Reboxed(departments[i]))
  }

  lemma DepartmentFields(d: Department)
    ensures var j := DepartmentJson(d);
      && Get(j, "id") == Str(d.id) && Get(j, "name") == Str(d.name)
      && Get(j, "x") == Num(d.box.x) && Get(j, "y") == Num(d.box.y)
      && Get(j, "width") == Num(d.box.width) && Get(j, "height") == Num(d.box.height)
  {
    var f5 := [Field("height", Num(d.box.height))];
    var f4 := [Field("width", Num(d.box.width))] + f5;
    var f3 := [Field("y", Num(d.box.y))] + f4;
    var f2 := [Field("x", Num(d.box.x))] + f3;
    var f1 := [Field("name", Str(d.name))] + f2;
    assert DepartmentJson(d).fields == [Field("id", Str(d.id))] + f1;
    PassId(d.id, f1);
    PassName(d.name, f2);
    BoxFields(d.box);
    assert f2 == [Field("x", Num(d.box.x)), Field("y", Num(d.box.y)),
      Field("width", Num(d.box.width)), Field("height", Num(d.box.height))];
  }

  lemma BoxFields(b: Box)
    ensures var fields := [Field("x", Num(b.x)), Field("y", Num(b.y)), Field("width", Num(b.width)), Field("height", Num(b.height))];
      && Lookup(fields, "x") == Num(b.x) && Lookup(fields, "y") == Num(b.y)
      && Lookup(fields, "width") == Num(b.width) && Lookup(fields, "height") == Num(b.height)
  {
    var f5 := [Field("height", Num(b.height))];
    var f4 := [Field("width", Num(b.width))] + f5;
    var f3 := [Field("y", Num(b.y))] + f4;
    assert [Field("x", Num(b.x)), Field("y", Num(b.y)), Field("width", Num(b.width)), Field("height", Num(b.height))]
        == [Field("x", Num(b.x))] + f3;
    assert "x"[0] != "y"[0] && "width"[0] != "height"[0] && |"x"| != |"width"|;
    LookupCons(Field("x", Num(b.x)), f3, "x");
    LookupCons(Field("x", Num(b.x)), f3, "y");
    LookupCons(Field("x", Num(b.x)), f3, "width");
    LookupCons(Field("x", Num(b.x)), f3, "height");
    LookupCons(Field("y", Num(b.y)), f4, "y");
    LookupCons(Field("y", Num(b.y)), f4, "width");
    LookupCons(Field("y", Num(b.y)), f4, "height");
    LookupCons(Field("width", Num(b.width)), f5, "width");
    LookupCons(Field("width", Num(b.width)), f5, "height");
    LookupCons(Field("height", Num(b.height)), [], "height");
    assert f5 == f5[..1] + [];
  }

  lemma BoxSettles(item: Json, index: nat)
    ensures Steady(ServerBox(BoxOf(item, index)))
  {
    hide Steady, ServerBox, Get;
    if AllFinite(item) {
      SteadyAfterTwo(Box(Get(item, "x").value, Get(item, "y").value, Get(item, "width").value, Get(item, "height").value));
    } else {
      DefaultSteady(index);
    }
  }

  lemma DepartmentsAreClean(input: Json)
    ensures CleanDepartments(Departments(input))
  {
    hide KeepFirst, TextOf, Get, DepartmentText, Steady, BoxOf;
    var departments := Departments(input);
    KeepFirstSpec(Items(input), MAX_DEPARTMENTS, CleanDepartment, DepartmentId);
    forall d | d in departments
      ensures GoodDepartment(d)
    {
      var i: nat :| i < |departments| && departments[i] == d;
      assert Cleaned(departments, i, Items(input), CleanDepartment);
      var item :| item in Items(input) && CleanDepartment(item, i) == Some(d);
      BoxSettles(item, i);
      TextOfTwice(Get(item, "id"));
      TextOfTwice(Get(item, "name"));
    }
  }

  lemma DepartmentAgain(d: Department, index: nat)
    requires GoodDepartment(d)
    ensures CleanDepartment(DepartmentJson(d), index) == Some(Reboxed(d))
  {
    hide TextOf, Get, DepartmentText, Steady, ServerBox;
    DepartmentFields(d);
  }

  lemma SameIds(departments: seq<Department>)
    ensures Ids(ReboxedAll(departments)) == Ids(departments)
  {
    hide ServerBox;
    var all := ReboxedAll(departments);
    forall i | 0 <= i < |all|
      ensures Ids(all)[i] == Ids(departments)[i]
    {
      assert DepartmentId(all[i]) == DepartmentId(departments[i]);
    }
  }

  lemma DepartmentsAgain(departments: seq<Department>)
    requires CleanDepartments(departments)
    ensures Departments(Arr(DepartmentsJson(departments))) == ReboxedAll(departments)
    ensures Ids(ReboxedAll(departments)) == Ids(departments)
  {
    hide KeepFirst, GoodDepartment, CleanDepartment, DepartmentJson;
    var items, all := DepartmentsJson(departments), ReboxedAll(departments);
    SameIds(departments);
    forall i: nat | i < |all|
      ensures CleanDepartment(items[i], i) == Some(all[i])
    {
      DepartmentAgain(departments[i], i);
    }
    KeepsAll(items, all, MAX_DEPARTMENTS, CleanDepartment, DepartmentId);
  }

  lemma ReboxedStaysClean(departments: seq<Department>)
    requires CleanDepartments(departments)
    ensures CleanDepartments(ReboxedAll(departments))
  {
    hide TextOf, DepartmentText, ServerBox;
    var all := ReboxedAll(departments);
    SameIds(departments);
    assert forall i :: 0 <= i < |all| ==> GoodDepartment(departments[i]) && all[i] == Reboxed(departments[i]);
  }

  // ---- The whole layout

  predicate Clean(l: Layout, http: UrlParser) {
    && CleanList(l.appOrder, IsDockKey) && CleanList(l.containerOrder, SafeText)
    && CleanPairs(l.appUrls, CleanUrl(http)) && CleanPairs(l.appPublicUrls, CleanUrl(http))
    && CleanLinks(l.links, http) && CleanDepartments(l.departments)
    && CleanPairs(l.appDepartments, CleanPlace(Ids(l.departments)))
  }

  lemma NormalIsClean(input: Json, http: UrlParser)
    ensures Clean(Normalize(input, http), http)
  {
    hide CleanList, CleanPairs, CleanLinks, CleanDepartments, Get, Filter, StringList, Urls, Places, Links, Departments;
    ListIsClean(Get(input, "appOrder"), IsDockKey);
    ListIsClean(Get(input, "containerOrder"), SafeText);
    UrlsAreClean(Get(input, "appUrls"), http);
    UrlsAreClean(Get(input, "appPublicUrls"), http);
    LinksAreClean(Get(input, "links"), http);
    DepartmentsAreClean(Get(input, "departments"));
    PlacesAreClean(Get(input, "appDepartments"), Ids(Departments(Get(input, "departments"))));
  }

  lemma {:induction false} LookupAt(fields: seq<Field>, k: nat)
    requires k < |fields| && forall j :: 0 <= j < k ==> fields[j].name != fields[k].name
    ensures Lookup(fields, fields[k].name) == fields[k].value
  {
    if k > 0 {
      LookupAt(fields[1..], k - 1);
    }
  }

  lemma WidgetsStay(w: Widgets)
    ensures NormalWidgets(WidgetsJson(w)) == w
  {
    var fields := WidgetsJson(w).fields;
    assert "system"[1] != "storage"[1] && "system"[0] != "network"[0] && "storage"[0] != "network"[0];
    LookupAt(fields, 0);
    LookupAt(fields, 1);
    LookupAt(fields, 2);
  }

  lemma LayoutLists(l: Layout)
    ensures var j := ToJson(l);
      && Get(j, "appOrder") == Arr(Texts(l.appOrder)) && Get(j, "containerOrder") == Arr(Texts(l.containerOrder))
      && Get(j, "appUrls") == Obj(FieldsOf(l.appUrls)) && Get(j, "appPublicUrls") == Obj(FieldsOf(l.appPublicUrls))
  {
    hide Texts, FieldsOf, LinksJson, WidgetsJson, DepartmentsJson, Lookup;
    var fields := ToJson(l).fields;
    LookupAt(fields, 0);
    LookupAt(fields, 1);
    LookupAt(fields, 2);
    LookupAt(fields, 3);
  }

  lemma LayoutParts(l: Layout)
    ensures var j := ToJson(l);
      && Get(j, "links") == Arr(LinksJson(l.links)) && Get(j, "widgets") == WidgetsJson(l.widgets)
      && Get(j, "departments") == Arr(DepartmentsJson(l.departments))
      && Get(j, "appDepartments") == Obj(FieldsOf(l.appDepartments))
  {
    hide Texts, FieldsOf, LinksJson, WidgetsJson, DepartmentsJson, Lookup;
    var fields := ToJson(l).fields;
    assert "containerOrder"[0] != "appDepartments"[0] && "appUrls"[0] != "widgets"[0];
    LookupAt(fields, 4);
    LookupAt(fields, 5);
    LookupAt(fields, 6);
    LookupAt(fields, 7);
  }

  function Settled(l: Layout): Layout {
    l.(departments := ReboxedAll(l.departments))
  }

  /** On a clean layout the normaliser does nothing but put the boxes through once more. */
  lemma NormalizeAgain(l: Layout, http: UrlParser)
    requires Clean(l, http)
    ensures Normalize(ToJson(l), http) == Settled(l)
    ensures Clean(Settled(l), http)
  {
    hide ToJson, CleanList, CleanPairs, CleanLinks, CleanDepartments, Get, Filter, StringList, Links, Departments;
    hide Texts, FieldsOf, LinksJson, WidgetsJson, DepartmentsJson, ReboxedAll, NormalWidgets, KeepFields, Ids;
    LayoutLists(l);
    LayoutParts(l);
    ListStays(l.appOrder, IsDockKey);
    ListStays(l.containerOrder, SafeText);
    PairsStay(l.appUrls, CleanUrl(http));
    PairsStay(l.appPublicUrls, CleanUrl(http));
    LinksStay(l.links, http);
    WidgetsStay(l.widgets);
    DepartmentsAgain(l.departments);
    ReboxedStaysClean(l.departments);
    PairsStay(l.appDepartments, CleanPlace(Ids(l.departments)));
  }

  lemma PairsStay(pairs: seq<(string, string)>, clean: Field -> Option<string>)
    requires CleanPairs(pairs, clean)
    ensures KeepFields(Fields(Obj(FieldsOf(pairs))), MAX_ORDER, clean) == pairs
  {
    hide KeepFields, FieldsOf;
    KeepsAllFields(pairs, MAX_ORDER, clean);
  }

  predicate AllSteady(l: Layout) {
    forall d <- l.departments :: Steady(d.box)
  }

  lemma SettledIff(l: Layout)
    ensures Settled(l) == l <==> AllSteady(l)
  {
    hide ServerBox;
    var all := ReboxedAll(l.departments);
    if AllSteady(l) {
      forall i | 0 <= i < |all|
        ensures all[i] == l.departments[i]
      {
        assert Steady(l.departments[i].box);
      }
      assert all == l.departments;
    }
    if Settled(l) == l {
      forall d | d in l.departments
        ensures Steady(d.box)
      {
        var i :| 0 <= i < |all| && l.departments[i] == d;
        assert all[i] == Reboxed(d);
      }
    }
  }

  /** A normalised layout is a fixed point exactly when every department box is. */
  lemma FixedIff(input: Json, http: UrlParser)
    ensures Normalize(ToJson(Normalize(input, http)), http) == Normalize(input, http)
       <==> AllSteady(Normalize(input, http))
  {
    hide Normalize, ToJson, Clean, Settled, AllSteady;
    NormalIsClean(input, http);
    NormalizeAgain(Normalize(input, http), http);
    SettledIff(Normalize(input, http));
  }

  /** Two applications always give a fixed point, so a layout read from a store that the normaliser wrote is one. */
  lemma FixedAfterTwo(input: Json, http: UrlParser)
    ensures var twice := Normalize(ToJson(Normalize(input, http)), http);
      Normalize(ToJson(twice), http) == twice
  {
    hide Normalize, ToJson, Clean, CleanPairs, CleanLinks, CleanList;
    var once := Normalize(input, http);
    NormalIsClean(input, http);
    NormalizeAgain(once, http);
    NormalizeAgain(Settled(once), http);
    SettledDepartments(once, http);
    SettledIff(Settled(once));
  }

  lemma SettledDepartments(l: Layout, http: UrlParser)
    requires Clean(l, http)
    ensures AllSteady(Settled(l))
  {
    hide ServerBox, Steady, CleanPairs, CleanLinks, CleanList, TextOf, DepartmentText;
    var all := Settled(l).departments;
    forall d | d in all
      ensures Steady(d.box)
    {
      var i :| 0 <= i < |all| && all[i] == d;
      assert GoodDepartment(l.departments[i]);
    }
  }

  /** The numbers of a department, when all four are finite. */
  function Numbers4(item: Json): Box
    requires AllFinite(item)
  {
    Box(Get(item, "x").value, Get(item, "y").value, Get(item, "width").value, Get(item, "height").value)
  }

  /** Which boxes are fixed points: the first eight defaults, and all given ones but those named by `Unsteady`. */
  lemma SteadyBoxes(item: Json, index: nat)
    ensures Steady(BoxOf(item, index)) <==> if AllFinite(item) then !Unsteady(Numbers4(item)) else index <= 7
    ensures Fraction(BoxOf(item, index).x, BoxOf(item, index).width) ==>
      BoxOf(item, index).x + BoxOf(item, index).width <= 1.0001
  {
    hide Steady, ServerBox, Get, Unsteady;
    if AllFinite(item) {
      SteadyIff(Numbers4(item));
      FractionOrWide(Numbers4(item));
    } else {
      DefaultSteady(index);
    }
  }

  function OneDepartment(b: Box): Json {
    Obj([Field("departments", Arr([DepartmentJson(Department("home", "Home", b))]))])
  }

  /** A layout with one such department is not a fixed point: reading it back changes its width. */
  lemma NotFixedAtOnce(http: UrlParser)
    ensures var once := Normalize(OneDepartment(UNSTEADY), http);
      && once.departments == [Department("home", "Home", Box(0.0001, 0.0, 1.0, 300.0))]
      && Normalize(ToJson(once), http) != once
  {
    hide Steady, ServerBox, ToJson, DepartmentJson, KeepFirst, StringList, Filter, Links, Urls, Places, NormalWidgets;
    UnsteadyBox();
    OneIsKept(Department("home", "Home", UNSTEADY));
    var once := Normalize(OneDepartment(UNSTEADY), http);
    assert once.departments[0].box == ServerBox(UNSTEADY);
    FixedIff(OneDepartment(UNSTEADY), http);
  }

  lemma OneIsKept(d: Department)
    requires d.id == "home" && d.name == "Home"
    ensures Departments(Arr([DepartmentJson(d)])) == [Reboxed(d)]
  {
    hide TextOf, Get, ServerBox, KeepFirst, DepartmentText, DepartmentJson;
    DepartmentFields(d);
    HomeTexts();
    JsonIsObject(d);
    KeepsAll([DepartmentJson(d)], [Reboxed(d)], MAX_DEPARTMENTS, CleanDepartment, DepartmentId);
  }

  lemma JsonIsObject(d: Department)
    ensures DepartmentJson(d).Obj?
  {
  }

  lemma HomeTexts()
    ensures TextOf(Str("home")) == "home" && TextOf(Str("Home")) == "Home" && DepartmentText("home", "Home")
  {
    hide IsSpace, Trim, Lower;
    LettersOnly();
    TrimmedTrims("home");
    TrimmedTrims("Home");
    HomeIsNotLoose();
  }

  lemma LettersOnly()
    ensures !IsSpace('h') && !IsSpace('H') && !IsSpace('e')
  {
  }

  lemma HomeIsNotLoose()
    ensures Lower("home") != "loose"
  {
    assert |Lower("home")| == 4;
  }

  lemma FractionOrWide(b: Box)
    ensures Fraction(ServerBox(b).x, ServerBox(b).width) ==> ServerBox(b).x + ServerBox(b).width <= 1.0001
  {
    hide Fit, RoundWithin;
    if Fraction(b.x, b.width) {
      FractionFits(b);
    } else {
      AtLeastLow(b.width, LEAST_PIXELS, 1600.0);
    }
  }
}
