/** A compose file as an ordered map of services, and the edits of single services. */
module ComposeFile {
  import opened Text

  datatype Depends = NoDepends | DependsList(names: seq<string>) | DependsMap(keys: seq<string>) | OtherDepends

  datatype Body = Null | Scalar | Service(image: Option<string>, depends: Depends, rest: seq<string>)

  datatype Entry = Entry(name: string, body: Body)

  datatype Services = Missing | NotAMap | Services(entries: seq<Entry>)

  datatype File = File(services: Services, rest: string)

  datatype Result<+T> = Ok(value: T) | Invalid

  const EMPTY := File(Missing, "")

  // ---- Lookups in the services map

  function Names(entries: seq<Entry>): seq<string> {
    seq(|entries|, i requires 0 <= i < |entries| => entries[i].name)
  }

  /** Index of the first entry with this name, or the length. */
  function EntryIndex(entries: seq<Entry>, name: string): (i: nat)
    ensures i <= |entries|
    ensures forall j :: 0 <= j < i ==> entries[j].name != name
    ensures i < |entries| ==> entries[i].name == name
  {
    if entries == [] then 0 else if entries[0].name == name then 0 else 1 + EntryIndex(entries[1..], name)
  }

  // ---- Input rules

  predicate ServiceNameChar(c: char) {
    IsLetter(c) || IsDigit(c) || c in "._-"
  }

  predicate ServiceName(s: string) {
    1 <= |s| <= 64 && (IsLetter(s[0]) || IsDigit(s[0])) && forall i :: 0 <= i < |s| ==> ServiceNameChar(s[i])
  }

  predicate PortNumber(s: string) {
    1 <= |s| <= 5 && AllDigits(s)
  }

  predicate PortMapping(s: string) {
    exists i, j | 0 < i < j <= |s| ::
      && s[i] == ':' && PortNumber(s[..i]) && PortNumber(s[i + 1..j])
      && (s[j..] == "" || s[j..] == "/tcp" || s[j..] == "/udp")
  }

  function TrimAll(ports: seq<string>): seq<string> {
    if ports == [] then []
    else if Trim(ports[0]) == "" then TrimAll(ports[1..])
    else [Trim(ports[0])] + TrimAll(ports[1..])
  }

  // ---- The edits

  function NewBody(image: string, ports: seq<string>): Body {
    Service(Some(image), NoDepends, ["restart: unless-stopped"] + ports)
  }

  predicate Allowed(name: string, image: string, ports: seq<string>) {
    && ServiceName(name) && image != "" && All(image, c => !IsSpace(c))
    && forall i :: 0 <= i < |ports| ==> PortMapping(ports[i])
  }

  function AddNamed(file: File, entry: Entry): Result<File> {
    match file.services
    case NotAMap => Invalid
    case Missing => Ok(file.(services := Services([entry])))
    case Services(entries) =>
      if EntryIndex(entries, entry.name) < |entries| then Invalid
      else Ok(file.(services := Services(entries + [entry])))
  }

  function Add(file: File, rawName: string, rawImage: string, rawPorts: seq<string>): Result<File> {
    var name, image, ports := Trim(rawName), Trim(rawImage), TrimAll(rawPorts);
    if Allowed(name, image, ports) then AddNamed(file, Entry(name, NewBody(image, ports))) else Invalid
  }

  function Without(names: seq<string>, name: string): seq<string> {
    if names == [] then []
    else if names[0] == name then Without(names[1..], name)
    else [names[0]] + Without(names[1..], name)
  }

  /** One service after its mentions of `name` are dropped; an empty `depends_on` goes too. */
  function Forget(body: Body, name: string): Body {
    if !body.Service? then body
    else
      match body.depends
      case DependsList(names) =>
        if Without(names, name) == [] then body.(depends := NoDepends)
        else body.(depends := DependsList(Without(names, name)))
      case DependsMap(keys) =>
        if Without(keys, name) == [] then body.(depends := NoDepends)
        else body.(depends := DependsMap(Without(keys, name)))
      case _ => body
  }

  function ForgetAll(entries: seq<Entry>, name: string): seq<Entry> {
    seq(|entries|, i requires 0 <= i < |entries| => entries[i].(body := Forget(entries[i].body, name)))
  }

  /** The entries of a file without the first one of this name. */
  function Others(file: File, name: string): seq<Entry> {
    if file.services.Services? && EntryIndex(file.services.entries, name) < |file.services.entries| then
      var at := EntryIndex(file.services.entries, name);
      file.services.entries[..at] + file.services.entries[at + 1..]
    else []
  }

  predicate Present(file: File, name: string) {
    && file.services.Services?
    && var at := EntryIndex(file.services.entries, name);
       at < |file.services.entries| && file.services.entries[at].body != Null
  }

  function RemoveNamed(file: File, name: string): Result<File> {
    if Present(file, name) then Ok(file.(services := Services(ForgetAll(Others(file, name), name))))
    else Invalid
  }

  function Remove(file: File, rawName: string): Result<File> {
    RemoveNamed(file, Trim(rawName))
  }

  function Pin(file: File, name: string, image: string): Result<File> {
    if !file.services.Services? then Invalid
    else
      var entries := file.services.entries;
      var at := EntryIndex(entries, name);
      if at == |entries| || !entries[at].body.Service? then Invalid
      else
        var pinned := entries[at].(body := entries[at].body.(image := Some(image)));
        Ok(file.(services := Services(entries[at := pinned])))
  }

  /** Whether a service has nothing that removing `name` would change. */
  predicate Independent(body: Body, name: string) {
    body.Service? ==>
      match body.depends
      case DependsList(names) => names != [] && name !in names
      case DependsMap(keys) => keys != [] && name !in keys
      case _ => true
  }

  lemma {:induction false} WithoutSpec(names: seq<string>, name: string)
    ensures name !in Without(names, name)
    ensures Without(names, name) == names <==> name !in names
    ensures |Without(names, name)| <= |names|
  {
    if names != [] {
      WithoutSpec(names[1..], name);
      assert names == [names[0]] + names[1..];
      if names[0] == name {
        assert name in names;
      } else if Without(names, name) == names {
        assert Without(names, name)[1..] == Without(names[1..], name);
      }
    }
  }

  /** `part` is what is left of `whole` when some elements are struck out. */
  predicate Sublist(part: seq<string>, whole: seq<string>) {
    if part == [] then true
    else if whole == [] then false
    else if part[0] == whole[0] then Sublist(part[1..], whole[1..])
    else Sublist(part, whole[1..])
  }

  /** Every other name stays, as often as before and in its order. */
  predicate KeepsOthers(before: seq<string>, after: seq<string>, name: string) {
    Sublist(after, before) && multiset(after) == multiset(before)[name := 0]
  }

  /** `depends_on` goes exactly when it is a list or map without other names. */
  predicate KeptDepends(before: Depends, after: Depends, name: string) {
    match before
    case DependsList(names) =>
      if after.NoDepends? then KeepsOthers(names, [], name)
      else after.DependsList? && after.names != [] && KeepsOthers(names, after.names, name)
    case DependsMap(keys) =>
      if after.NoDepends? then KeepsOthers(keys, [], name)
      else after.DependsMap? && after.keys != [] && KeepsOthers(keys, after.keys, name)
    case _ => after == before
  }

  lemma {:induction false} WithoutKeepsOthers(names: seq<string>, name: string)
    ensures KeepsOthers(names, Without(names, name), name)
  {
    if names != [] {
      var rest := Without(names[1..], name);
      WithoutKeepsOthers(names[1..], name);
      assert names == [names[0]] + names[1..];
      if names[0] == name {
        Skips(rest, names);
      } else {
        assert Without(names, name)[1..] == rest;
      }
    }
  }

  lemma {:induction false} Skips(part: seq<string>, whole: seq<string>)
    requires whole != [] && Sublist(part, whole[1..])
    ensures Sublist(part, whole)
    decreases |whole|, |part|
  {
    if part != [] && part[0] == whole[0] {
      DropsFirst(part, whole[1..]);
    }
  }

  lemma {:induction false} DropsFirst(part: seq<string>, whole: seq<string>)
    requires part != [] && Sublist(part, whole)
    ensures Sublist(part[1..], whole)
    decreases |whole|, |part|
  {
    if part[0] == whole[0] {
      Skips(part[1..], whole);
    } else {
      DropsFirst(part, whole[1..]);
      Skips(part[1..], whole);
    }
  }

  lemma ForgetsNothing(body: Body, name: string)
    ensures Forget(body, name) == body <==> Independent(body, name)
    ensures Cleaned(body, Forget(body, name), name)
  {
    if body.Service? && body.depends.DependsList? {
      WithoutSpec(body.depends.names, name);
      WithoutKeepsOthers(body.depends.names, name);
    } else if body.Service? && body.depends.DependsMap? {
      WithoutSpec(body.depends.keys, name);
      WithoutKeepsOthers(body.depends.keys, name);
    }
  }

  /** `after` mentions `name` no more, has no empty `depends_on`, keeps all other names, and otherwise equals `before`. */
  predicate Cleaned(before: Body, after: Body, name: string) {
    && Independent(after, name)
    && (Independent(before, name) ==> after == before)
    && (before.Service? ==> after.Service? && after == before.(depends := after.depends))
    && (before.Service? ==> KeptDepends(before.depends, after.depends, name))
    && (!before.Service? ==> after == before)
  }

  /** No service that is left mentions the removed one, no `depends_on` is left empty, and nothing
      else about the other services changes. */
  lemma RemoveForgets(file: File, name: string)
    requires Present(file, name)
    ensures RemoveNamed(file, name).Ok? && RemoveNamed(file, name).value.services.Services?
    ensures RemoveNamed(file, name).value.rest == file.rest
    ensures var left := Others(file, name);
            var after := RemoveNamed(file, name).value.services.entries;
            && |after| == |left| == |file.services.entries| - 1
            && forall i :: 0 <= i < |left| ==>
                 after[i].name == left[i].name && Cleaned(left[i].body, after[i].body, name)
  {
    var left := Others(file, name);
    forall i | 0 <= i < |left| ensures Cleaned(left[i].body, Forget(left[i].body, name), name) {
      ForgetsNothing(left[i].body, name);
    }
  }

  lemma ForgetAllIdentity(entries: seq<Entry>, name: string)
    ensures ForgetAll(entries, name) == entries <==> forall e <- entries :: Independent(e.body, name)
  {
    forall i | 0 <= i < |entries|
      ensures ForgetAll(entries, name)[i] == entries[i] <==> Independent(entries[i].body, name)
    {
      ForgetsNothing(entries[i].body, name);
    }
    if forall e <- entries :: Independent(e.body, name) {
      assert ForgetAll(entries, name) == entries;
    } else {
      var e :| e in entries && !Independent(e.body, name);
      var i :| 0 <= i < |entries| && entries[i] == e;
      assert ForgetAll(entries, name)[i] != entries[i];
    }
  }

  /** Removing a service that was just added gives the file back exactly when the file already had a
      services map in which no other service mentions the name or carries an empty `depends_on`. */
  lemma AddThenRemove(file: File, entry: Entry)
    requires AddNamed(file, entry).Ok? && entry.body != Null
    ensures var added := AddNamed(file, entry).value;
            && RemoveNamed(added, entry.name).Ok?
            && (RemoveNamed(added, entry.name).value == file <==>
                  && file.services.Services?
                  && forall e <- file.services.entries :: Independent(e.body, entry.name))
  {
    var entries := if file.services.Services? then file.services.entries else [];
    var all := entries + [entry];
    assert AddNamed(file, entry).value.services.entries == all;
    assert EntryIndex(all, entry.name) == |entries| by {
      assert all[|entries|] == entry;
    }
    assert all[..|entries|] + all[|entries| + 1..] == entries;
    ForgetAllIdentity(entries, entry.name);
  }

  /** Pinning keeps every other service and every other field, and only the last pin of a service counts. */
  lemma PinReplaces(file: File, name: string, first: string, second: string)
    requires Pin(file, name, first).Ok?
    ensures var once := Pin(file, name, first).value;
            && Pin(once, name, second) == Pin(file, name, second)
            && Names(once.services.entries) == Names(file.services.entries)
            && (forall i :: 0 <= i < |once.services.entries| && i != EntryIndex(file.services.entries, name) ==>
                  once.services.entries[i] == file.services.entries[i])
  {
    var entries := file.services.entries;
    var once := Pin(file, name, first).value.services.entries;
    var at := EntryIndex(entries, name);
    assert forall j :: 0 <= j < |entries| ==> once[j].name == entries[j].name;
    assert EntryIndex(once, name) == at;
    assert once[at := entries[at].(body := entries[at].body.(image := Some(second)))]
        == entries[at := entries[at].(body := entries[at].body.(image := Some(second)))];
  }

  /** The parsed document that `removeComposeService` edits in place. */
  class Document {
    var entries: seq<Entry>

    constructor (entries: seq<Entry>)
      ensures this.entries == entries
    {
      this.entries := entries;
    }

    /** `services.delete(name)` and the loop over the services that are left. */
    method Remove(name: string)
      requires EntryIndex(entries, name) < |entries|
      modifies this
      ensures var at := EntryIndex(old(entries), name);
              entries == ForgetAll(old(entries)[..at] + old(entries)[at + 1..], name)
    {
      var at := EntryIndex(entries, name);
      entries := entries[..at] + entries[at + 1..];
      ghost var left := entries;
      for i := 0 to |entries|
        invariant |entries| == |left|
        invariant forall j :: 0 <= j < i ==> entries[j] == left[j].(body := Forget(left[j].body, name))
        invariant forall j :: i <= j < |left| ==> entries[j] == left[j]
      {
        var body := ForgetIn(entries[i].body, name);
        entries := entries[i := entries[i].(body := body)];
      }
      assert entries == ForgetAll(left, name);
    }
  }

  /** The body of that loop. */
  method ForgetIn(body: Body, name: string) returns (r: Body)
    ensures r == Forget(body, name)
  {
    r := body;
    if body.Service? && body.depends.DependsList? {
      var kept := Without(body.depends.names, name);
      if kept == [] {
        r := body.(depends := NoDepends);
      } else if |kept| != |body.depends.names| {
        r := body.(depends := DependsList(kept));
      } else {
        SameLength(body.depends.names, name);
      }
    } else if body.Service? && body.depends.DependsMap? {
      var keys := body.depends.keys;
      WithoutSpec(keys, name);
      if name in keys {
        keys := Without(keys, name);
        r := body.(depends := DependsMap(keys));
      }
      if keys == [] {
        r := body.(depends := NoDepends);
      }
    }
  }

  lemma {:induction false} SameLength(names: seq<string>, name: string)
    requires |Without(names, name)| == |names|
    ensures Without(names, name) == names
  {
    if names != [] {
      WithoutSpec(names[1..], name);
      SameLength(names[1..], name);
    }
  }
}
