/** Port bindings as the API prints them, and the two readers of that text. */
module Ports {
  import opened Text

  // ---- Printing

  /** As Docker reports it; a missing public port is `None`. */
  datatype Port = Port(ip: Option<string>, private: Option<nat>, public: Option<nat>, proto: Option<string>)

  predicate Published(p: Port) {
    p.public.Some? && p.public.value > 0
  }

  function Proto(p: Port): string {
    if p.proto.Some? then p.proto.value else "tcp"
  }

  function Inner(p: Port): string {
    (if p.private.Some? then Decimal(p.private.value) else "?") + "/" + Proto(p)
  }

  /** No address for all IPv4 interfaces. */
  function Address(p: Port): Option<string> {
    if p.ip.Some? && p.ip.value != "" && p.ip.value != "0.0.0.0" then p.ip else None
  }

  function Host(p: Port): string
    requires p.public.Some?
  {
    (if Address(p).Some? then Address(p).value + ":" else "") + Decimal(p.public.value)
  }

  function Format(p: Port): string {
    if Published(p) then Host(p) + "->" + Inner(p) else Inner(p)
  }

  // ---- Reading

  datatype Parsed = Parsed(
    raw: string,
    published: bool,
    hostIp: Option<string>,
    hostPort: Option<string>,
    containerPort: string,
    protocol: string)

  predicate Alphanumeric(s: string) {
    s != "" && forall i :: 0 <= i < |s| ==> IsLetter(s[i]) || IsDigit(s[i])
  }

  predicate ArrowAt(s: string, i: int) {
    0 <= i < |s| - 1 && s[i] == '-' && s[i + 1] == '>'
  }

  /** `indexOf('->')`, or the length. */
  function ArrowIndex(s: string, i: nat): (k: nat)
    requires i <= |s|
    ensures i <= k <= |s|
    ensures forall j :: i <= j < k ==> !ArrowAt(s, j)
    ensures k < |s| ==> ArrowAt(s, k)
    decreases |s| - i
  {
    if i == |s| || ArrowAt(s, i) then i else ArrowIndex(s, i + 1)
  }

  /** `^(\d+)\/([a-zA-Z0-9]+)$` */
  function ParseInner(s: string): Option<(string, string)> {
    var i := IndexOf(s, '/');
    if i < |s| && Digits(s[..i]) && Alphanumeric(s[i + 1..]) then Some((s[..i], Lower(s[i + 1..]))) else None
  }

  /** Address and port in front of the arrow. */
  function ParseHost(left: string): Option<(Option<string>, string)> {
    var k := LastIndexOf(left, ':');
    if k >= 0 && Digits(left[k + 1..]) && forall j :: 0 <= j < k ==> !Terminator(left[j]) then
      Some((if k == 0 then None else Some(left[..k]), left[k + 1..]))
    else if Digits(left) then Some((None, left))
    else None
  }

  function ParsePortBinding(raw: string): Option<Parsed> {
    var value := Trim(raw);
    if value == "" then None
    else
      var arrow := ArrowIndex(value, 0);
      if arrow == |value| then
        match ParseInner(value)
        case None => None
        case Some((port, proto)) => Some(Parsed(value, false, None, None, port, proto))
      else
        match (ParseHost(value[..arrow]), ParseInner(value[arrow + 2..]))
        case (Some((ip, host)), Some((port, proto))) => Some(Parsed(value, true, ip, Some(host), port, proto))
        case _ => None
  }

  // ---- Printing, then reading

  /** What an IP address cannot contain: white space and the arrow's head. */
  predicate AddressChars(s: string) {
    forall i :: 0 <= i < |s| ==> !IsSpace(s[i]) && s[i] != '>'
  }

  predicate NoSpace(s: string) {
    forall i :: 0 <= i < |s| ==> !IsSpace(s[i])
  }

  predicate Plausible(p: Port) {
    && (p.ip.Some? ==> AddressChars(p.ip.value))
    && Proto(p) != "" && NoSpace(Proto(p))
  }

  lemma DigitsAreAddressChars(s: string)
    requires AllDigits(s)
    ensures AddressChars(s) && forall i :: 0 <= i < |s| ==> s[i] != ':' && s[i] != '-' && s[i] != '/'
  {
    assert forall i :: 0 <= i < |s| ==> IsDigit(s[i]);
  }

  lemma HostChars(p: Port)
    requires Published(p) && Plausible(p)
    ensures Host(p) != "" && AddressChars(Host(p))
  {
    hide Decimal, AllDigits, IsSpace;
    ColonIsNoSpace();
    DigitsAreAddressChars(Decimal(p.public.value));
  }

  lemma ColonIsNoSpace()
    ensures !IsSpace(':') && !IsSpace('-') && !IsSpace('?') && !IsSpace('/')
  {
  }

  lemma InnerEnds(p: Port)
    requires Plausible(p)
    ensures Inner(p) != "" && !IsSpace(Inner(p)[|Inner(p)| - 1]) && !IsSpace(Inner(p)[0])
  {
    hide IsSpace, Decimal;
    ColonIsNoSpace();
    assert Inner(p)[|Inner(p)| - 1] == Proto(p)[|Proto(p)| - 1];
    if p.private.Some? {
      DigitsAreAddressChars(Decimal(p.private.value));
    }
  }

  lemma InnerParses(p: Port)
    requires p.private.Some? && Alphanumeric(Proto(p))
    ensures ParseInner(Inner(p)) == Some((Decimal(p.private.value), Lower(Proto(p))))
  {
    hide Decimal, AllDigits, Alphanumeric, IndexOf;
    var digits, s := Decimal(p.private.value), Inner(p);
    DigitsAreAddressChars(digits);
    assert s[|digits|] == '/' && forall j :: 0 <= j < |digits| ==> s[j] == digits[j];
    assert IndexOf(s, '/') == |digits|;
    assert s[..|digits|] == digits && s[|digits| + 1..] == Proto(p);
  }

  lemma InnerFails(p: Port)
    requires p.private.None? || !Alphanumeric(Proto(p))
    ensures ParseInner(Inner(p)) == None
  {
    hide Decimal, Alphanumeric, IndexOf;
    var s := Inner(p);
    if p.private.None? {
      assert s[0] == '?' && s[1] == '/';
      assert IndexOf(s, '/') == 1;
      assert !IsDigit(s[..1][0]);
    } else {
      var digits := Decimal(p.private.value);
      DigitsAreAddressChars(digits);
      assert s[|digits|] == '/' && forall j :: 0 <= j < |digits| ==> s[j] == digits[j];
      assert IndexOf(s, '/') == |digits|;
      assert s[|digits| + 1..] == Proto(p);
    }
  }

  lemma HostParses(p: Port)
    requires Published(p) && Plausible(p)
    ensures ParseHost(Host(p)) == Some((Address(p), Decimal(p.public.value)))
  {
    hide Decimal, AllDigits, LastIndexOf, IsSpace;
    var digits, left := Decimal(p.public.value), Host(p);
    DigitsAreAddressChars(digits);
    if Address(p).Some? {
      var ip := Address(p).value;
      assert left[|ip|] == ':' && forall j :: |ip| < j < |left| ==> left[j] == digits[j - |ip| - 1];
      assert LastIndexOf(left, ':') == |ip|;
      assert left[..|ip|] == ip && left[|ip| + 1..] == digits;
      NoTerminators(ip);
    } else {
      assert left == digits;
      assert LastIndexOf(left, ':') == -1;
    }
  }

  lemma NoTerminators(s: string)
    requires AddressChars(s)
    ensures forall j :: 0 <= j < |s| ==> !Terminator(s[j])
  {
    forall j | 0 <= j < |s|
      ensures !Terminator(s[j])
    {
      assert !IsSpace(s[j]);
    }
  }

  lemma FirstArrow(left: string, right: string)
    requires forall i :: 0 <= i < |left| ==> left[i] != '>'
    ensures ArrowIndex(left + "->" + right, 0) == |left|
  {
    hide ArrowIndex;
    var s := left + "->" + right;
    assert s[|left|] == '-' && s[|left| + 1] == '>';
    assert forall j :: 0 <= j < |left| ==> s[j] == left[j];
    assert ArrowAt(s, |left|);
  }

  /** Every published port: both ports, the address and the lower-cased protocol come back, or the text is refused. */
  lemma PublishedRoundTrip(p: Port)
    requires Published(p) && Plausible(p)
    ensures ParsePortBinding(Format(p)) ==
      if p.private.Some? && Alphanumeric(Proto(p)) then
        Some(Parsed(Format(p), true, Address(p), Some(Decimal(p.public.value)), Decimal(p.private.value), Lower(Proto(p))))
      else None
  {
    hide Host, Inner, Trim, IsSpace, ArrowIndex, ParseHost, ParseInner, Decimal, Alphanumeric;
    var left, right := Host(p), Inner(p);
    var s := left + "->" + right;
    HostChars(p);
    InnerEnds(p);
    assert s[0] == left[0] && s[|s| - 1] == right[|right| - 1];
    TrimmedTrims(s);
    FirstArrow(left, right);
    assert s[..|left|] == left && s[|left| + 2..] == right;
    HostParses(p);
    if p.private.Some? && Alphanumeric(Proto(p)) {
      InnerParses(p);
    } else {
      InnerFails(p);
    }
  }

  /** An unpublished port has no host side. */
  lemma UnpublishedRoundTrip(p: Port)
    requires !Published(p) && p.private.Some? && Plausible(p) && Alphanumeric(Proto(p))
    ensures ParsePortBinding(Format(p)) ==
      Some(Parsed(Format(p), false, None, None, Decimal(p.private.value), Lower(Proto(p))))
  {
    hide Trim, IsSpace, ArrowIndex, ParseHost, ParseInner, Decimal;
    var s := Inner(p);
    InnerEnds(p);
    TrimmedTrims(s);
    InnerHasNoArrow(p);
    InnerParses(p);
  }

  lemma InnerHasNoArrow(p: Port)
    requires p.private.Some? && Alphanumeric(Proto(p))
    ensures forall i :: 0 <= i < |Inner(p)| ==> Inner(p)[i] != '>'
    ensures ArrowIndex(Inner(p), 0) == |Inner(p)|
  {
    hide Decimal, ArrowIndex;
    var digits, s := Decimal(p.private.value), Inner(p);
    DigitsAreAddressChars(digits);
    forall i | 0 <= i < |s|
      ensures s[i] != '>'
    {
      if i < |digits| {
        assert s[i] == digits[i];
      } else if i > |digits| {
        assert s[i] == Proto(p)[i - |digits| - 1];
      }
    }
  }

  // ---- Who holds a host port

  /** `(\d+)->` at this position. */
  function PortAt(s: string, i: nat): Option<string>
    requires i <= |s|
  {
    var k := RunEnd(s, i, IsDigit);
    if i < k && ArrowAt(s, k) then Some(s[i..k]) else None
  }

  /** The leftmost match of `(?:^|:)(\d+)->` from position `i` on. */
  function FirstPort(s: string, i: nat): Option<string>
    requires i <= |s|
    decreases |s| - i
  {
    if i == 0 && PortAt(s, 0).Some? then PortAt(s, 0)
    else if i == |s| then None
    else if s[i] == ':' && PortAt(s, i + 1).Some? then PortAt(s, i + 1)
    else FirstPort(s, i + 1)
  }

  predicate UsesHostPort(binding: string, hostPort: string) {
    FirstPort(binding, 0) == Some(hostPort)
  }

  /** A port can only end where the first `>` is, and no colon lies inside it. */
  lemma PortReachesArrow(s: string, i: nat, arrow: nat)
    requires i <= |s| && ArrowAt(s, arrow) && forall j :: 0 <= j <= arrow ==> s[j] != '>'
    requires i <= arrow && exists j :: i <= j < arrow && !IsDigit(s[j])
    ensures PortAt(s, i) == None
  {
    var j :| i <= j < arrow && !IsDigit(s[j]);
    var k := RunEnd(s, i, IsDigit);
    assert k <= j;
    assert s[k + 1] != '>';
  }

  lemma {:induction false} SkipAddress(s: string, i: nat, colon: nat, arrow: nat)
    requires ArrowAt(s, arrow) && (forall j :: 0 <= j <= arrow ==> s[j] != '>')
    requires i <= colon < arrow && s[colon] == ':' && PortAt(s, colon + 1).Some?
    ensures FirstPort(s, i) == PortAt(s, colon + 1)
    decreases colon - i
  {
    hide PortAt;
    assert !IsDigit(s[colon]);
    if i == 0 {
      PortReachesArrow(s, 0, arrow);
    }
    if i < colon {
      PortReachesArrow(s, i + 1, arrow);
      SkipAddress(s, i + 1, colon, arrow);
    }
  }

  lemma PortBeforeArrow(s: string, i: nat, digits: string)
    requires Digits(digits) && i + |digits| <= |s| && s[i..i + |digits|] == digits && ArrowAt(s, i + |digits|)
    ensures PortAt(s, i) == Some(digits)
  {
    assert forall j :: i <= j < i + |digits| ==> s[j] == digits[j - i];
    assert RunEnd(s, i, IsDigit) == i + |digits|;
  }

  /** The printed text of a published port is taken for exactly its own host port. */
  lemma UsesExactlyItsPort(p: Port, hostPort: nat)
    requires Published(p) && Plausible(p)
    ensures UsesHostPort(Format(p), Decimal(hostPort)) <==> hostPort == p.public.value
  {
    hide Decimal, Inner, PortAt, FirstPort, IsSpace, AllDigits;
    var digits, left := Decimal(p.public.value), Host(p);
    var s := Format(p);
    HostChars(p);
    var arrow := |left|;
    assert s[arrow] == '-' && s[arrow + 1] == '>' && forall j :: 0 <= j < arrow ==> s[j] == left[j];
    var start := |left| - |digits|;
    assert s[start..arrow] == digits;
    PortBeforeArrow(s, start, digits);
    if Address(p).Some? {
      assert s[start - 1] == ':';
      SkipAddress(s, 0, start - 1, arrow);
    } else {
      FirstAtStart(s);
    }
    if Decimal(hostPort) == digits {
      DecimalInjective(hostPort, p.public.value);
    }
  }

  lemma FirstAtStart(s: string)
    requires PortAt(s, 0).Some?
    ensures FirstPort(s, 0) == PortAt(s, 0)
  {
  }

  lemma {:induction false} NoArrowNoPort(s: string, i: nat)
    requires i <= |s| && forall j :: 0 <= j < |s| ==> s[j] != '>'
    ensures FirstPort(s, i) == None
    decreases |s| - i
  {
    if i < |s| {
      NoArrowNoPort(s, i + 1);
    }
  }

  datatype Container = Container(name: string, ports: seq<Port>)

  function Bindings(ports: seq<Port>): seq<string> {
    seq(|ports|, i requires 0 <= i < |ports| => Format(ports[i]))
  }

  predicate AnyUses(bindings: seq<string>, hostPort: string) {
    exists i :: 0 <= i < |bindings| && UsesHostPort(bindings[i], hostPort)
  }

  predicate FirstHolder(containers: seq<Container>, hostPort: string, k: int) {
    && 0 <= k < |containers| && AnyUses(Bindings(containers[k].ports), hostPort)
    && forall j :: 0 <= j < k ==> !AnyUses(Bindings(containers[j].ports), hostPort)
  }

  method FindContainerHoldingHostPort(containers: seq<Container>, hostPort: string) returns (name: Option<string>)
    ensures name.None? ==> forall c <- containers :: !AnyUses(Bindings(c.ports), hostPort)
    ensures name.Some? ==> exists k :: FirstHolder(containers, hostPort, k) && containers[k].name == name.value
  {
    hide AnyUses, Bindings;
    for k := 0 to |containers|
      invariant forall j :: 0 <= j < k ==> !AnyUses(Bindings(containers[j].ports), hostPort)
    {
      if AnyUses(Bindings(containers[k].ports), hostPort) {
        assert FirstHolder(containers, hostPort, k);
        return Some(containers[k].name);
      }
    }
    return None;
  }

  predicate Ordinary(p: Port) {
    Plausible(p) && p.private.Some? && Alphanumeric(Proto(p))
  }

  /** A container's printed bindings use a host port exactly when one of its ports is published there. */
  lemma HolderPublishes(ports: seq<Port>, hostPort: nat)
    requires forall p <- ports :: Ordinary(p)
    ensures AnyUses(Bindings(ports), Decimal(hostPort))
       <==> exists p <- ports :: Published(p) && p.public.value == hostPort
  {
    hide Format, Decimal, Ordinary, UsesHostPort;
    forall i | 0 <= i < |ports|
      ensures UsesHostPort(Format(ports[i]), Decimal(hostPort))
         <==> Published(ports[i]) && ports[i].public.value == hostPort
    {
      OrdinaryUse(ports[i], hostPort);
    }
    assert forall i :: 0 <= i < |ports| ==> Bindings(ports)[i] == Format(ports[i]);
  }

  lemma OrdinaryUse(p: Port, hostPort: nat)
    requires Ordinary(p)
    ensures UsesHostPort(Format(p), Decimal(hostPort)) <==> Published(p) && p.public.value == hostPort
  {
    hide Decimal, Inner, FirstPort, Host, Plausible;
    if Published(p) {
      UsesExactlyItsPort(p, hostPort);
    } else {
      InnerHasNoArrow(p);
      NoArrowNoPort(Format(p), 0);
    }
  }
}
