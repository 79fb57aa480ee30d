/** The part of the cluster that forwards are resolved against: services, pods and nodes
    (internal/controller/proxyhost/proxy_forward.go:203-345, internal/controller/proxy_helpers.go:98-147). */
module Cluster {
  import opened Text
  import opened UpstreamText
  import opened Api

  datatype ServiceType = ClusterIP | NodePort | LoadBalancer | ExternalName

  datatype ServicePort = ServicePort(name: string, port: nat, nodePort: nat)

  datatype Service = Service(
    serviceType: ServiceType, clusterIP: string, ingress: seq<string>, ports: seq<ServicePort>,
    selector: map<string, string>)

  datatype Pod = Pod(namespace: string, labels: map<string, string>, running: bool, deleting: bool, nodeName: string)

  datatype Address = Address(isInternal: bool, address: string)

  datatype View = View(services: map<Key, Service>, pods: seq<Pod>, nodes: map<string, seq<Address>>)

  /** A label selector built from a set; the empty selector selects everything. */
  predicate Selects(selector: map<string, string>, labels: map<string, string>) {
    forall l :: l in selector ==> l in labels && labels[l] == selector[l]
  }

  // ---------------------------------------------------------------- ports

  predicate PortMatches(p: ServicePort, scheme: string) {
    Contains(ToLower(p.name), scheme) && (scheme == "http" ==> !Contains(ToLower(p.name), "https"))
  }

  function PortNumber(p: ServicePort, node: bool): nat {
    if node then p.nodePort else p.port
  }

  /** The number of the first port whose name fits, or 0. */
  function FirstMatch(ports: seq<ServicePort>, scheme: string, node: bool): nat {
    if ports == [] then 0
    else if PortMatches(ports[0], scheme) then PortNumber(ports[0], node)
    else FirstMatch(ports[1..], scheme, node)
  }

  lemma {:induction false} FirstMatchSkips(ports: seq<ServicePort>, i: nat, scheme: string, node: bool)
    requires i <= |ports| && forall j :: 0 <= j < i ==> !PortMatches(ports[j], scheme)
    ensures FirstMatch(ports, scheme, node) == FirstMatch(ports[i..], scheme, node)
  {
    hide PortMatches;
    if i == 0 {
      assert ports[0..] == ports;
    } else {
      FirstMatchSkips(ports, i - 1, scheme, node);
      assert ports[i - 1..][1..] == ports[i..];
    }
  }

  method MatchPort(ports: seq<ServicePort>, scheme: string, node: bool) returns (port: nat)
    ensures port == FirstMatch(ports, ToLower(scheme), node)
  {
    hide PortMatches;
    var lower := ToLower(scheme);
    for i := 0 to |ports|
      invariant forall j :: 0 <= j < i ==> !PortMatches(ports[j], lower)
    {
      if PortMatches(ports[i], lower) {
        FirstMatchSkips(ports, i, lower, node);
        assert ports[i..][0] == ports[i];
        return PortNumber(ports[i], node);
      }
    }
    FirstMatchSkips(ports, |ports|, lower, node);
    return 0;
  }

  /** The order in which a service port is chosen: the named port, the given number, the http port
      (the https one for an https forward), the first port. */
  function ChosenPort(s: Service, f: ForwardService, scheme: string, node: bool): nat {
    var named :=
      if f.portName.Some? && f.portName.value != "" then FirstMatch(s.ports, ToLower(f.portName.value), node) else 0;
    var given := if f.port.Some? then f.port.value else 0;
    var http := FirstMatch(s.ports, "http", node);
    var byScheme := if scheme == "https" || http == 0 then FirstMatch(s.ports, "https", node) else http;
    if named != 0 then named
    else if given != 0 then given
    else if byScheme != 0 then byScheme
    else if s.ports != [] then PortNumber(s.ports[0], node)
    else 0
  }

  /** The first port whose name fits. */
  predicate IsFirst(ports: seq<ServicePort>, scheme: string, i: nat) {
    i < |ports| && PortMatches(ports[i], scheme) && forall j :: 0 <= j < i ==> !PortMatches(ports[j], scheme)
  }

  lemma {:induction false} FirstMatchMeans(ports: seq<ServicePort>, scheme: string, node: bool)
    ensures forall i: nat :: IsFirst(ports, scheme, i) ==> FirstMatch(ports, scheme, node) == PortNumber(ports[i], node)
    ensures FirstMatch(ports, scheme, node) != 0 ==> exists i: nat :: IsFirst(ports, scheme, i)
  {
    hide PortMatches;
    forall i: nat | IsFirst(ports, scheme, i) ensures FirstMatch(ports, scheme, node) == PortNumber(ports[i], node) {
      FirstMatchSkips(ports, i, scheme, node);
      assert ports[i..][0] == ports[i];
    }
    if FirstMatch(ports, scheme, node) != 0 {
      var i := FirstFitting(ports, scheme, node);
    }
  }

  lemma {:induction false} FirstFitting(ports: seq<ServicePort>, scheme: string, node: bool) returns (i: nat)
    requires FirstMatch(ports, scheme, node) != 0
    ensures IsFirst(ports, scheme, i)
  {
    hide PortMatches;
    if PortMatches(ports[0], scheme) {
      i := 0;
    } else {
      i := FirstFitting(ports[1..], scheme, node);
      i := i + 1;
    }
  }

  /** The first port whose name fits has this number, which is not 0. */
  predicate Fits(ports: seq<ServicePort>, scheme: string, node: bool, port: nat) {
    port != 0
    && exists i :: 0 <= i < |ports| && IsFirst(ports, scheme, i)
                   && (if node then ports[i].nodePort else ports[i].port) == port
  }

  predicate Given(f: ForwardService) {
    f.port.Some? && f.port.value > 0
  }

  predicate Named(s: Service, f: ForwardService, node: bool, port: nat) {
    f.portName.Some? && f.portName.value != "" && Fits(s.ports, ToLower(f.portName.value), node, port)
  }

  /** The number under which the service itself offers one of its ports. */
  predicate ServiceNumber(s: Service, port: nat) {
    exists p :: p in s.ports && p.port == port
  }

  /** The number under which the nodes offer one of its ports. */
  predicate NodeNumber(s: Service, port: nat) {
    exists p :: p in s.ports && p.nodePort == port
  }

  /** The port that the scheme gives: only an https forward does not prefer http. */
  ghost predicate SchemeFits(s: Service, scheme: string, node: bool, port: nat) {
    if scheme != "https" && exists n :: Fits(s.ports, "http", node, n) then Fits(s.ports, "http", node, port)
    else Fits(s.ports, "https", node, port)
  }

  /** What a caller may rely on: the port is the given one or a port of the service; the name decides if it fits,
      then the given number, then the scheme, then the first port; 0 means that nothing was given and the first
      port, if there is one, has no number. */
  ghost predicate GoodChoice(s: Service, f: ForwardService, scheme: string, node: bool, port: nat) {
    && (port == 0 || f.port == Some(port) || if node then NodeNumber(s, port) else ServiceNumber(s, port))
    && (forall n :: Named(s, f, node, n) ==> port == n)
    && ((forall n :: !Named(s, f, node, n)) && Given(f) ==> port == f.port.value)
    && ((forall n :: !Named(s, f, node, n)) && !Given(f) ==>
          && (forall n :: SchemeFits(s, scheme, node, n) ==> port == n)
          && ((forall n :: !SchemeFits(s, scheme, node, n)) ==>
                port == if s.ports == [] then 0 else if node then s.ports[0].nodePort else s.ports[0].port))
    && (port == 0 ==>
          !Given(f) && (s.ports == [] || (if node then s.ports[0].nodePort else s.ports[0].port) == 0))
  }

  /** A match that is not 0 is the number of the first port that fits. */
  lemma MatchFits(ports: seq<ServicePort>, scheme: string, node: bool)
    ensures forall n :: Fits(ports, scheme, node, n) <==> n != 0 && n == FirstMatch(ports, scheme, node)
    ensures var n := FirstMatch(ports, scheme, node); n != 0 ==> exists p :: p in ports && PortNumber(p, node) == n
  {
    hide PortMatches, FirstMatch;
    FirstMatchMeans(ports, scheme, node);
    if FirstMatch(ports, scheme, node) != 0 {
      var i: nat :| IsFirst(ports, scheme, i);
      assert ports[i] in ports;
    }
  }

  lemma SchemeFitsOne(s: Service, scheme: string, node: bool)
    ensures var http := FirstMatch(s.ports, "http", node);
            var n := if scheme == "https" || http == 0 then FirstMatch(s.ports, "https", node) else http;
            && (forall m :: SchemeFits(s, scheme, node, m) <==> m != 0 && m == n)
            && (n != 0 ==> exists p :: p in s.ports && PortNumber(p, node) == n)
  {
    hide FirstMatch, Fits;
    MatchFits(s.ports, "http", node);
    MatchFits(s.ports, "https", node);
    var http := FirstMatch(s.ports, "http", node);
    assert Fits(s.ports, "http", node, http) <==> http != 0;
  }

  lemma NameFitsOne(s: Service, f: ForwardService, node: bool)
    ensures var n := if f.portName.Some? && f.portName.value != ""
                     then FirstMatch(s.ports, ToLower(f.portName.value), node) else 0;
            && (forall m :: Named(s, f, node, m) <==> m != 0 && m == n)
            && (n != 0 ==> exists p :: p in s.ports && PortNumber(p, node) == n)
  {
    hide FirstMatch, Fits, ToLower;
    if f.portName.Some? {
      MatchFits(s.ports, ToLower(f.portName.value), node);
    }
  }

  /** What the choice promises a caller. */
  lemma ChosenPortMeans(s: Service, f: ForwardService, scheme: string, node: bool)
    ensures GoodChoice(s, f, scheme, node, ChosenPort(s, f, scheme, node))
  {
    hide FirstMatch, Named, SchemeFits, ToLower;
    NameFitsOne(s, f, node);
    SchemeFitsOne(s, scheme, node);
    var port := ChosenPort(s, f, scheme, node);
    if Named(s, f, node, port) {
    } else if SchemeFits(s, scheme, node, port) {
    } else if s.ports != [] {
      assert s.ports[0] in s.ports;
    }
  }

  /** A plain service is reached on the given number or on the `port` field of one of its ports: that of the first
      port whose name fits the named one, the given number if no name is asked for, and that of the only port if
      nothing is given. */
  lemma ServicePortMeans(s: Service, f: ForwardService, scheme: string)
    ensures var n := ChosenPort(s, f, scheme, false);
            && (n == 0 || f.port == Some(n) || exists p :: p in s.ports && p.port == n)
            && (forall i: nat :: f.portName.Some? && f.portName.value != ""
                                 && IsFirst(s.ports, ToLower(f.portName.value), i) && s.ports[i].port != 0
                  ==> n == s.ports[i].port)
            && ((f.portName.None? || f.portName.value == "") && Given(f) ==> n == f.port.value)
            && (|s.ports| == 1 && !Given(f) ==> n == s.ports[0].port)
  {
    hide FirstMatch, ToLower, ChosenPort, PortMatches, SchemeFits;
    ChosenPortMeans(s, f, scheme, false);
    forall i: nat | f.portName.Some? && f.portName.value != ""
                    && IsFirst(s.ports, ToLower(f.portName.value), i) && s.ports[i].port != 0
      ensures ChosenPort(s, f, scheme, false) == s.ports[i].port
    {
      assert Named(s, f, false, s.ports[i].port);
    }
  }

  /** A NodePort service is reached on the given number or on the `nodePort` field of one of its ports. */
  lemma NodePortNumberMeans(s: Service, f: ForwardService, scheme: string)
    ensures var n := ChosenPort(s, f, scheme, true);
            && (n == 0 || f.port == Some(n) || exists p :: p in s.ports && p.nodePort == n)
            && (forall i: nat :: f.portName.Some? && f.portName.value != ""
                                 && IsFirst(s.ports, ToLower(f.portName.value), i) && s.ports[i].nodePort != 0
                  ==> n == s.ports[i].nodePort)
            && ((f.portName.None? || f.portName.value == "") && Given(f) ==> n == f.port.value)
            && (|s.ports| == 1 && !Given(f) ==> n == s.ports[0].nodePort)
  {
    hide FirstMatch, ToLower, ChosenPort, PortMatches, SchemeFits;
    ChosenPortMeans(s, f, scheme, true);
    forall i: nat | f.portName.Some? && f.portName.value != ""
                    && IsFirst(s.ports, ToLower(f.portName.value), i) && s.ports[i].nodePort != 0
      ensures ChosenPort(s, f, scheme, true) == s.ports[i].nodePort
    {
      assert Named(s, f, true, s.ports[i].nodePort);
    }
  }

  /** Which names fit a scheme, by the pieces of the lower-cased name. */
  lemma SchemeNames(p: ServicePort)
    ensures PortMatches(p, "https") <==> exists a: string, b: string :: ToLower(p.name) == a + "https" + b
    ensures PortMatches(p, "http") <==>
            && (exists a: string, b: string :: ToLower(p.name) == a + "http" + b)
            && !exists a: string, b: string :: ToLower(p.name) == a + "https" + b
  {
    hide ToLower, Contains;
    OccursBetween(ToLower(p.name), "http");
    OccursBetween(ToLower(p.name), "https");
  }

  lemma OccursBetween(name: string, part: string)
    ensures Contains(name, part) <==> exists a: string, b: string :: name == a + part + b
  {
    if Contains(name, part) {
      var k :| 0 <= k <= |name| && StartsAt(name, k, part);
      assert name == name[..k] + part + name[k..][|part|..];
    }
    if a: string, b: string :| name == a + part + b {
      assert name[|a|..] == part + b;
      assert StartsAt(name, |a|, part);
    }
  }

  method ChoosePort(s: Service, f: ForwardService, scheme: string, node: bool) returns (port: nat)
    ensures port == ChosenPort(s, f, scheme, node)
    ensures GoodChoice(s, f, scheme, node, port)
    ensures !node ==> port == 0 || f.port == Some(port) || exists p :: p in s.ports && p.port == port
    ensures node ==> port == 0 || f.port == Some(port) || exists p :: p in s.ports && p.nodePort == port
    ensures |s.ports| == 1 && !Given(f) ==> port == if node then s.ports[0].nodePort else s.ports[0].port
  {
    assert ToLower("http") == "http" && ToLower("https") == "https";
    ChosenPortMeans(s, f, scheme, node);
    ServicePortMeans(s, f, scheme);
    NodePortNumberMeans(s, f, scheme);
    hide FirstMatch, GoodChoice, ToLower;
    port := 0;
    if f.portName.Some? && f.portName.value != "" {
      port := MatchPort(s.ports, f.portName.value, node);
    }
    if port == 0 {
      if f.port.Some? && f.port.value > 0 {
        port := f.port.value;
      }
      if port == 0 {
        port := MatchPort(s.ports, "http", node);
        if scheme == "https" || port == 0 {
          port := MatchPort(s.ports, "https", node);
        }
      }
      if port == 0 && |s.ports| > 0 {
        port := PortNumber(s.ports[0], node);
      }
    }
  }

  // ---------------------------------------------------------------- node addresses

  function FirstInternal(addresses: seq<Address>): string {
    if addresses == [] then ""
    else if addresses[0].isInternal then addresses[0].address
    else FirstInternal(addresses[1..])
  }

  predicate FirstInternalAt(addresses: seq<Address>, j: nat) {
    j < |addresses| && addresses[j].isInternal && forall k :: 0 <= k < j ==> !addresses[k].isInternal
  }

  /** The first internal address, and no text if there is none. */
  lemma {:induction false} FirstInternalMeans(addresses: seq<Address>)
    ensures forall j: nat :: FirstInternalAt(addresses, j) ==> FirstInternal(addresses) == addresses[j].address
    ensures (forall a :: a in addresses ==> !a.isInternal) ==> FirstInternal(addresses) == ""
  {
    if addresses != [] {
      FirstInternalMeans(addresses[1..]);
      forall j: nat | FirstInternalAt(addresses, j) ensures FirstInternal(addresses) == addresses[j].address {
        if j > 0 {
          assert forall k :: 0 <= k < j - 1 ==> addresses[1..][k] == addresses[k + 1];
          assert FirstInternalAt(addresses[1..], j - 1);
        }
      }
    }
  }

  predicate Counts(p: Pod, nodes: map<string, seq<Address>>) {
    p.running && p.nodeName in nodes
  }

  /** The addresses of the nodes that run the pods, in order of first appearance. */
  function HostIps(pods: seq<Pod>, nodes: map<string, seq<Address>>): (ips: seq<string>)
    ensures NoDuplicates(ips)
    ensures forall ip ::
              ip in ips <==>
              exists p :: p in pods && p.running && p.nodeName in nodes && FirstInternal(nodes[p.nodeName]) == ip
  {
    if pods == [] then []
    else
      var front, last := pods[..|pods| - 1], pods[|pods| - 1];
      assert pods == front + [last];
      var ips := HostIps(front, nodes);
      if Counts(last, nodes) && FirstInternal(nodes[last.nodeName]) !in ips
      then ips + [FirstInternal(nodes[last.nodeName])] else ips
  }

  method InternalAddress(addresses: seq<Address>) returns (ip: string)
    ensures ip == FirstInternal(addresses)
    ensures ip == "" || Address(true, ip) in addresses
  {
    ip := "";
    for i := 0 to |addresses|
      invariant ip == "" && FirstInternal(addresses) == FirstInternal(addresses[i..])
    {
      assert addresses[i..][1..] == addresses[i + 1..];
      if addresses[i].isInternal {
        ip := addresses[i].address;
        break;
      }
    }
  }

  method GetPodsHostIPs(pods: seq<Pod>, nodes: map<string, seq<Address>>) returns (ips: seq<string>)
    ensures ips == HostIps(pods, nodes)
  {
    ips := [];
    for i := 0 to |pods|
      invariant ips == HostIps(pods[..i], nodes)
    {
      assert pods[..i + 1][..i] == pods[..i];
      if !pods[i].running {
        continue;
      }
      if pods[i].nodeName !in nodes {
        continue;
      }
      var ip := InternalAddress(nodes[pods[i].nodeName]);
      if ip !in ips {
        ips := ips + [ip];
      }
    }
    assert pods[..|pods|] == pods;
  }

  /** The pods behind a service. */
  function Backing(pods: seq<Pod>, namespace: string, selector: map<string, string>): (backing: seq<Pod>)
    ensures forall p :: p in backing <==> p in pods && p.namespace == namespace && Selects(selector, p.labels)
  {
    if pods == [] then []
    else
      var rest := Backing(pods[1..], namespace, selector);
      if pods[0].namespace == namespace && Selects(selector, pods[0].labels) then [pods[0]] + rest else rest
  }
}
