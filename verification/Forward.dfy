/** Compiling forwards and custom locations into a request body
    (internal/controller/proxyhost/proxy_forward.go, proxyhost_controller.go:414-528, 590-629). */
module Forward {
  import opened Text
  import opened Npm
  import opened Api
  import opened UpstreamText
  import opened Cluster

  /** The owner of a forward and the hash used for upstream names. */
  datatype Context = Context(key: Key, view: View, digest: string -> string)

  /** A resolved target before it is known whether upstream blocks are supported. */
  datatype Target = Target(plainHost: string, port: nat, upstream: Option<Upstream>, checked: bool)

  /** ProxyHostForward; the map holds the blocks whose texts the source stores. */
  datatype Compiled = Compiled(scheme: string, host: string, port: nat, advancedConfig: string,
                               upstreams: map<string, Upstream>)

  // ---------------------------------------------------------------- specification: one forward

  function NamedUpstream(c: Context, hosts: seq<UpstreamHost>, keepalive: bool): Upstream {
    Upstream(UpstreamName(c.key.name, c.key.namespace, hosts, c.digest), keepalive, hosts)
  }

  function ServiceKey(c: Context, s: ForwardService): Key {
    Key(if s.namespace.Some? then s.namespace.value else c.key.namespace, s.name)
  }

  function NodeHosts(ips: seq<string>, port: nat): seq<UpstreamHost> {
    seq(|ips|, i requires 0 <= i < |ips| => UpstreamHost(ips[i], port))
  }

  /** forwardWhenNodePortType: every node that runs a backing pod, on the node port. */
  function NodePortTarget(c: Context, f: ForwardSpec, ns: string, s: Service): Target
    requires f.service.Some?
  {
    var port := ChosenPort(s, f.service.value, f.scheme, true);
    var ips := HostIps(Backing(c.view.pods, ns, s.selector), c.view.nodes);
    Target(if ips != [] then ips[0] else s.clusterIP, port,
           if ips != [] then Some(NamedUpstream(c, NodeHosts(ips, port), f.nginxKeepalive)) else None, true)
  }

  /** forwardWhenNotNodePortType: the cluster address, or the first ingress of a load balancer. */
  function PlainServiceTarget(f: ForwardSpec, s: Service): Target
    requires f.service.Some?
  {
    Target(if s.serviceType == LoadBalancer && s.ingress != [] then s.ingress[0] else s.clusterIP,
           ChosenPort(s, f.service.value, f.scheme, false), None, true)
  }

  /** Explicit hosts win over a service; a block is wanted for more than one host. */
  function Resolve(c: Context, f: ForwardSpec): Result<Target> {
    if f.hosts != [] then
      Success(Target(f.hosts[0].hostname, f.hosts[0].port,
                     if |f.hosts| > 1 then Some(NamedUpstream(c, f.hosts, f.nginxKeepalive)) else None, false))
    else if f.service.None? then Failure
    else
      var k := ServiceKey(c, f.service.value);
      if k !in c.view.services then Failure
      else
        var s := c.view.services[k];
        Success(if s.serviceType == NodePort then NodePortTarget(c, f, k.namespace, s) else PlainServiceTarget(f, s))
  }

  function TargetHost(t: Target, supported: bool): string {
    if supported && t.upstream.Some? then t.upstream.value.name else t.plainHost
  }

  /** A service must give a port and an address. */
  predicate Usable(t: Target, supported: bool) {
    t.checked ==> t.port != 0 && TargetHost(t, supported) != ""
  }

  function Defines(t: Target, supported: bool): map<string, Upstream> {
    if supported && t.upstream.Some? then map[t.upstream.value.name := t.upstream.value] else map[]
  }

  function VariableName(v: string): string {
    if "$" <= v then v else "$" + v
  }

  function AssignVariable(v: string, value: string, config: string): string {
    if v == "" then config else "set " + VariableName(v) + " \"" + value + "\";" + "\n" + config
  }

  function CompileMain(c: Context, f: ForwardSpec, supported: bool): Result<Compiled> {
    match Resolve(c, f)
    case Failure => Failure
    case Success(t) =>
      if !Usable(t, supported) then Failure
      else Success(Compiled(f.scheme, TargetHost(t, supported), t.port,
                            AssignVariable(f.nginxVariable, TargetHost(t, supported), f.advancedConfig),
                            Defines(t, supported)))
  }

  /** A custom location adds its variable and its block to the main forward. */
  function Absorb(main: Compiled, f: ForwardSpec, t: Target, supported: bool): Compiled {
    main.(advancedConfig := AssignVariable(f.nginxVariable, TargetHost(t, supported), main.advancedConfig),
          upstreams := main.upstreams + Defines(t, supported))
  }

  function LocationPath(f: ForwardSpec): string {
    if f.path == "" then "/" else f.path
  }

  function CompiledLocation(l: CustomLocation, t: Target, supported: bool): Location {
    Location(l.locationPath, l.forward.advancedConfig, l.forward.scheme,
             TargetHost(t, supported) + LocationPath(l.forward), t.port)
  }

  /** constructCustomLocation: left to right, each location writing into the main forward. */
  function CompileLocations(c: Context, ls: seq<CustomLocation>, supported: bool, main: Compiled)
    : Result<(Compiled, seq<Location>)>
  {
    if ls == [] then Success((main, []))
    else
      match CompileLocations(c, ls[..|ls| - 1], supported, main)
      case Failure => Failure
      case Success(p) =>
        var l := ls[|ls| - 1];
        match Resolve(c, l.forward)
        case Failure => Failure
        case Success(t) =>
          if !Usable(t, supported) then Failure
          else Success((Absorb(p.0, l.forward, t, supported), p.1 + [CompiledLocation(l, t, supported)]))
  }

  function CompileForwards(c: Context, spec: ProxyHostSpec, supported: bool): Result<(Compiled, seq<Location>)> {
    match CompileMain(c, spec.forward, supported)
    case Failure => Failure
    case Success(main) => CompileLocations(c, spec.customLocations, supported, main)
  }

  // ---------------------------------------------------------------- what a target means

  /** The forward has no explicit hosts and its reference leads to the service: in the given namespace, or else in
      that of the owner. */
  predicate LeadsTo(c: Context, f: ForwardSpec, s: Service) {
    f.hosts == [] && f.service.Some?
    && var ns := f.service.value.namespace;
       var k := Key(if ns.Some? then ns.value else c.key.namespace, f.service.value.name);
       k in c.view.services && c.view.services[k] == s
  }

  /** Explicit hosts decide a forward alone, whatever service it names: the first one is the plain target, and
      several of them make a block that lists them all in order. */
  lemma ExplicitHostsMean(c: Context, f: ForwardSpec)
    requires f.hosts != []
    ensures Resolve(c, f).Success?
    ensures var t := Resolve(c, f).value;
            && t.plainHost == f.hosts[0].hostname && t.port == f.hosts[0].port
            && (t.upstream.Some? <==> |f.hosts| > 1)
            && (|f.hosts| > 1 ==> t.upstream.value.hosts == f.hosts && t.upstream.value.keepalive == f.nginxKeepalive)
            && Usable(t, true) && Usable(t, false)
  {
    hide UpstreamName;
  }

  /** A service of another type than NodePort alone decides its forward: in any cluster that holds it the forward
      resolves to one address and port, never has a block, and support makes no difference. */
  lemma PlainServiceMeans(f: ForwardSpec, s: Service, c: Context, d: Context)
    requires s.serviceType != NodePort && LeadsTo(c, f, s) && LeadsTo(d, f, s)
    ensures Resolve(c, f) == Resolve(d, f) && Resolve(c, f).Success? && Generated(c, f) == None
    ensures var t := Resolve(c, f).value;
            && GoodChoice(s, f.service.value, f.scheme, false, t.port)
            && (s.serviceType == LoadBalancer && s.ingress != [] ==> t.plainHost == s.ingress[0])
            && (s.serviceType != LoadBalancer || s.ingress == [] ==> t.plainHost == s.clusterIP)
            && (t.port == 0 || f.service.value.port == Some(t.port) || exists p :: p in s.ports && p.port == t.port)
            && (Usable(t, true) <==> Usable(t, false)) && (Usable(t, true) <==> t.port != 0 && t.plainHost != "")
  {
    hide ChosenPort, GoodChoice, ToLower, IsFirst;
    ChosenPortMeans(s, f.service.value, f.scheme, false);
    ServicePortMeans(s, f.service.value, f.scheme);
  }

  /** A running pod behind the service has this as its node's address. */
  predicate RunsOn(c: Context, ns: string, s: Service, ip: string) {
    exists p :: && p in c.view.pods && p.namespace == ns && p.running && p.nodeName in c.view.nodes
                && (forall l :: l in s.selector ==> l in p.labels && p.labels[l] == s.selector[l])
                && FirstInternal(c.view.nodes[p.nodeName]) == ip
  }

  /** A target that reaches a NodePort service through its nodes: the block lists exactly those that run a pod of it,
      each once, all on one node port of the service or the given number; without such a node there is no block, and
      the cluster address is used. */
  ghost predicate ReachesNodes(c: Context, f: ForwardSpec, ns: string, s: Service, t: Target)
    requires f.service.Some?
  {
    && GoodChoice(s, f.service.value, f.scheme, true, t.port)
    && (t.port == 0 || f.service.value.port == Some(t.port) || exists p :: p in s.ports && p.nodePort == t.port)
    && (t.upstream.None? ==> t.plainHost == s.clusterIP && forall ip :: !RunsOn(c, ns, s, ip))
    && (t.upstream.Some? ==>
          && var hosts := t.upstream.value.hosts;
          && hosts != [] && t.plainHost == hosts[0].hostname && NoDuplicates(hosts)
          && t.upstream.value.keepalive == f.nginxKeepalive
          && forall h :: h in hosts <==> h.port == t.port && RunsOn(c, ns, s, h.hostname))
  }

  /** A forward that leads to a NodePort service reaches its nodes, by the pods of the service's own namespace. */
  lemma NodePortMeans(c: Context, f: ForwardSpec, s: Service)
    requires LeadsTo(c, f, s) && s.serviceType == NodePort
    ensures Resolve(c, f).Success?
    ensures var ns := f.service.value.namespace;
            ReachesNodes(c, f, if ns.Some? then ns.value else c.key.namespace, s, Resolve(c, f).value)
  {
    hide NodePortTarget, ReachesNodes;
    NodePortTargetMeans(c, f, ServiceKey(c, f.service.value).namespace, s);
  }

  lemma NodePortTargetMeans(c: Context, f: ForwardSpec, ns: string, s: Service)
    requires f.service.Some?
    ensures ReachesNodes(c, f, ns, s, NodePortTarget(c, f, ns, s))
  {
    ChosenPortMeans(s, f.service.value, f.scheme, true);
    NodePortNumberMeans(s, f.service.value, f.scheme);
    hide ChosenPort, GoodChoice, UpstreamName, FirstInternal, ToLower, IsFirst, HostIps, Backing, RunsOn;
    var port := ChosenPort(s, f.service.value, f.scheme, true);
    var ips := BackingNodes(c, ns, s);
    HostsOfNodes(ips, port);
  }

  lemma BackingNodes(c: Context, ns: string, s: Service) returns (ips: seq<string>)
    ensures ips == HostIps(Backing(c.view.pods, ns, s.selector), c.view.nodes)
    ensures NoDuplicates(ips) && forall ip :: ip in ips <==> RunsOn(c, ns, s, ip)
  {
    hide FirstInternal;
    ips := HostIps(Backing(c.view.pods, ns, s.selector), c.view.nodes);
  }

  lemma HostsOfNodes(ips: seq<string>, port: nat)
    requires NoDuplicates(ips)
    ensures NoDuplicates(NodeHosts(ips, port))
    ensures forall h :: h in NodeHosts(ips, port) <==> h.port == port && h.hostname in ips
  {
    var hosts := NodeHosts(ips, port);
    forall h: UpstreamHost ensures h in hosts <==> h.port == port && h.hostname in ips {
      if h.port == port && h.hostname in ips {
        var i :| 0 <= i < |ips| && ips[i] == h.hostname;
        assert hosts[i] == h;
      }
    }
  }

  // ---------------------------------------------------------------- merged text

  function TextsOf(us: map<string, Upstream>): map<string, string> {
    map n | n in us :: BlockText(us[n])
  }

  /** `order` lists the keys, each once: map iteration in Go fixes no particular order. */
  ghost predicate Lists(order: seq<string>, keys: set<string>) {
    NoDuplicates(order) && forall k :: k in order <==> k in keys
  }

  function ValuesIn<T>(order: seq<string>, m: map<string, T>): seq<T>
    requires forall k :: k in order ==> k in m
  {
    seq(|order|, i requires 0 <= i < |order| => m[order[i]])
  }

  ghost predicate IsMerge(text: string, us: map<string, Upstream>) {
    exists order: seq<string> :: Lists(order, us.Keys) && text == Join(ValuesIn(order, TextsOf(us)), "\n")
  }

  // ---------------------------------------------------------------- closed references

  /** The i-th forward of a spec: 0 is the main one, the rest are the custom locations. */
  function ForwardAt(spec: ProxyHostSpec, i: nat): ForwardSpec
    requires i <= |spec.customLocations|
  {
    if i == 0 then spec.forward else spec.customLocations[i - 1].forward
  }

  /** The block forward f generates, if any. */
  function Generated(c: Context, f: ForwardSpec): Option<Upstream> {
    match Resolve(c, f) case Failure => None case Success(t) => t.upstream
  }

  /** Some forward before n generates block u. */
  predicate GeneratedBefore(c: Context, spec: ProxyHostSpec, n: nat, u: Upstream)
    requires n <= |spec.customLocations| + 1
  {
    exists i :: 0 <= i < n && Generated(c, ForwardAt(spec, i)) == Some(u)
  }

  /** Forward i is the last one before n to generate its upstream name. */
  predicate LastOfName(c: Context, spec: ProxyHostSpec, n: nat, i: nat)
    requires i < n <= |spec.customLocations| + 1 && Generated(c, ForwardAt(spec, i)).Some?
  {
    forall j :: i < j < n && Generated(c, ForwardAt(spec, j)).Some?
      ==> Generated(c, ForwardAt(spec, j)).value.name != Generated(c, ForwardAt(spec, i)).value.name
  }

  /** The blocks after the first n forwards: for each generated name, the block of the last forward with it. */
  ghost predicate BlocksUpTo(c: Context, spec: ProxyHostSpec, n: nat, us: map<string, Upstream>)
    requires n <= |spec.customLocations| + 1
  {
    && (forall i :: 0 <= i < n && Generated(c, ForwardAt(spec, i)).Some? ==>
          Generated(c, ForwardAt(spec, i)).value.name in us)
    && (forall i :: 0 <= i < n && Generated(c, ForwardAt(spec, i)).Some? && LastOfName(c, spec, n, i)
          ==> us[Generated(c, ForwardAt(spec, i)).value.name] == Generated(c, ForwardAt(spec, i)).value)
    && (forall name :: name in us ==> us[name].name == name && GeneratedBefore(c, spec, n, us[name]))
  }

  /** Forward i of a body names `host`: as its forward host, or before the path of its location. */
  predicate Names(spec: ProxyHostSpec, main: Compiled, ls: seq<Location>, i: nat, host: string)
    requires i <= |spec.customLocations| && i <= |ls|
  {
    if i == 0 then main.host == host else ls[i - 1].forwardHost == host + LocationPath(ForwardAt(spec, i))
  }

  /** The first n forwards are resolved, usable, and name their target. */
  ghost predicate TargetsUpTo(c: Context, spec: ProxyHostSpec, n: nat, main: Compiled, ls: seq<Location>,
                              supported: bool)
    requires n <= |spec.customLocations| + 1 && n <= |ls| + 1
  {
    forall i :: 0 <= i < n ==>
      var r := Resolve(c, ForwardAt(spec, i));
      r.Success? && Usable(r.value, supported) && Names(spec, main, ls, i, TargetHost(r.value, supported))
  }

  lemma BlocksGrow(c: Context, spec: ProxyHostSpec, n: nat, us: map<string, Upstream>)
    requires n <= |spec.customLocations| && BlocksUpTo(c, spec, n, us)
    ensures var g := Generated(c, ForwardAt(spec, n));
            BlocksUpTo(c, spec, n + 1, if g.Some? then us[g.value.name := g.value] else us)
  {
    hide Generated;
    var g := Generated(c, ForwardAt(spec, n));
    var us' := if g.Some? then us[g.value.name := g.value] else us;
    forall name | name in us' ensures us'[name].name == name && GeneratedBefore(c, spec, n + 1, us'[name]) {
      if g == Some(us'[name]) {
        assert GeneratedBefore(c, spec, n + 1, us'[name]);
      } else {
        assert GeneratedBefore(c, spec, n, us[name]);
      }
    }
    forall i | 0 <= i < n + 1 && Generated(c, ForwardAt(spec, i)).Some? && LastOfName(c, spec, n + 1, i)
      ensures us'[Generated(c, ForwardAt(spec, i)).value.name] == Generated(c, ForwardAt(spec, i)).value
    {
      if i < n {
        assert LastOfName(c, spec, n, i);
      }
    }
  }

  lemma MainCompiled(c: Context, spec: ProxyHostSpec, supported: bool, main: Compiled)
    requires CompileMain(c, spec.forward, supported) == Success(main)
    ensures TargetsUpTo(c, spec, 1, main, [], supported)
    ensures supported ==> BlocksUpTo(c, spec, 1, main.upstreams)
    ensures !supported ==> main.upstreams == map[]
  {
    hide Resolve, AssignVariable;
    if supported {
      BlocksGrow(c, spec, 0, map[]);
      assert ForwardAt(spec, 0) == spec.forward;
    }
  }

  lemma AbsorbUpstreams(main: Compiled, f: ForwardSpec, t: Target, supported: bool)
    ensures var main' := Absorb(main, f, t, supported);
            && main'.host == main.host
            && main'.upstreams
               == (if supported && t.upstream.Some? then main.upstreams[t.upstream.value.name := t.upstream.value]
                   else main.upstreams)
  {
    hide AssignVariable;
  }

  /** The last step of compiling n locations. */
  lemma LastLocation(c: Context, ls: seq<CustomLocation>, supported: bool, main: Compiled)
    requires ls != [] && CompileLocations(c, ls, supported, main).Success?
    ensures var before, l := CompileLocations(c, ls[..|ls| - 1], supported, main), ls[|ls| - 1];
            var after := CompileLocations(c, ls, supported, main).value;
            && before.Success? && Resolve(c, l.forward).Success? && Usable(Resolve(c, l.forward).value, supported)
            && after == (Absorb(before.value.0, l.forward, Resolve(c, l.forward).value, supported),
                         before.value.1 + [CompiledLocation(l, Resolve(c, l.forward).value, supported)])
  {
    hide Resolve, Absorb, CompiledLocation;
  }

  lemma TargetsGrow(c: Context, spec: ProxyHostSpec, n: nat, main: Compiled, main': Compiled, ls: seq<Location>,
                    t: Target, supported: bool)
    requires 1 <= n <= |spec.customLocations| && |ls| == n - 1 && TargetsUpTo(c, spec, n, main, ls, supported)
    requires main'.host == main.host
    requires Resolve(c, ForwardAt(spec, n)) == Success(t) && Usable(t, supported)
    ensures TargetsUpTo(c, spec, n + 1, main', ls + [CompiledLocation(spec.customLocations[n - 1], t, supported)],
                        supported)
  {
    hide Resolve, Usable, TargetHost;
    var ls' := ls + [CompiledLocation(spec.customLocations[n - 1], t, supported)];
    assert forall i :: 0 <= i < n - 1 ==> ls'[i] == ls[i];
    assert ls'[n - 1] == CompiledLocation(spec.customLocations[n - 1], t, supported);
  }

  lemma {:induction false} LocationsCompiled(c: Context, spec: ProxyHostSpec, supported: bool, main: Compiled, n: nat)
    requires n <= |spec.customLocations|
    requires CompileMain(c, spec.forward, supported) == Success(main)
    requires CompileLocations(c, spec.customLocations[..n], supported, main).Success?
    ensures var p := CompileLocations(c, spec.customLocations[..n], supported, main).value;
            && |p.1| == n
            && TargetsUpTo(c, spec, n + 1, p.0, p.1, supported)
            && (supported ==> BlocksUpTo(c, spec, n + 1, p.0.upstreams))
            && (!supported ==> p.0.upstreams == map[])
  {
    hide Resolve, CompileMain, BlocksUpTo, TargetsUpTo, Absorb, Usable, TargetHost, CompiledLocation;
    if n == 0 {
      MainCompiled(c, spec, supported, main);
    } else {
      var ls := spec.customLocations[..n];
      assert ls[..n - 1] == spec.customLocations[..n - 1];
      LastLocation(c, ls, supported, main);
      LocationsCompiled(c, spec, supported, main, n - 1);
      hide CompileLocations;
      var before := CompileLocations(c, spec.customLocations[..n - 1], supported, main).value;
      var t := Resolve(c, ls[n - 1].forward).value;
      AbsorbUpstreams(before.0, ls[n - 1].forward, t, supported);
      TargetsGrow(c, spec, n, before.0, Absorb(before.0, ls[n - 1].forward, t, supported), before.1, t, supported);
      if supported {
        BlocksGrow(c, spec, n, before.0.upstreams);
      }
    }
  }

  /** Every generated name that a compiled body uses as a forward host, in the main forward or a location, has a
      block in that body. The block is the one this forward generated if and only if the last forward with
      that name generates the same one: keepalive is not hashed, and a later location overwrites. */
  lemma ClosedReferences(c: Context, spec: ProxyHostSpec, main: Compiled, ls: seq<Location>, i: nat)
    requires CompileForwards(c, spec, true) == Success((main, ls))
    requires i <= |spec.customLocations| && Generated(c, ForwardAt(spec, i)).Some?
    ensures |ls| == |spec.customLocations|
    ensures var u := Generated(c, ForwardAt(spec, i)).value;
            && Names(spec, main, ls, i, u.name)
            && u.name in main.upstreams && main.upstreams[u.name].name == u.name
            && exists j :: && i <= j <= |ls|
                           && Generated(c, ForwardAt(spec, j)).Some?
                           && Generated(c, ForwardAt(spec, j)).value.name == u.name
                 && LastOfName(c, spec, |ls| + 1, j)
                 && (main.upstreams[u.name] == u <==> Generated(c, ForwardAt(spec, j)) == Some(u))
  {
    hide Resolve, CompileMain, Usable, Absorb, CompileLocations;
    assert spec.customLocations[..|spec.customLocations|] == spec.customLocations;
    LocationsCompiled(c, spec, true, CompileMain(c, spec.forward, true).value, |spec.customLocations|);
    var j := LastWithName(c, spec, |ls| + 1, i);
  }

  lemma LastWithName(c: Context, spec: ProxyHostSpec, n: nat, i: nat) returns (j: nat)
    requires i < n <= |spec.customLocations| + 1 && Generated(c, ForwardAt(spec, i)).Some?
    ensures i <= j < n && Generated(c, ForwardAt(spec, j)).Some? && LastOfName(c, spec, n, j)
    ensures Generated(c, ForwardAt(spec, j)).value.name == Generated(c, ForwardAt(spec, i)).value.name
  {
    hide Generated;
    j := i;
    for k := i + 1 to n
      invariant i <= j < k && Generated(c, ForwardAt(spec, j)).Some? && LastOfName(c, spec, k, j)
      invariant Generated(c, ForwardAt(spec, j)).value.name == Generated(c, ForwardAt(spec, i)).value.name
    {
      var g := Generated(c, ForwardAt(spec, k));
      if g.Some? && g.value.name == Generated(c, ForwardAt(spec, i)).value.name {
        j := k;
      }
    }
  }

  /** A body holds no block that no forward generated. */
  lemma OnlyGeneratedBlocks(c: Context, spec: ProxyHostSpec, main: Compiled, ls: seq<Location>, name: string)
    requires CompileForwards(c, spec, true) == Success((main, ls)) && name in main.upstreams
    ensures main.upstreams[name].name == name
    ensures exists i ::
              0 <= i <= |spec.customLocations| && Generated(c, ForwardAt(spec, i)) == Some(main.upstreams[name])
  {
    hide Resolve, CompileMain, Usable, Absorb, CompileLocations;
    assert spec.customLocations[..|spec.customLocations|] == spec.customLocations;
    LocationsCompiled(c, spec, true, CompileMain(c, spec.forward, true).value, |spec.customLocations|);
    assert GeneratedBefore(c, spec, |spec.customLocations| + 1, main.upstreams[name]);
  }

  /** Without support no block is generated and every forward names its plain host. */
  lemma UnsupportedIsPlain(c: Context, spec: ProxyHostSpec, main: Compiled, ls: seq<Location>, i: nat)
    requires CompileForwards(c, spec, false) == Success((main, ls)) && i <= |spec.customLocations|
    ensures |ls| == |spec.customLocations| && main.upstreams == map[]
    ensures Resolve(c, ForwardAt(spec, i)).Success?
    ensures Names(spec, main, ls, i, Resolve(c, ForwardAt(spec, i)).value.plainHost)
  {
    hide Resolve, CompileMain, Absorb, CompileLocations;
    assert spec.customLocations[..|spec.customLocations|] == spec.customLocations;
    LocationsCompiled(c, spec, false, CompileMain(c, spec.forward, false).value, |spec.customLocations|);
  }

  // ---------------------------------------------------------------- the merged text

  lemma TextsInOrder(us: map<string, Upstream>, order: seq<string>)
    requires forall k :: k in order ==> k in us
    ensures ValuesIn(order, TextsOf(us)) == BlockTexts(ValuesIn(order, us))
  {
    hide BlockText;
  }

  /** In whatever order the map was walked, the merged text reads back as exactly its blocks, each once. */
  lemma MergedTextParses(us: map<string, Upstream>, text: string)
    requires IsMerge(text, us)
    requires forall n :: n in us ==> us[n].name == n && Readable(us[n])
    ensures ParseUpstreams(text).Some?
    ensures NoDuplicates(ParseUpstreams(text).value)
    ensures forall u: Upstream :: u in ParseUpstreams(text).value <==> u.name in us && us[u.name] == u
  {
    hide Readable, BlockText, ParseUpstreams, Join;
    var order: seq<string> :| Lists(order, us.Keys) && text == Join(ValuesIn(order, TextsOf(us)), "\n");
    TextsInOrder(us, order);
    var blocks := ValuesIn(order, us);
    PrintParse(blocks);
    forall u: Upstream | u.name in us && us[u.name] == u ensures u in blocks {
      var i :| 0 <= i < |order| && order[i] == u.name;
      assert blocks[i] == u;
    }
  }

  /** No part of the names and hosts of a spec's forwards would break an nginx word. */
  ghost predicate Wordlike(c: Context, hosts: seq<UpstreamHost>) {
    && Unbroken(c.key.name) && Unbroken(c.key.namespace)
    && (forall t :: Unbroken(c.digest(t)))
    && (forall h :: h in hosts ==> Unbroken(h.hostname))
  }

  lemma UnbrokenConcat(a: string, b: string)
    requires Unbroken(a) && Unbroken(b)
    ensures Unbroken(a + b)
  {
  }

  lemma UnbrokenPieces(s: string)
    requires Unbroken(s)
    ensures Unbroken(TrimSuffix(s, '-')) && Unbroken("-") && Unbroken(LB_SERVER_PREFIX)
  {
  }

  lemma NamedIsReadable(c: Context, hosts: seq<UpstreamHost>, keepalive: bool)
    requires Wordlike(c, hosts)
    ensures Readable(NamedUpstream(c, hosts, keepalive))
  {
    hide Unbroken, TrimSuffix, HashText;
    UnbrokenPieces("");
    UnbrokenConcat(c.key.name, "-");
    UnbrokenConcat(c.key.name + "-", c.key.namespace);
    UnbrokenPieces(c.key.name + "-" + c.key.namespace);
    var trimmed := TrimSuffix(c.key.name + "-" + c.key.namespace, '-');
    UnbrokenConcat(LB_SERVER_PREFIX, "-");
    UnbrokenConcat(LB_SERVER_PREFIX + "-", trimmed);
    UnbrokenConcat(LB_SERVER_PREFIX + "-" + trimmed, "-");
    UnbrokenConcat(LB_SERVER_PREFIX + "-" + trimmed + "-", c.digest(HashText(hosts)));
  }

  lemma GeneratedIsNamed(c: Context, f: ForwardSpec)
    requires Generated(c, f).Some?
    ensures var u := Generated(c, f).value; u == NamedUpstream(c, u.hosts, f.nginxKeepalive) && u.hosts != []
  {
    hide UpstreamName, HostIps, ChosenPort, Backing;
  }

  /** Hence a generated name in a body is defined by its `unscoped_config` text. */
  lemma ReferencesAreDefined(c: Context, spec: ProxyHostSpec, main: Compiled, ls: seq<Location>, text: string, i: nat)
    requires CompileForwards(c, spec, true) == Success((main, ls)) && IsMerge(text, main.upstreams)
    requires forall j :: 0 <= j <= |spec.customLocations| && Generated(c, ForwardAt(spec, j)).Some?
               ==> Wordlike(c, Generated(c, ForwardAt(spec, j)).value.hosts)
    requires i <= |spec.customLocations| && Generated(c, ForwardAt(spec, i)).Some?
    ensures |ls| == |spec.customLocations| && Names(spec, main, ls, i, Generated(c, ForwardAt(spec, i)).value.name)
    ensures var r := ParseUpstreams(text);
            r.Some? && exists u :: u in r.value && u.name == Generated(c, ForwardAt(spec, i)).value.name
  {
    hide Generated, CompileForwards, IsMerge, Readable, Wordlike, NamedUpstream, ParseUpstreams;
    forall n | n in main.upstreams ensures main.upstreams[n].name == n && Readable(main.upstreams[n]) {
      OnlyGeneratedBlocks(c, spec, main, ls, n);
      var j :| 0 <= j <= |spec.customLocations| && Generated(c, ForwardAt(spec, j)) == Some(main.upstreams[n]);
      GeneratedIsNamed(c, ForwardAt(spec, j));
      NamedIsReadable(c, main.upstreams[n].hosts, ForwardAt(spec, j).nginxKeepalive);
    }
    MergedTextParses(main.upstreams, text);
    ClosedReferences(c, spec, main, ls, i);
    assert main.upstreams[Generated(c, ForwardAt(spec, i)).value.name] in ParseUpstreams(text).value;
  }

  // ---------------------------------------------------------------- each forward its own block

  /** Forwards i and j generate blocks. */
  predicate Generate(c: Context, spec: ProxyHostSpec, i: nat, j: nat) {
    i <= |spec.customLocations| && j <= |spec.customLocations|
    && Generated(c, ForwardAt(spec, i)).Some? && Generated(c, ForwardAt(spec, j)).Some?
  }

  function TargetsOf(c: Context, spec: ProxyHostSpec, i: nat): seq<UpstreamHost>
    requires i <= |spec.customLocations| && Generated(c, ForwardAt(spec, i)).Some?
  {
    Generated(c, ForwardAt(spec, i)).value.hosts
  }

  /** The digest separates the target lists of this spec. */
  ghost predicate DigestsSeparate(c: Context, spec: ProxyHostSpec) {
    forall i: nat, j: nat :: Generate(c, spec, i, j) ==>
      Separates(c.digest, HashText(TargetsOf(c, spec, i)), HashText(TargetsOf(c, spec, j)))
  }

  /** Forwards with one hashed text also have one target list and one keepalive choice. */
  ghost predicate TextsTell(c: Context, spec: ProxyHostSpec) {
    forall i: nat, j: nat ::
      Generate(c, spec, i, j) && HashText(TargetsOf(c, spec, i)) == HashText(TargetsOf(c, spec, j)) ==>
        TargetsOf(c, spec, i) == TargetsOf(c, spec, j)
        && ForwardAt(spec, i).nginxKeepalive == ForwardAt(spec, j).nginxKeepalive
  }

  /** The body defines the name that forward i uses by the block that forward i generated. */
  ghost predicate OwnBlock(c: Context, spec: ProxyHostSpec, main: Compiled, i: nat)
    requires i <= |spec.customLocations| && Generated(c, ForwardAt(spec, i)).Some?
  {
    var u := Generated(c, ForwardAt(spec, i)).value; u.name in main.upstreams && main.upstreams[u.name] == u
  }

  lemma SameNameSameText(c: Context, spec: ProxyHostSpec, i: nat, j: nat)
    requires Generate(c, spec, i, j) && DigestsSeparate(c, spec)
    ensures Generated(c, ForwardAt(spec, i)).value.name == Generated(c, ForwardAt(spec, j)).value.name
            <==> HashText(TargetsOf(c, spec, i)) == HashText(TargetsOf(c, spec, j))
  {
    hide Generated, HashText, UpstreamName;
    GeneratedIsNamed(c, ForwardAt(spec, i));
    GeneratedIsNamed(c, ForwardAt(spec, j));
    NamesSeparate(c.key.name, c.key.namespace, TargetsOf(c, spec, i), TargetsOf(c, spec, j), c.digest);
  }

  /** Where digests do not collide, every forward keeps its own block if and only if forwards with one hashed text have
      one target list and one keepalive choice. */
  lemma BlocksAreOwn(c: Context, spec: ProxyHostSpec, main: Compiled, ls: seq<Location>)
    requires CompileForwards(c, spec, true) == Success((main, ls)) && DigestsSeparate(c, spec)
    ensures (forall i: nat :: i <= |spec.customLocations| && Generated(c, ForwardAt(spec, i)).Some? ==>
               OwnBlock(c, spec, main, i))
            <==> TextsTell(c, spec)
  {
    hide Generated, HashText, UpstreamName, CompileForwards, DigestsSeparate;
    if TextsTell(c, spec) {
      forall i: nat | i <= |spec.customLocations| && Generated(c, ForwardAt(spec, i)).Some?
        ensures OwnBlock(c, spec, main, i)
      {
        TellingBlockIsOwn(c, spec, main, ls, i);
      }
    } else {
      var i: nat, j: nat :| Generate(c, spec, i, j)
        && HashText(TargetsOf(c, spec, i)) == HashText(TargetsOf(c, spec, j))
        && !(TargetsOf(c, spec, i) == TargetsOf(c, spec, j)
             && ForwardAt(spec, i).nginxKeepalive == ForwardAt(spec, j).nginxKeepalive);
      SameNameSameText(c, spec, i, j);
      GeneratedIsNamed(c, ForwardAt(spec, i));
      GeneratedIsNamed(c, ForwardAt(spec, j));
      assert !(OwnBlock(c, spec, main, i) && OwnBlock(c, spec, main, j));
    }
  }

  lemma TellingBlockIsOwn(c: Context, spec: ProxyHostSpec, main: Compiled, ls: seq<Location>, i: nat)
    requires CompileForwards(c, spec, true) == Success((main, ls)) && DigestsSeparate(c, spec) && TextsTell(c, spec)
    requires i <= |spec.customLocations| && Generated(c, ForwardAt(spec, i)).Some?
    ensures OwnBlock(c, spec, main, i)
  {
    hide Generated, HashText, UpstreamName, CompileForwards, DigestsSeparate, LastOfName;
    ClosedReferences(c, spec, main, ls, i);
    var u := Generated(c, ForwardAt(spec, i)).value;
    var j :| && i <= j <= |ls|
             && Generated(c, ForwardAt(spec, j)).Some?
             && Generated(c, ForwardAt(spec, j)).value.name == u.name
             && (main.upstreams[u.name] == u <==> Generated(c, ForwardAt(spec, j)) == Some(u));
    SameNameSameText(c, spec, i, j);
    GeneratedIsNamed(c, ForwardAt(spec, i));
    GeneratedIsNamed(c, ForwardAt(spec, j));
  }

  /** So it is whenever every generated list has one port and no `-` in its host names and keepalive agrees. */
  lemma NodeBlocksAreOwn(c: Context, spec: ProxyHostSpec, main: Compiled, ls: seq<Location>, i: nat)
    requires CompileForwards(c, spec, true) == Success((main, ls)) && DigestsSeparate(c, spec)
    requires forall j: nat :: j <= |spec.customLocations| && Generated(c, ForwardAt(spec, j)).Some? ==>
               && ForwardAt(spec, j).nginxKeepalive == spec.forward.nginxKeepalive
               && exists p :: SharedPort(TargetsOf(c, spec, j), p)
    requires i <= |spec.customLocations| && Generated(c, ForwardAt(spec, i)).Some?
    ensures OwnBlock(c, spec, main, i)
  {
    hide Generated, HashText, UpstreamName, CompileForwards, DigestsSeparate, SharedPort;
    forall j: nat, k: nat
      | Generate(c, spec, j, k) && HashText(TargetsOf(c, spec, j)) == HashText(TargetsOf(c, spec, k))
      ensures TargetsOf(c, spec, j) == TargetsOf(c, spec, k)
    {
      var p :| SharedPort(TargetsOf(c, spec, j), p);
      var q :| SharedPort(TargetsOf(c, spec, k), q);
      HashTextInjective(TargetsOf(c, spec, j), p, TargetsOf(c, spec, k), q);
    }
    TellingBlockIsOwn(c, spec, main, ls, i);
  }

  // ---------------------------------------------------------------- support

  lemma NameIsNotEmpty(c: Context, f: ForwardSpec, t: Target)
    requires Resolve(c, f) == Success(t) && t.upstream.Some?
    ensures t.upstream.value.name != ""
  {
    hide HashText, HostIps, ChosenPort, Backing;
    GeneratedIsNamed(c, f);
  }

  /** A forward whose plain host is empty compiles only with support for upstream blocks. */
  ghost predicate Addressed(c: Context, spec: ProxyHostSpec) {
    forall i :: 0 <= i <= |spec.customLocations| && Resolve(c, ForwardAt(spec, i)).Success? ==>
      var t := Resolve(c, ForwardAt(spec, i)).value;
      t.checked ==> t.plainHost != ""
  }

  /** A spec compiles exactly when each of its forwards resolves to a usable target. */
  lemma CompilesExactly(c: Context, spec: ProxyHostSpec, supported: bool)
    ensures CompileForwards(c, spec, supported).Success? <==>
            forall i :: 0 <= i <= |spec.customLocations| ==>
              Resolve(c, ForwardAt(spec, i)).Success? && Usable(Resolve(c, ForwardAt(spec, i)).value, supported)
  {
    hide Resolve, Usable, AssignVariable, Absorb, CompileLocations;
    assert ForwardAt(spec, 0) == spec.forward;
    assert spec.customLocations[..|spec.customLocations|] == spec.customLocations;
    if CompileMain(c, spec.forward, supported).Success? {
      LocationsCompileExactly(c, spec, supported, CompileMain(c, spec.forward, supported).value,
                              |spec.customLocations|);
    }
  }

  lemma {:induction false} LocationsCompileExactly(c: Context, spec: ProxyHostSpec, supported: bool, main: Compiled,
                                                   n: nat)
    requires n <= |spec.customLocations|
    ensures CompileLocations(c, spec.customLocations[..n], supported, main).Success? <==>
            forall i :: 1 <= i <= n ==>
              Resolve(c, ForwardAt(spec, i)).Success? && Usable(Resolve(c, ForwardAt(spec, i)).value, supported)
  {
    hide Resolve, Usable, Absorb, CompiledLocation;
    if n > 0 {
      assert spec.customLocations[..n][..n - 1] == spec.customLocations[..n - 1];
      assert ForwardAt(spec, n) == spec.customLocations[..n][n - 1].forward;
      LocationsCompileExactly(c, spec, supported, main, n - 1);
    }
  }

  /** What compiles without support also compiles with it, and the other way round exactly when
      every service gives an address by itself. */
  lemma SupportOnlyHelps(c: Context, spec: ProxyHostSpec)
    ensures CompileForwards(c, spec, false).Success?
            <==> CompileForwards(c, spec, true).Success? && Addressed(c, spec)
  {
    hide Resolve, CompileForwards;
    CompilesExactly(c, spec, false);
    CompilesExactly(c, spec, true);
    forall i | 0 <= i <= |spec.customLocations| && Resolve(c, ForwardAt(spec, i)).Success?
      ensures var t := Resolve(c, ForwardAt(spec, i)).value;
              Usable(t, false) <==> Usable(t, true) && (t.checked ==> t.plainHost != "")
    {
      var t := Resolve(c, ForwardAt(spec, i)).value;
      if t.upstream.Some? {
        NameIsNotEmpty(c, ForwardAt(spec, i), t);
      }
    }
  }

  // ---------------------------------------------------------------- what a body serves

  /** The name or address under which a forward reaches its target. */
  function Reached(c: Context, f: ForwardSpec, supported: bool): string {
    match Resolve(c, f)
    case Failure => ""
    case Success(t) => if supported && t.upstream.Some? then t.upstream.value.name else t.plainHost
  }

  /** A location of a body does what a custom location of the spec asks for. */
  predicate LocationServes(c: Context, l: CustomLocation, supported: bool, loc: Location) {
    && loc.path == l.locationPath && loc.advancedConfig == l.forward.advancedConfig
    && loc.forwardScheme == l.forward.scheme
    && loc.forwardHost == Reached(c, l.forward, supported) + (if l.forward.path == "" then "/" else l.forward.path)
    && Resolve(c, l.forward).Success? && loc.forwardPort == Resolve(c, l.forward).value.port
  }

  /** The line that assigns a variable, whether or not its name is given with the dollar sign. */
  function VariableLine(variable: string, value: string): string {
    if variable == "" then ""
    else "set " + (if variable[0] == '$' then "" else "$") + variable + " \"" + value + "\";\n"
  }

  lemma AssignedLine(variable: string, value: string, config: string)
    ensures AssignVariable(variable, value, config) == VariableLine(variable, value) + config
  {
    if variable != "" {
      assert "$" <= variable <==> variable[0] == '$';
      SetLine("set ", variable, " \"", value, "\";", "\n", config);
      SetLine("set ", "$" + variable, " \"", value, "\";", "\n", config);
      assert "\";" + "\n" == "\";\n";
    }
  }

  lemma SetLine(a: string, b: string, c: string, d: string, e: string, f: string, config: string)
    ensures a + b + c + d + e + f + config == a + b + c + d + (e + f) + config
    ensures a + "" + b == a + b
  {
  }

  /** The lines of the first n forwards, the last one first. */
  function VariableLines(c: Context, spec: ProxyHostSpec, supported: bool, n: nat): string
    requires n <= |spec.customLocations| + 1
  {
    if n == 0 then ""
    else
      var f := ForwardAt(spec, n - 1);
      VariableLine(f.nginxVariable, Reached(c, f, supported)) + VariableLines(c, spec, supported, n - 1)
  }

  /** A body serves its spec: the main target, each location, and the configuration text behind the variables. */
  predicate BodyServes(c: Context, spec: ProxyHostSpec, supported: bool, scheme: string, host: string, port: int,
                       config: string, ls: seq<Location>)
  {
    && scheme == spec.forward.scheme && host == Reached(c, spec.forward, supported)
    && Resolve(c, spec.forward).Success? && port == Resolve(c, spec.forward).value.port
    && config == VariableLines(c, spec, supported, |spec.customLocations| + 1) + spec.forward.advancedConfig
    && |ls| == |spec.customLocations|
    && forall i :: 0 <= i < |ls| ==> LocationServes(c, spec.customLocations[i], supported, ls[i])
  }

  lemma {:induction false} LocationsServe(c: Context, spec: ProxyHostSpec, supported: bool, main: Compiled, n: nat)
    requires n <= |spec.customLocations| && CompileMain(c, spec.forward, supported) == Success(main)
    requires CompileLocations(c, spec.customLocations[..n], supported, main).Success?
    ensures var p := CompileLocations(c, spec.customLocations[..n], supported, main).value;
            && p.0.scheme == main.scheme && p.0.host == main.host && p.0.port == main.port && |p.1| == n
            && (forall i :: 0 <= i < n ==> LocationServes(c, spec.customLocations[i], supported, p.1[i]))
            && p.0.advancedConfig == VariableLines(c, spec, supported, n + 1) + spec.forward.advancedConfig
  {
    hide Resolve, CompileMain, Absorb, Usable, LocationServes, CompiledLocation, VariableLines, Reached;
    if n == 0 {
      MainServes(c, spec, supported, main);
      assert spec.customLocations[..0] == [];
    } else {
      var ls := spec.customLocations[..n];
      assert ls[..n - 1] == spec.customLocations[..n - 1];
      LastLocation(c, ls, supported, main);
      LocationsServe(c, spec, supported, main, n - 1);
      hide CompileLocations;
      var l := spec.customLocations[n - 1];
      var t := Resolve(c, l.forward).value;
      var before := CompileLocations(c, spec.customLocations[..n - 1], supported, main).value;
      OneMoreLine(c, spec, supported, n, t, before.0);
      CompiledLocationServes(c, l, t, supported);
    }
  }

  lemma MainServes(c: Context, spec: ProxyHostSpec, supported: bool, main: Compiled)
    requires CompileMain(c, spec.forward, supported) == Success(main)
    ensures main.advancedConfig == VariableLines(c, spec, supported, 1) + spec.forward.advancedConfig
    ensures main.scheme == spec.forward.scheme && main.host == Reached(c, spec.forward, supported)
    ensures Resolve(c, spec.forward).Success? && main.port == Resolve(c, spec.forward).value.port
  {
    hide Resolve, AssignVariable, VariableLine;
    AssignedLine(spec.forward.nginxVariable, main.host, spec.forward.advancedConfig);
    var line := VariableLine(spec.forward.nginxVariable, main.host);
    assert ForwardAt(spec, 0) == spec.forward;
    assert VariableLines(c, spec, supported, 0) == "" && line + "" == line;
  }

  lemma OneMoreLine(c: Context, spec: ProxyHostSpec, supported: bool, n: nat, t: Target, before: Compiled)
    requires 1 <= n <= |spec.customLocations| && Resolve(c, ForwardAt(spec, n)) == Success(t)
    requires before.advancedConfig == VariableLines(c, spec, supported, n) + spec.forward.advancedConfig
    ensures var after := Absorb(before, ForwardAt(spec, n), t, supported);
            && after.scheme == before.scheme && after.host == before.host && after.port == before.port
            && after.advancedConfig == VariableLines(c, spec, supported, n + 1) + spec.forward.advancedConfig
  {
    hide Resolve, AssignVariable, VariableLine;
    AssignedLine(ForwardAt(spec, n).nginxVariable, TargetHost(t, supported), before.advancedConfig);
  }

  lemma CompiledLocationServes(c: Context, l: CustomLocation, t: Target, supported: bool)
    requires Resolve(c, l.forward) == Success(t)
    ensures LocationServes(c, l, supported, CompiledLocation(l, t, supported))
  {
    hide Resolve;
  }

  /** What compiles serves its spec, field by field. */
  lemma CompiledServes(c: Context, spec: ProxyHostSpec, supported: bool, main: Compiled, ls: seq<Location>)
    requires CompileForwards(c, spec, supported) == Success((main, ls))
    ensures BodyServes(c, spec, supported, main.scheme, main.host, main.port, main.advancedConfig, ls)
  {
    hide Resolve, CompileLocations, CompileMain, VariableLines, LocationServes, Reached;
    var first := CompileMain(c, spec.forward, supported).value;
    assert spec.customLocations[..|spec.customLocations|] == spec.customLocations;
    MainServes(c, spec, supported, first);
    LocationsServe(c, spec, supported, first, |spec.customLocations|);
  }

  // ---------------------------------------------------------------- the request body

  /** The input that createOrUpdateProxyHost assembles. */
  function BuildInput(spec: ProxyHostSpec, main: Compiled, locations: seq<Location>,
                      certificateId: Option<int>, accessListId: int,
                      unscoped: Option<string>): RequestInput {
    var ssl := if spec.ssl.Some? then spec.ssl.value else SslSpec(false, false, false, false);
    RequestInput(spec.domainNames, main.host, main.port, main.scheme, accessListId, certificateId,
                 ssl.sslForced, spec.cachingEnabled, spec.blockExploits, spec.websocketSupport,
                 ssl.http2Support, ssl.hstsEnabled, ssl.hstsSubdomains, main.advancedConfig, locations, unscoped)
  }

  /** What a pass resolves outside its own resource: cluster, certificate and access list. */
  datatype Surroundings = Surroundings(context: Context, certificate: Result<Option<int>>, accessList: Result<int>)

  function CertificateFor(s: Surroundings, spec: ProxyHostSpec): Result<Option<int>> {
    if spec.ssl.Some? then s.certificate else Success(None)
  }

  /** Everything a body needs resolves. */
  predicate Sendable(s: Surroundings, spec: ProxyHostSpec, supported: bool) {
    CompileForwards(s.context, spec, supported).Success? && CertificateFor(s, spec).Success? && s.accessList.Success?
  }

  /** `input` is a body for the spec, on a host that does or does not support upstream blocks. */
  ghost predicate IsBody(s: Surroundings, spec: ProxyHostSpec, supported: bool, input: RequestInput) {
    var r := CompileForwards(s.context, spec, supported);
    && Sendable(s, spec, supported)
    && (if supported then input.unscoped.Some? && IsMerge(input.unscoped.value, r.value.0.upstreams)
        else input.unscoped.None?)
    && input == BuildInput(spec, r.value.0, r.value.1, CertificateFor(s, spec).value, s.accessList.value,
                           input.unscoped)
  }
}
