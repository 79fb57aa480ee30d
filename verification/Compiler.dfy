/** The forward compiler as the controller runs it: objects written in place, loops over locations and blocks
    (internal/controller/proxyhost/proxy_forward.go, proxyhost_controller.go:590-629), against module Forward. */
module Compiler {
  import opened Text
  import opened Npm
  import opened Api
  import opened UpstreamText
  import opened Cluster
  import opened Forward

  class ProxyHostForward {
    var scheme: string
    var host: string
    var port: nat
    var advancedConfig: string
    var nginxUpstreamConfigs: map<string, string>

    constructor (scheme: string, host: string, port: nat, advancedConfig: string, configs: map<string, string>)
      ensures this.scheme == scheme && this.host == host && this.port == port
      ensures this.advancedConfig == advancedConfig && this.nginxUpstreamConfigs == configs
    {
      this.scheme, this.host, this.port := scheme, host, port;
      this.advancedConfig, this.nginxUpstreamConfigs := advancedConfig, configs;
    }

    /** The object holds what the specification says. */
    ghost predicate Shows(m: Compiled)
      reads this
    {
      scheme == m.scheme && host == m.host && port == m.port && advancedConfig == m.advancedConfig
      && nginxUpstreamConfigs == TextsOf(m.upstreams)
    }

    /** A location writes its variable and, if it has one, its block into the main forward. */
    method Receive(variable: string, value: string, name: string, config: string)
      modifies this
      ensures scheme == old(scheme) && host == old(host) && port == old(port)
      ensures advancedConfig == AssignVariable(variable, value, old(advancedConfig))
      ensures nginxUpstreamConfigs
              == if name == "" then old(nginxUpstreamConfigs) else old(nginxUpstreamConfigs)[name := config]
    {
      if name != "" {
        nginxUpstreamConfigs := nginxUpstreamConfigs[name := config];
      }
      advancedConfig := AssignVariable(variable, value, advancedConfig);
    }
  }

  // ---------------------------------------------------------------- one target

  /** Upstream hosts on one port, filled index by index. */
  method HostsOnPort(ips: seq<string>, port: nat) returns (hosts: seq<UpstreamHost>)
    ensures hosts == NodeHosts(ips, port)
  {
    hosts := [];
    for i := 0 to |ips|
      invariant hosts == NodeHosts(ips[..i], port)
    {
      hosts := hosts + [UpstreamHost(ips[i], port)];
      assert ips[..i + 1][..i] == ips[..i];
    }
    assert ips[..|ips|] == ips;
  }

  /** What a resolved target gives: plain host, port, and the name and text of a block, empty if there is none. */
  predicate Gives(t: Target, host: string, port: nat, name: string, config: string) {
    && host == t.plainHost && port == t.port
    && (match t.upstream
        case None => name == ""
        case Some(u) => name == u.name && name != "" && config == BlockText(u))
  }

  lemma PrefixedName(rName: string, rNamespace: string, hosts: seq<UpstreamHost>, digest: string -> string)
    ensures UpstreamName(rName, rNamespace, hosts, digest) != ""
  {
    hide HashText;
  }

  method ForwardWhenNodePortType(c: Context, f: ForwardSpec, ns: string, s: Service)
    returns (host: string, port: nat, name: string, config: string)
    requires f.service.Some?
    ensures Gives(NodePortTarget(c, f, ns, s), host, port, name, config)
    ensures port == 0 || f.service.value.port == Some(port) || exists p :: p in s.ports && p.nodePort == port
  {
    hide UpstreamName, BlockText, HostIps, Backing, ChosenPort;
    var pods := Backing(c.view.pods, ns, s.selector);
    host := s.clusterIP;
    port := ChoosePort(s, f.service.value, f.scheme, true);
    var ips := GetPodsHostIPs(pods, c.view.nodes);
    if |ips| > 0 {
      host := ips[0];
    }
    var hosts := HostsOnPort(ips, port);
    name, config := GenerateNginxUpstreamConfig(c.key.name, c.key.namespace, hosts, f.nginxKeepalive, c.digest);
    PrefixedName(c.key.name, c.key.namespace, hosts, c.digest);
  }

  /** Whatever cluster the service is in, a forward that leads to it resolves to exactly this address and port. */
  method ForwardWhenNotNodePortType(f: ForwardSpec, s: Service) returns (host: string, port: nat)
    requires f.service.Some?
    ensures s.serviceType == NodePort ==> host == "" && port == 0
    ensures s.serviceType != NodePort ==>
              && GoodChoice(s, f.service.value, f.scheme, false, port)
              && host == (if s.serviceType == LoadBalancer && s.ingress != [] then s.ingress[0] else s.clusterIP)
              && (port == 0 || f.service.value.port == Some(port) || exists p :: p in s.ports && p.port == port)
              && forall c: Context :: LeadsTo(c, f, s) ==> Resolve(c, f) == Success(Target(host, port, None, true))
  {
    if s.serviceType == NodePort {
      return "", 0;
    }
    host := s.clusterIP;
    if s.serviceType == LoadBalancer {
      if |s.ingress| > 0 {
        host := s.ingress[0];
      }
    }
    port := ChoosePort(s, f.service.value, f.scheme, false);
  }

  lemma ExplicitHosts(c: Context, f: ForwardSpec, name: string, config: string)
    requires |f.hosts| > 0
    requires name == UpstreamName(c.key.name, c.key.namespace, f.hosts, c.digest)
    requires config == BlockText(Upstream(name, f.nginxKeepalive, f.hosts))
    ensures Resolve(c, f).Success? && !Resolve(c, f).value.checked
    ensures Gives(Resolve(c, f).value, f.hosts[0].hostname, f.hosts[0].port, if |f.hosts| > 1 then name else "", config)
  {
    hide BlockText, UpstreamName;
    PrefixedName(c.key.name, c.key.namespace, f.hosts, c.digest);
  }

  /** makeForward. With `upstream` it compiles a custom location, which writes into the main forward;
      without, it compiles the main forward itself. Null is an error. */
  method MakeForward(c: Context, f: ForwardSpec, upstream: ProxyHostForward?, supported: bool)
    returns (r: ProxyHostForward?)
    modifies if upstream == null then {} else {upstream}
    ensures r != null <==> Resolve(c, f).Success? && Usable(Resolve(c, f).value, supported)
    ensures r != null ==> fresh(r)
    ensures r != null ==> var t := Resolve(c, f).value;
              && r.scheme == f.scheme && r.host == TargetHost(t, supported) && r.port == t.port
              && (upstream == null ==>
                    && r.advancedConfig == AssignVariable(f.nginxVariable, TargetHost(t, supported), f.advancedConfig)
                    && r.nginxUpstreamConfigs == TextsOf(Defines(t, supported)))
              && (upstream != null ==>
                    && upstream.scheme == old(upstream.scheme) && upstream.host == old(upstream.host)
                    && upstream.port == old(upstream.port)
                    && upstream.advancedConfig
                       == AssignVariable(f.nginxVariable, TargetHost(t, supported), old(upstream.advancedConfig))
                    && upstream.nginxUpstreamConfigs
                       == old(upstream.nginxUpstreamConfigs) + TextsOf(Defines(t, supported)))
  {
    hide AssignVariable, BlockText, UpstreamName, NodePortTarget, PlainServiceTarget;
    r := null;
    if |f.hosts| == 0 && f.service.None? {
      return;
    }
    var host, port, name, config := "", 0, "", "";
    if |f.hosts| == 0 {
      var k := ServiceKey(c, f.service.value);
      if k !in c.view.services {
        return;
      }
      var s := c.view.services[k];
      if s.serviceType == NodePort {
        host, port, name, config := ForwardWhenNodePortType(c, f, k.namespace, s);
      } else {
        host, port := ForwardWhenNotNodePortType(f, s);
        assert LeadsTo(c, f, s);
      }
      NotNodePort(f, s);
    } else {
      host, port := f.hosts[0].hostname, f.hosts[0].port;
      name, config := GenerateNginxUpstreamConfig(c.key.name, c.key.namespace, f.hosts, f.nginxKeepalive, c.digest);
      ExplicitHosts(c, f, name, config);
      if |f.hosts| == 1 {
        name := "";
      }
    }
    ghost var t := Resolve(c, f).value;
    assert Gives(t, host, port, name, config);
    hide Resolve;
    if !supported {
      name := "";
    }
    if name != "" {
      host := name;
    }
    BlockTextsOf(t, supported, name, config);
    var advancedConfig := f.advancedConfig;
    if upstream != null {
      upstream.Receive(f.nginxVariable, host, name, config);
    } else {
      advancedConfig := AssignVariable(f.nginxVariable, host, advancedConfig);
    }
    if |f.hosts| == 0 && (port == 0 || host == "") {
      CheckedIsService(c, f);
      return;
    }
    CheckedIsService(c, f);
    r := new ProxyHostForward(f.scheme, host, port, advancedConfig, if name != "" then map[name := config] else map[]);
  }

  lemma NotNodePort(f: ForwardSpec, s: Service)
    requires f.service.Some?
    ensures PlainServiceTarget(f, s).upstream == None
  {
  }

  lemma BlockTextsOf(t: Target, supported: bool, name: string, config: string)
    requires name == "" <==> !(supported && t.upstream.Some?)
    requires name != "" ==> name == t.upstream.value.name && config == BlockText(t.upstream.value)
    ensures TextsOf(Defines(t, supported)) == if name != "" then map[name := config] else map[]
  {
    hide BlockText;
  }

  lemma CheckedIsService(c: Context, f: ForwardSpec)
    requires Resolve(c, f).Success?
    ensures Resolve(c, f).value.checked <==> f.hosts == []
  {
    hide NamedUpstream, HostIps, ChosenPort, Backing;
  }

  // ---------------------------------------------------------------- all forwards of a spec

  lemma AbsorbShows(main: Compiled, f: ForwardSpec, t: Target, supported: bool)
    ensures var after := Absorb(main, f, t, supported);
            && after.scheme == main.scheme && after.host == main.host && after.port == main.port
            && after.advancedConfig == AssignVariable(f.nginxVariable, TargetHost(t, supported), main.advancedConfig)
            && TextsOf(after.upstreams) == TextsOf(main.upstreams) + TextsOf(Defines(t, supported))
  {
    hide AssignVariable, BlockText;
  }

  /** One more location. */
  lemma CompileOneMore(c: Context, ls: seq<CustomLocation>, i: nat, supported: bool, main: Compiled)
    requires i < |ls| && CompileLocations(c, ls[..i], supported, main).Success?
    ensures var before, f := CompileLocations(c, ls[..i], supported, main).value, ls[i].forward;
            var r := Resolve(c, f);
            CompileLocations(c, ls[..i + 1], supported, main)
            == if r.Success? && Usable(r.value, supported)
               then Success((Absorb(before.0, f, r.value, supported),
                             before.1 + [CompiledLocation(ls[i], r.value, supported)]))
               else Failure
  {
    hide Resolve, Usable, Absorb, CompiledLocation;
    assert ls[..i + 1][..i] == ls[..i];
  }

  lemma {:induction false} FailureStays(c: Context, ls: seq<CustomLocation>, i: nat, supported: bool, main: Compiled)
    requires i <= |ls| && CompileLocations(c, ls[..i], supported, main).Failure?
    ensures CompileLocations(c, ls, supported, main).Failure?
    decreases |ls|
  {
    hide Resolve, Usable, Absorb, CompiledLocation;
    if i < |ls| {
      assert ls[..|ls| - 1][..i] == ls[..i];
      FailureStays(c, ls[..|ls| - 1], i, supported, main);
    } else {
      assert ls[..i] == ls;
    }
  }

  /** constructCustomLocation: each location is compiled against the main forward it writes into. */
  method ConstructCustomLocation(c: Context, ls: seq<CustomLocation>, upstream: ProxyHostForward, supported: bool,
                                 ghost main: Compiled)
    returns (r: Result<seq<Location>>)
    requires upstream.Shows(main)
    modifies upstream
    ensures r.Success? <==> CompileLocations(c, ls, supported, main).Success?
    ensures r.Success? ==> upstream.Shows(CompileLocations(c, ls, supported, main).value.0)
                           && r.value == CompileLocations(c, ls, supported, main).value.1
  {
    hide Resolve, Usable, AssignVariable, Absorb, TextsOf, TargetHost, Defines;
    var locations := [];
    ghost var current := main;
    for i := 0 to |ls|
      invariant CompileLocations(c, ls[..i], supported, main) == Success((current, locations))
      invariant upstream.Shows(current)
    {
      CompileOneMore(c, ls, i, supported, main);
      var l := ls[i];
      var forward := MakeForward(c, l.forward, upstream, supported);
      if forward == null {
        FailureStays(c, ls, i + 1, supported, main);
        return Failure;
      }
      var path := l.forward.path;
      if path == "" {
        path := "/";
      }
      locations := locations
        + [Location(l.locationPath, l.forward.advancedConfig, forward.scheme, forward.host + path, forward.port)];
      ghost var t := Resolve(c, l.forward).value;
      AbsorbShows(current, l.forward, t, supported);
      current := Absorb(current, l.forward, t, supported);
    }
    assert ls[..|ls|] == ls;
    return Success(locations);
  }

  /** mergeNginxUpstreamConfigs: the texts in whatever order the map gives its keys. */
  method MergeNginxUpstreamConfigs(configs: map<string, string>, ghost us: map<string, Upstream>) returns (text: string)
    requires configs == TextsOf(us)
    ensures IsMerge(text, us)
  {
    hide BlockText;
    var values: seq<string> := [];
    ghost var order: seq<string> := [];
    var left := configs.Keys;
    while left != {}
      invariant left <= configs.Keys && Lists(order, configs.Keys - left)
      invariant values == ValuesIn(order, configs)
      decreases |left|
    {
      var k :| k in left;
      left := left - {k};
      order, values := order + [k], values + [configs[k]];
    }
    assert configs.Keys - left == us.Keys;
    text := Join(values, "\n");
  }
}
