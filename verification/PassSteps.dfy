/** The pieces a pass is made of: its loops, its request body, and what its steps do to the two stores
    (internal/controller/proxyhost/proxyhost_controller.go, pkg/nginxpm/proxy_host.go). */
module PassSteps {
  import opened Text
  import opened Npm
  import opened Api
  import opened UpstreamText
  import opened Lifecycle
  import opened Forward
  import opened Compiler
  import opened Convergence
  import opened Restoration
  import opened StatusWrites

  // ---------------------------------------------------------------- remote writes, as steps of the pass

  /** What a PUT is sent for: the located host, its custom fields after a creation, or its snapshot. */
  datatype Purpose = ForTarget | ForCustomFields | ForSnapshot

  function PutStep(purpose: Purpose, input: RequestInput, reply: Reply): Action {
    match purpose
    case ForTarget => PutTarget(input, reply)
    case ForCustomFields => PutCustomFields(input, reply)
    case ForSnapshot => Lifecycle.Restore(reply)
  }

  predicate MayPut(p: Pass, purpose: Purpose, id: nat, input: RequestInput) {
    match purpose
    case ForTarget => p.stage.Located? && p.stage.target.Some? && p.stage.target.value.id == id
                      && input.domainNames == p.stage.plan.domains
    case ForCustomFields => p.stage.Written? && p.stage.id == id && input.domainNames == p.stage.plan.domains
    case ForSnapshot => Cleaning(p) && p.ph.status.id == Some(id) && ShouldRestoreInitialConfig(p.ph.status)
                        && input == Npm.Restoration(p.ph.status.snapshot.value)
  }

  function AfterPut(p: Pass, purpose: Purpose, id: nat, input: RequestInput, reply: Reply, online: bool): Stage
    requires MayPut(p, purpose, id, input)
  {
    match purpose
    case ForTarget => if reply.Ok? then Written(p.stage.plan, id, input.certificateId, online) else Finished
    case ForCustomFields => p.stage
    case ForSnapshot => Restored
  }

  lemma Putting(w: World, purpose: Purpose, id: nat, input: RequestInput, reply: Reply)
    requires w.pass.Some? && MayPut(w.pass.value, purpose, id, input) && (Took(reply) ==> id in w.remote)
    ensures Can(w, PutStep(purpose, input, reply))
    ensures var w', p := Next(w, PutStep(purpose, input, reply)), w.pass.value;
            && w'.kube == w.kube && w'.clock == w.clock && w'.nextId == w.nextId && w'.supported == w.supported
            && w'.remote == (if Took(reply) then w.remote[id := Put(w.remote[id], input)] else w.remote)
            && w'.pass == Some(p.(
                 stage := AfterPut(p, purpose, id, input, reply, id in w.remote && w.remote[id].online)))
  {
    hide WriteHost, WriteBack, Npm.Restoration;
    if id in w.remote {
      WriteHostFrame(w, id, Put(w.remote[id], input));
      forall c { WriteBackFrame(w, w.pass.value.key, id, Put(w.remote[id], input), c); }
      assert Put(w.remote[id], input).online == w.remote[id].online;
      hide Put;
    }
  }

  function EnableStep(cleaning: bool, reply: Reply): Action {
    if cleaning then Reenable(reply) else EnableTarget(reply)
  }

  predicate MayEnable(p: Pass, cleaning: bool, id: nat) {
    if cleaning then p.stage.Restored? && p.ph.status.id == Some(id)
                     && p.ph.status.snapshot.Some? && p.ph.status.snapshot.value.enabled
    else p.stage.Located? && p.stage.target.Some? && p.stage.target.value.id == id && !p.stage.target.value.host.enabled
  }

  lemma Enabling(w: World, cleaning: bool, id: nat, reply: Reply)
    requires w.pass.Some? && MayEnable(w.pass.value, cleaning, id) && (Took(reply) ==> id in w.remote)
    ensures Can(w, EnableStep(cleaning, reply))
    ensures var w', p := Next(w, EnableStep(cleaning, reply)), w.pass.value;
            && w'.kube == w.kube && w'.clock == w.clock && w'.nextId == w.nextId && w'.supported == w.supported
            && w'.remote == (if Took(reply) then w.remote[id := w.remote[id].(enabled := true)] else w.remote)
            && w'.pass == Some(if cleaning then p.(stage := Releasing(CleanupAttempted, None)) else p)
  {
    hide WriteHost, WriteBack;
    if id in w.remote {
      WriteHostFrame(w, id, w.remote[id].(enabled := true));
      forall c { WriteBackFrame(w, w.pass.value.key, id, w.remote[id].(enabled := true), c); }
    }
  }

  lemma Creating(w: World, input: RequestInput, reply: Reply)
    requires w.pass.Some? && w.pass.value.stage.Located? && w.pass.value.stage.target.None?
    requires input.domainNames == w.pass.value.stage.plan.domains
    ensures Can(w, PostNew(input, reply))
    ensures var w', p := Next(w, PostNew(input, reply)), w.pass.value;
            && w'.kube == w.kube && w'.clock == w.clock && w'.supported == w.supported
            && w'.remote == (if Took(reply) then w.remote[w.nextId := Post(input, w.supported)] else w.remote)
            && w'.nextId == (if Took(reply) then w.nextId + 1 else w.nextId)
            && w'.pass == Some(p.(stage := if reply.Ok? then Written(p.stage.plan, w.nextId, input.certificateId, true)
                                           else Finished))
  {
    hide Post;
  }

  lemma Deleting(w: World, id: nat, reply: Reply)
    requires w.pass.Some? && var p := w.pass.value; Cleaning(p) && p.ph.status.id == Some(id) && !p.ph.status.bound
    requires Took(reply) ==> id in w.remote
    ensures Can(w, DeleteHost(reply))
    ensures var w', p := Next(w, DeleteHost(reply)), w.pass.value;
            && w'.kube == w.kube && w'.clock == w.clock && w'.nextId == w.nextId && w'.supported == w.supported
            && w'.remote == (if Took(reply) then w.remote - {id} else w.remote)
            && w'.pass == Some(p.(stage := Releasing(CleanupAttempted, None)))
  {
  }

  /** One of the host's names contains the query. */
  predicate Answers(h: Host, query: string) {
    exists d :: d in h.domainNames && Contains(d, query)
  }

  /** `hosts` lists hosts of `remote`: all of them, or for a query at least those that answer it. */
  ghost predicate Listed(hosts: seq<Found>, remote: map<nat, Host>, query: Option<string>) {
    && (forall f :: f in hosts ==> f.id in remote && remote[f.id] == f.host)
    && (forall i :: i in remote && (query.Some? ==> Answers(remote[i], query.value)) ==> Found(i, remote[i]) in hosts)
  }

  /** The hosts in whatever order the server gives them; it may keep more than what answers a query. */
  method Listing(remote: map<nat, Host>, query: Option<string>) returns (hosts: seq<Found>)
    ensures Listed(hosts, remote, query)
  {
    hide Answers;
    hosts := [];
    var left := remote.Keys;
    while left != {}
      invariant left <= remote.Keys
      invariant forall f :: f in hosts ==> f.id in remote && remote[f.id] == f.host
      invariant forall i :: i in remote && i !in left && (query.Some? ==> Answers(remote[i], query.value))
                  ==> Found(i, remote[i]) in hosts
      decreases |left|
    {
      var i :| i in left;
      left := left - {i};
      var more: bool := *;
      if query.None? || Answers(remote[i], query.value) || more {
        hosts := hosts + [Found(i, remote[i])];
      }
    }
  }

  /** The query for the first domain loses no host that matches all of them. */
  lemma MatchAnswersQuery(h: Host, domains: seq<string>)
    requires domains != [] && DomainsMatch(h.domainNames, domains)
    ensures Answers(h, domains[0])
  {
    assert domains[0] in domains;
    assert domains[0][0..] == domains[0];
    assert StartsAt(domains[0], 0, domains[0]);
  }

  method FirstWithId(hosts: seq<Found>, id: nat) returns (r: Option<Found>)
    ensures r.Some? ==> r.value in hosts && r.value.id == id
    ensures r.None? ==> forall f :: f in hosts ==> f.id != id
  {
    for i := 0 to |hosts|
      invariant forall f :: f in hosts[..i] ==> f.id != id
    {
      if hosts[i].id == id {
        return Some(hosts[i]);
      }
    }
    assert hosts[..|hosts|] == hosts;
    return None;
  }

  /** The loop of FindProxyHostByDomain. */
  method FirstWithDomains(hosts: seq<Found>, domains: seq<string>) returns (r: Option<Found>)
    ensures r.Some? ==> r.value in hosts && DomainsMatch(r.value.host.domainNames, domains)
    ensures r.None? ==> forall f :: f in hosts ==> !DomainsMatch(f.host.domainNames, domains)
  {
    hide DomainsMatch;
    for i := 0 to |hosts|
      invariant forall f :: f in hosts[..i] ==> !DomainsMatch(f.host.domainNames, domains)
    {
      var matched := DomainsMatchLoop(hosts[i].host.domainNames, domains);
      if !matched {
        continue;
      }
      return Some(hosts[i]);
    }
    assert hosts[..|hosts|] == hosts;
    return None;
  }

  // ---------------------------------------------------------------- the request body

  /** Everything createOrUpdateProxyHost resolves before it sends a request. */
  method BuildBody(around: Surroundings, spec: ProxyHostSpec, supported: bool)
    returns (r: Result<RequestInput>, configs: map<string, string>)
    ensures r.Success? <==> Sendable(around, spec, supported)
    ensures r.Success? ==> IsBody(around, spec, supported, r.value)
    ensures r.Success? ==> forall h: Host :: Configured(around, spec, supported, Put(h.(enabled := true), r.value))
    ensures r.Success? ==> configs == TextsOf(CompileForwards(around.context, spec, supported).value.0.upstreams)
  {
    hide Resolve, Usable, AssignVariable, IsMerge, BlockText, CompileLocations, TargetHost, Defines, Configured, Put;
    configs := map[];
    var forward := MakeForward(around.context, spec.forward, null, supported);
    if forward == null {
      return Failure, configs;
    }
    ghost var main := CompileMain(around.context, spec.forward, supported).value;
    assert forward.Shows(main);
    var certificateId := None;
    if spec.ssl.Some? {
      if around.certificate.Failure? {
        return Failure, configs;
      }
      certificateId := around.certificate.value;
    }
    if around.accessList.Failure? {
      return Failure, configs;
    }
    var locations := ConstructCustomLocation(around.context, spec.customLocations, forward, supported, main);
    if locations.Failure? {
      return Failure, configs;
    }
    configs := forward.nginxUpstreamConfigs;
    var text := MergeNginxUpstreamConfigs(configs, CompileForwards(around.context, spec, supported).value.0.upstreams);
    var input := RequestInput(
      spec.domainNames, forward.host, forward.port, forward.scheme, around.accessList.value, certificateId,
      false, spec.cachingEnabled, spec.blockExploits, spec.websocketSupport, false, false, false,
      forward.advancedConfig, locations.value, if supported then Some(text) else None);
    if spec.ssl.Some? {
      var ssl := spec.ssl.value;
      input := input.(sslForced := ssl.sslForced, http2Support := ssl.http2Support,
                      hstsEnabled := ssl.hstsEnabled, hstsSubdomains := ssl.hstsSubdomains);
    }
    r := Success(input);
    assert IsBody(around, spec, supported, input);
    forall h: Host ensures Configured(around, spec, supported, Put(h.(enabled := true), input)) {
      BodyConfigures(around, spec, supported, input, h);
    }
  }

  /** JsonFieldExists for the one custom field. */
  predicate Supports(target: Option<Found>) {
    target.Some? && target.value.host.unscoped.Some?
  }

  lemma BodyShape(around: Surroundings, spec: ProxyHostSpec, supported: bool, input: RequestInput)
    requires IsBody(around, spec, supported, input)
    ensures input.domainNames == spec.domainNames && (input.unscoped.Some? <==> supported)
  {
    hide CompileForwards, IsMerge;
  }

  /** The certificate is the resolved one, and there is none without an ssl part. */
  predicate CertificateIs(around: Surroundings, spec: ProxyHostSpec, certificateId: Option<int>) {
    if spec.ssl.Some? then around.certificate == Success(certificateId) else certificateId == None
  }

  lemma BodyCertificate(around: Surroundings, spec: ProxyHostSpec, supported: bool, input: RequestInput)
    requires IsBody(around, spec, supported, input)
    ensures CertificateIs(around, spec, input.certificateId)
  {
    hide CompileForwards, IsMerge;
  }

  /** The status names an existing host, says whether it is online and which certificate it was given. */
  predicate StatusTells(around: Surroundings, ph: Resource, remote: map<nat, Host>) {
    && ph.status.id.Some? && ph.status.id.value in remote
    && ph.status.online == remote[ph.status.id.value].online
    && CertificateIs(around, ph.spec, ph.status.certificateId)
  }

  lemma WritesKeepOnline(h: Host, input: RequestInput, supported: bool)
    ensures Npm.Put(h, input).online == h.online && Npm.Post(input, supported).online
  {
  }

  lemma PlainConfigs(around: Surroundings, spec: ProxyHostSpec, configs: map<string, string>)
    requires CompileForwards(around.context, spec, false).Success?
    requires configs == TextsOf(CompileForwards(around.context, spec, false).value.0.upstreams)
    ensures configs == map[]
  {
    var c := CompileForwards(around.context, spec, false).value;
    UnsupportedIsPlain(around.context, spec, c.0, c.1, 0);
  }

  /** The body, and what its shape says: the domains of the spec, and no blocks without support. */
  method PrepareBody(around: Surroundings, spec: ProxyHostSpec, supported: bool)
    returns (r: Result<RequestInput>, configs: map<string, string>)
    ensures r.Success? <==> Sendable(around, spec, supported)
    ensures r.Success? ==> IsBody(around, spec, supported, r.value) && r.value.domainNames == spec.domainNames
    ensures r.Success? && !supported ==> r.value.unscoped.None? && configs == map[]
  {
    hide CompileForwards, IsBody;
    r, configs := BuildBody(around, spec, supported);
    if r.Success? {
      BodyShape(around, spec, supported, r.value);
      if !supported {
        PlainConfigs(around, spec, configs);
      }
    }
  }

  /** What the pass keeps of its lookup: a host found by domain binds, and is captured unless a snapshot exists. */
  predicate Adopts(c: Claim, target: Option<Found>, bound: bool, captured: Option<InitialConfiguration>) {
    && bound == (c.bound || (c.id.None? && target.Some?))
    && captured == if c.id.Some? then c.snapshot
                   else if target.Some? && c.snapshot.None? then Some(Capture(target.value.host)) else None
  }

  /** The pieces of an undisturbed pass. */
  lemma PassedBy(around: Surroundings, supported: bool, s: Scene, s': Scene, target: Option<Found>, id: nat,
                 bound: bool, captured: Option<InitialConfiguration>, input: RequestInput)
    requires Locates(s, IdOf(target)) && IsBody(around, s.spec, Supports(target), input)
    requires target.Some? ==> id == target.value.id && id in s.remote && s.remote[id] == target.value.host
                              && s'.remote == s.remote[id := Put(target.value.host.(enabled := true), input)]
                              && s'.nextId == s.nextId
    requires target.None? ==>
              id == s.nextId && s'.remote == s.remote[id := Post(input, supported)] && s'.nextId == s.nextId + 1
    requires Adopts(s.claim, target, bound, captured)
    requires s'.spec == s.spec
    requires s'.claim == Claim(Some(id), bound, if captured.Some? then captured else s.claim.snapshot)
    ensures Passed(around, supported, s, s')
  {
    hide Put, Post, IsBody, Capture, Matches;
    assert Sends(around, supported, s, s', IdOf(target), input);
  }

  lemma StuckOn(around: Surroundings, s: Scene, target: Option<Found>)
    requires Locates(s, IdOf(target)) && !Sendable(around, s.spec, Supports(target))
    requires target.Some? ==> target.value.id in s.remote && s.remote[target.value.id] == target.value.host
    ensures Stuck(around, s)
  {
    hide Sendable, Locates;
  }

  function IdOf(target: Option<Found>): Option<nat> {
    if target.Some? then Some(target.value.id) else None
  }

  method Adopt(ghost remote: map<nat, Host>, ph: Resource, target: Option<Found>)
    returns (bound: bool, captured: Option<InitialConfiguration>)
    requires CanLocate(remote, ph, IdOf(target))
    ensures Adopts(ClaimOf(ph.status), target, bound, captured)
  {
    hide Capture, CanLocate;
    bound, captured := ph.status.bound, None;
    if ph.status.id.Some? {
      captured := ph.status.snapshot;
    } else if target.Some? {
      bound := true;
      BoundByChoice(remote, ph, IdOf(target));
      if ShouldCaptureInitialConfig(ph) {
        var c := CaptureInitialConfiguration(target.value.host);
        captured := Some(c);
      }
    }
  }

  /** The step of a lookup. */
  lemma Locating(w: World, target: Option<Found>, bound: bool, captured: Option<InitialConfiguration>)
    requires w.pass.Some? && w.pass.value.stage.Unique? && CanLocate(w.remote, w.pass.value.ph, IdOf(target))
    requires target.Some? ==> target.value.id in w.remote && w.remote[target.value.id] == target.value.host
    requires Adopts(ClaimOf(w.pass.value.ph.status), target, bound, captured)
    ensures Can(w, Locate(IdOf(target)))
    ensures var w', p := Next(w, Locate(IdOf(target))), w.pass.value;
            && w'.kube == w.kube && w'.clock == w.clock && w'.remote == w.remote && w'.nextId == w.nextId
            && w'.supported == w.supported
            && w'.pass.Some? && w'.pass.value.stage.Located?
            && w'.pass == Some(p.(stage := Located(Plan(p.ph.spec.domainNames, bound, captured,
                                                        w'.pass.value.stage.plan.touched), target)))
  {
    hide Capture, CanLocate;
    if target.Some? && w.pass.value.ph.status.id.None? {
      BoundByChoice(w.remote, w.pass.value.ph, IdOf(target));
    }
  }

  lemma MutatedStatus(m: Mutation, s: Status)
    requires m.RecordHost?
    ensures Mutate(m, s) == s.(id := Some(m.id), certificateId := m.certificateId, online := m.online, bound := m.bound,
                               snapshot := if m.captured.Some? then m.captured else s.snapshot)
  {
  }

  lemma BoundByChoice(remote: map<nat, Host>, ph: Resource, choice: Option<nat>)
    requires CanLocate(remote, ph, choice) && choice.Some? && ph.status.id.None?
    ensures ph.spec.bindExisting
  {
  }

  lemma EmptyMerge(text: string)
    requires IsMerge(text, map[])
    ensures text == ""
  {
  }

  lemma PutAgain(input: RequestInput, supported: bool)
    requires input.unscoped.None?
    ensures Put(Post(input, supported), input.(unscoped := if supported then Some("") else None))
            == Post(input, supported)
    ensures Post(input, supported).unscoped.Some? <==> supported
  {
  }

  /** How a live pass ends: the status is recorded, an error is reported, or the process panics. */
  datatype Work = Completed | Errored | Crashed

  // ---------------------------------------------------------------- finalizers

  lemma AddingFinalizer(w: World, reply: Reply)
    requires w.pass.Some? && w.pass.value.stage.Fetched? && !w.pass.value.ph.deleting
    requires !w.pass.value.ph.finalizer && (Took(reply) ==> Current(w, w.pass.value.key, w.pass.value.ph))
    ensures Can(w, AddFinalizer(reply))
    ensures var w', p := Next(w, AddFinalizer(reply)), w.pass.value;
            var r := p.ph.(finalizer := true, version := w.clock + 1);
            && w'.remote == w.remote && w'.nextId == w.nextId && w'.supported == w.supported
            && w'.kube == (if Took(reply) then w.kube[p.key := r] else w.kube)
            && w'.clock == (if Took(reply) then w.clock + 1 else w.clock)
            && w'.pass == (if reply.Ok? then Some(Pass(p.key, r, Guarded)) else None)
  {
  }

  lemma DroppingFinalizer(w: World, reply: Reply)
    requires w.pass.Some? && w.pass.value.stage.Releasing?
    requires w.pass.value.stage.latest.Some? && w.pass.value.stage.latest.value.finalizer
    requires Took(reply) ==> Current(w, w.pass.value.key, w.pass.value.stage.latest.value)
    ensures Can(w, DropFinalizer(reply))
    ensures var w' := Next(w, DropFinalizer(reply));
            && w'.remote == w.remote && w'.nextId == w.nextId && w'.supported == w.supported && w'.clock == w.clock
            && w'.kube == (if Took(reply) then w.kube - {w.pass.value.key} else w.kube)
            && w'.pass == None
  {
  }

  /** How the removal of the finalizer ends: the object is gone, or the read or the update failed. */
  datatype Removal = Gone | ReadFailed | UpdateFailed

  /** What an undisturbed clean-up does to the remote store: restore an adopted host, delete an own one. */
  function CleanedUp(remote: map<nat, Host>, s: Claim): map<nat, Host> {
    if s.id.None? || s.id.value !in remote then remote
    else
      var i := s.id.value;
      if s.snapshot.Some? then remote[i := GivenBack(remote[i], s.snapshot.value)] else remote - {i}
  }

  /** Host i has the configuration of the snapshot again and is enabled if it was; nothing else has changed. */
  predicate IsGivenBack(remote: map<nat, Host>, remote': map<nat, Host>, i: nat, c: InitialConfiguration)
    requires i in remote && i in remote'
  {
    && remote' - {i} == remote - {i}
    && HasConfiguration(remote'[i], c)
    && remote'[i].enabled == (c.enabled || remote[i].enabled) && remote'[i].unscoped == remote[i].unscoped
  }

  /** A clean-up takes an own host away, gives an adopted one back, and touches nothing else. */
  lemma CleanedUpMeans(remote: map<nat, Host>, s: Claim)
    requires (s.bound <==> s.snapshot.Some?) && (s.bound ==> s.id.Some?)
    ensures s.id.None? || s.id.value !in remote ==> CleanedUp(remote, s) == remote
    ensures s.id.Some? && !s.bound ==> CleanedUp(remote, s) == remote - {s.id.value}
    ensures s.bound && s.id.value in remote ==>
              && s.id.value in CleanedUp(remote, s)
              && IsGivenBack(remote, CleanedUp(remote, s), s.id.value, s.snapshot.value)
  {
    if s.id.Some? && s.id.value !in remote {
      assert remote - {s.id.value} == remote;
    }
    if s.bound && s.id.value in remote {
      GivenBackConfigures(remote[s.id.value], s.snapshot.value);
    }
    hide GivenBack, HasConfiguration;
  }

  lemma GivenBackConfigures(h: Host, c: InitialConfiguration)
    ensures HasConfiguration(GivenBack(h, c), c)
    ensures GivenBack(h, c).enabled == (c.enabled || h.enabled) && GivenBack(h, c).unscoped == h.unscoped
  {
  }

  /** A bound resource whose host vanished gets a new one but stays bound: deleting the resource writes the old
      snapshot over the new host and leaves it behind. */
  lemma RecreatedHostIsLeftBehind(around: Surroundings, supported: bool, s: Scene, s': Scene, input: RequestInput)
    requires Sends(around, supported, s, s', None, input) && s.claim.snapshot.Some?
    ensures s'.claim == s.claim.(id := Some(s.nextId)) && s.nextId in s'.remote
    ensures CleanedUp(s'.remote, s'.claim)
            == s'.remote[s.nextId := GivenBack(s'.remote[s.nextId], s.claim.snapshot.value)]
  {
    hide IsBody, Post, GivenBack;
  }

  lemma SetTwice(remote: map<nat, Host>, id: nat, h: Host, enabled: bool)
    ensures remote[id := h.(enabled := enabled || h.enabled)]
            == if enabled then remote[id := h][id := h.(enabled := true)] else remote[id := h]
  {
    assert h.(enabled := h.enabled) == h;
  }

  lemma RestoredIsGivenBack(remote: map<nat, Host>, id: nat, s: Claim)
    requires s.id == Some(id) && s.snapshot.Some?
    ensures var c := s.snapshot.value;
            id in remote ==>
              var put := remote[id := Npm.Put(remote[id], Npm.Restoration(c))];
              CleanedUp(remote, s) == if c.enabled then put[id := put[id].(enabled := true)] else put
  {
    if id in remote {
      hide Npm.Restoration, Npm.Put;
      PutKeepsEnabled(remote[id], Npm.Restoration(s.snapshot.value));
      SetTwice(remote, id, Npm.Put(remote[id], Npm.Restoration(s.snapshot.value)), s.snapshot.value.enabled);
    }
  }

  /** An adopted host that was enabled when it was captured. */
  predicate RestoresEnabled(s: Claim) {
    s.id.Some? && s.bound && s.snapshot.Some? && s.snapshot.value.enabled
  }

  // ---------------------------------------------------------------- domain check

  method Keys(kube: map<Key, Resource>) returns (keys: seq<Key>)
    ensures forall k :: k in keys <==> k in kube
  {
    keys := [];
    var left := kube.Keys;
    while left != {}
      invariant left <= kube.Keys
      invariant forall k :: k in keys <==> k in kube && k !in left
      decreases |left|
    {
      var k :| k in left;
      left := left - {k};
      keys := keys + [k];
    }
  }

  /** Is one of `domains` in `others`? */
  method Shares(domains: seq<string>, others: seq<string>) returns (shared: bool)
    ensures shared <==> !Disjoint(domains, others)
  {
    for i := 0 to |domains|
      invariant forall d :: d in domains[..i] ==> d !in others
    {
      if domains[i] in others {
        assert domains[i] in domains;
        return true;
      }
    }
    assert domains[..|domains|] == domains;
    return false;
  }

  lemma UniqueMeans(kube: map<Key, Resource>, key: Key, domains: seq<string>)
    ensures DomainsUnique(kube, key, domains)
            <==> forall k, d :: k in kube && k != key && d in domains ==> d !in kube[k].spec.domainNames
  {
  }

  /** The loops of domainsShouldBeUnique. */
  method Unclaimed(kube: map<Key, Resource>, key: Key, domains: seq<string>) returns (unique: bool)
    ensures unique <==> DomainsUnique(kube, key, domains)
    ensures unique <==> forall k, d :: k in kube && k != key && d in domains ==> d !in kube[k].spec.domainNames
  {
    UniqueMeans(kube, key, domains);
    hide Disjoint;
    var keys := Keys(kube);
    for i := 0 to |keys|
      invariant forall k :: k in keys[..i] && k != key ==> Disjoint(domains, kube[k].spec.domainNames)
    {
      assert keys[i] in keys;
      if keys[i] == key {
        continue;
      }
      var shared := Shares(domains, kube[keys[i]].spec.domainNames);
      if shared {
        return false;
      }
    }
    assert keys[..|keys|] == keys;
    return true;
  }

  /** How a pass ends. */
  datatype Outcome = Ignored | Requeued | Ready | Removed | Panicked

  /** The pass has its object in hand; from kube to kube' only bookkeeping of that object changed. */
  ghost predicate InHand(kube: map<Key, Resource>, kube': map<Key, Resource>, key: Key, ph: Resource) {
    && key in kube && kube' == kube[key := ph]
    && ph.spec == kube[key].spec && ph.deleting == kube[key].deleting
    && ph.status == kube[key].status.(conditions := ph.status.conditions)
  }

  lemma UniqueForOthers(kube: map<Key, Resource>, kube': map<Key, Resource>, key: Key, ph: Resource,
                        domains: seq<string>)
    requires key in kube && kube' == kube[key := ph]
    ensures DomainsUnique(kube', key, domains) <==> DomainsUnique(kube, key, domains)
  {
    hide Disjoint;
    assert forall k :: k in kube' && k != key ==> k in kube && kube[k] == kube'[k];
    assert forall k :: k in kube && k != key ==> k in kube' && kube'[k] == kube[k];
  }

  function SceneOf(r: Resource, remote: map<nat, Host>, nextId: nat): Scene {
    Scene(r.spec, ClaimOf(r.status), remote, nextId)
  }
}
