/** What one undisturbed successful pass does to a live resource and its host, and what repeating it does
    (internal/controller/proxyhost/proxyhost_controller.go:363-586). */
module Convergence {
  import opened Text
  import opened Npm
  import opened Api
  import opened UpstreamText
  import opened Forward

  /** What a pass sees and changes of the two stores. */
  datatype Scene = Scene(spec: ProxyHostSpec, claim: Claim, remote: map<nat, Host>, nextId: nat)

  predicate Matches(remote: map<nat, Host>, i: nat, spec: ProxyHostSpec) {
    i in remote && DomainsMatch(remote[i].domainNames, spec.domainNames)
  }

  /** The host an undisturbed lookup returns: the one with the recorded id; without an id and with
      binding on, one with the resource's domains. */
  ghost predicate Locates(s: Scene, target: Option<nat>) {
    match s.claim.id
    case Some(i) => target == if i in s.remote then Some(i) else None
    case None =>
      if s.spec.bindExisting && s.spec.domainNames != []
      then (match target
            case Some(i) => Matches(s.remote, i, s.spec)
            case None => forall i :: i in s.remote ==> !Matches(s.remote, i, s.spec))
      else target.None?
  }

  /** The body that is sent and the scene it leaves. */
  ghost predicate Sends(around: Surroundings, supported: bool, s: Scene, s': Scene, target: Option<nat>,
                        input: RequestInput) {
    && Locates(s, target)
    && s'.spec == s.spec
    && (match target
        case Some(i) =>
          && i in s.remote
          && IsBody(around, s.spec, s.remote[i].unscoped.Some?, input)
          && s'.remote == s.remote[i := Put(s.remote[i].(enabled := true), input)]
          && s'.nextId == s.nextId
          && s'.claim == (if s.claim.id.Some? then s.claim
                          else Claim(Some(i), true,
                                     if s.claim.snapshot.None? then Some(Capture(s.remote[i])) else s.claim.snapshot))
        case None =>
          && IsBody(around, s.spec, false, input)
          && s'.remote == s.remote[s.nextId := Post(input, supported)]
          && s'.nextId == s.nextId + 1
          && s'.claim == s.claim.(id := Some(s.nextId)))
  }

  /** A successful pass that nobody disturbed leads from s to s'. */
  ghost predicate Passed(around: Surroundings, supported: bool, s: Scene, s': Scene) {
    exists target, input :: Sends(around, supported, s, s', target, input)
  }

  /** Something the body needs does not resolve, for the host the lookup may return. */
  ghost predicate Stuck(around: Surroundings, s: Scene) {
    exists target: Option<nat> :: Locates(s, target)
      && !Sendable(around, s.spec, target.Some? && target.value in s.remote && s.remote[target.value].unscoped.Some?)
  }

  // ---------------------------------------------------------------- what a pass leaves, field by field

  /** The flags and the certificate that the ssl part asks for; without one there are none. */
  predicate Secured(around: Surroundings, spec: ProxyHostSpec, h: Host) {
    match spec.ssl
    case None => !h.sslForced && !h.http2Support && !h.hstsEnabled && !h.hstsSubdomains && h.certificateId == 0
    case Some(ssl) =>
      && h.sslForced == ssl.sslForced && h.http2Support == ssl.http2Support
      && h.hstsEnabled == ssl.hstsEnabled && h.hstsSubdomains == ssl.hstsSubdomains
      && around.certificate.Success?
      && h.certificateId == match around.certificate.value { case None => 0 case Some(id) => id }
  }

  /** The host is configured as the spec asks, reaching its targets through upstream blocks or not. */
  predicate Configured(around: Surroundings, spec: ProxyHostSpec, blocks: bool, h: Host) {
    && h.enabled && h.domainNames == spec.domainNames
    && h.cachingEnabled == spec.cachingEnabled && h.blockExploits == spec.blockExploits
    && h.allowWebsocketUpgrade == spec.websocketSupport
    && Secured(around, spec, h)
    && around.accessList.Success? && h.accessListId == around.accessList.value
    && BodyServes(around.context, spec, blocks, h.forwardScheme, h.forwardHost, h.forwardPort,
                  h.advancedConfig, h.locations)
  }

  lemma BodyConfigures(around: Surroundings, spec: ProxyHostSpec, blocks: bool, input: RequestInput, h: Host)
    requires IsBody(around, spec, blocks, input)
    ensures Configured(around, spec, blocks, Put(h.(enabled := true), input))
  {
    hide CompileForwards, IsMerge, BodyServes;
    var r := CompileForwards(around.context, spec, blocks).value;
    CompiledServes(around.context, spec, blocks, r.0, r.1);
  }

  lemma PostConfigures(around: Surroundings, spec: ProxyHostSpec, input: RequestInput, supported: bool)
    requires IsBody(around, spec, false, input)
    ensures Configured(around, spec, false, Post(input, supported))
  {
    hide IsBody, Configured, Put;
    BodySupport(around, spec, false, input);
    var empty := Host([], "", 0, "", 0, 0, false, false, false, false, false, false, false, "", [],
                      if supported then Some("") else None, true, true);
    BodyConfigures(around, spec, false, input, empty);
    assert input.(unscoped := None) == input && empty.(enabled := true) == empty;
  }

  /** The host that a pass leaves behind is configured as the spec asks: with upstream blocks exactly when the pass
      rewrote a host that supports them. Every other host is untouched. */
  lemma PassConfigures(around: Surroundings, supported: bool, s: Scene, s': Scene)
    requires Passed(around, supported, s, s') && s.nextId !in s.remote
    ensures s'.claim.id.Some? && s'.spec == s.spec
    ensures var i := s'.claim.id.value;
            && i in s'.remote && s'.remote - {i} == s.remote - {i}
            && Configured(around, s.spec, i in s.remote && s.remote[i].unscoped.Some?, s'.remote[i])
  {
    hide IsBody, Configured, Put, Post, Capture, Matches;
    var target, input :| Sends(around, supported, s, s', target, input);
    if target.Some? {
      BodyConfigures(around, s.spec, s.remote[target.value].unscoped.Some?, input, s.remote[target.value]);
    } else {
      PostConfigures(around, s.spec, input, supported);
    }
  }

  /** A host that a pass rewrote with blocks defines every name that its forwards use. */
  lemma PassDefinesNames(around: Surroundings, supported: bool, s: Scene, s': Scene, i: nat, k: nat)
    requires Passed(around, supported, s, s') && s'.claim.id == Some(i) && i in s.remote && s.nextId !in s.remote
    requires s.remote[i].unscoped.Some? && k <= |s.spec.customLocations|
    requires Generated(around.context, ForwardAt(s.spec, k)).Some?
    requires forall j :: 0 <= j <= |s.spec.customLocations| && Generated(around.context, ForwardAt(s.spec, j)).Some?
               ==> Wordlike(around.context, Generated(around.context, ForwardAt(s.spec, j)).value.hosts)
    ensures i in s'.remote && s'.remote[i].unscoped.Some?
    ensures var r := ParseUpstreams(s'.remote[i].unscoped.value);
            r.Some? && exists u :: u in r.value && u.name == Generated(around.context, ForwardAt(s.spec, k)).value.name
  {
    hide Passed, IsBody, Generated, Wordlike, ParseUpstreams;
    var input := PassRewrites(around, supported, s, s', i);
    BodyDefinesNames(around, s.spec, input, k);
  }

  lemma PassRewrites(around: Surroundings, supported: bool, s: Scene, s': Scene, i: nat) returns (input: RequestInput)
    requires Passed(around, supported, s, s') && s'.claim.id == Some(i) && i in s.remote && s.nextId !in s.remote
    requires s.remote[i].unscoped.Some?
    ensures IsBody(around, s.spec, true, input) && input.unscoped.Some?
    ensures i in s'.remote && s'.remote[i].unscoped == input.unscoped
  {
    hide IsBody, Post, Capture, Matches;
    var target, body :| Sends(around, supported, s, s', target, body);
    input := body;
    BodySupport(around, s.spec, true, input);
  }

  lemma BodyDefinesNames(around: Surroundings, spec: ProxyHostSpec, input: RequestInput, k: nat)
    requires IsBody(around, spec, true, input) && input.unscoped.Some?
    requires k <= |spec.customLocations| && Generated(around.context, ForwardAt(spec, k)).Some?
    requires forall j :: 0 <= j <= |spec.customLocations| && Generated(around.context, ForwardAt(spec, j)).Some?
               ==> Wordlike(around.context, Generated(around.context, ForwardAt(spec, j)).value.hosts)
    ensures var r := ParseUpstreams(input.unscoped.value);
            r.Some? && exists u :: u in r.value && u.name == Generated(around.context, ForwardAt(spec, k)).value.name
  {
    hide CompileForwards, IsMerge, Generated, Wordlike, ParseUpstreams, BuildInput;
    var r := CompileForwards(around.context, spec, true).value;
    ReferencesAreDefined(around.context, spec, r.0, r.1, input.unscoped.value, k);
  }

  // ---------------------------------------------------------------- which host a pass takes

  /** Host i has the domains of the spec: as many, and each of them. */
  predicate HasDomains(remote: map<nat, Host>, i: nat, spec: ProxyHostSpec) {
    i in remote && |remote[i].domainNames| == |spec.domainNames|
    && forall d :: d in spec.domainNames ==> d in remote[i].domainNames
  }

  /** A recorded host that exists is kept; otherwise only a resource that binds and has no id takes an existing host,
      one with its domains, and records its configuration if it has no snapshot yet; in all other cases the pass
      makes a new host. */
  lemma PassTakesHost(around: Surroundings, supported: bool, s: Scene, s': Scene)
    requires Passed(around, supported, s, s') && s.nextId !in s.remote
    ensures s.claim.id.Some? && s.claim.id.value in s.remote ==> s'.claim == s.claim && s'.nextId == s.nextId
    ensures var adopts := s.claim.id.None? && s.spec.bindExisting && s.spec.domainNames != []
                          && exists i :: HasDomains(s.remote, i, s.spec);
            && (adopts ==>
                  && s'.claim.id.Some? && HasDomains(s.remote, s'.claim.id.value, s.spec) && s'.nextId == s.nextId
                  && s'.claim.bound && s'.claim.snapshot.Some?
                  && (s.claim.snapshot.Some? ==> s'.claim.snapshot == s.claim.snapshot)
                  && (s.claim.snapshot.None? ==>
                        && HasConfiguration(s.remote[s'.claim.id.value], s'.claim.snapshot.value)
                        && s'.claim.snapshot.value.enabled == s.remote[s'.claim.id.value].enabled))
            && (!adopts && (s.claim.id.None? || s.claim.id.value !in s.remote) ==>
                  s'.claim == s.claim.(id := Some(s.nextId)) && s'.nextId == s.nextId + 1)
  {
    hide IsBody, Put, Post, HasConfiguration, Capture;
    var target, input :| Sends(around, supported, s, s', target, input);
    forall i ensures Matches(s.remote, i, s.spec) <==> HasDomains(s.remote, i, s.spec) {
    }
    forall h ensures HasConfiguration(h, Capture(h)) && Capture(h).enabled == h.enabled {
      CaptureTells(h);
    }
    hide Matches, HasDomains;
  }

  lemma CaptureTells(h: Host)
    ensures HasConfiguration(h, Capture(h)) && Capture(h).enabled == h.enabled
  {
  }

  // ---------------------------------------------------------------- one pass after another

  /** Equal up to the order of upstream blocks in the one text that a map was walked for. */
  ghost predicate SameText(a: Option<string>, b: Option<string>) {
    (a.None? && b.None?)
    || (a.Some? && b.Some? && exists us: map<string, Upstream> :: IsMerge(a.value, us) && IsMerge(b.value, us))
  }

  ghost predicate SameBody(a: RequestInput, b: RequestInput) {
    a == b.(unscoped := a.unscoped) && SameText(a.unscoped, b.unscoped)
  }

  ghost predicate SameHost(a: Host, b: Host) {
    a == b.(unscoped := a.unscoped) && SameText(a.unscoped, b.unscoped)
  }

  /** A body is determined by the spec, its surroundings and support, up to the order of blocks. */
  lemma BodyIsDetermined(around: Surroundings, spec: ProxyHostSpec, supported: bool, a: RequestInput, b: RequestInput)
    requires IsBody(around, spec, supported, a) && IsBody(around, spec, supported, b)
    ensures SameBody(a, b)
  {
    hide CompileForwards, IsMerge;
  }

  lemma BodySupport(around: Surroundings, spec: ProxyHostSpec, supported: bool, input: RequestInput)
    requires IsBody(around, spec, supported, input)
    ensures input.unscoped.Some? <==> supported
  {
    hide CompileForwards, IsMerge;
  }

  /** Writing a second body of the same kind changes at most the order of blocks. */
  lemma PutTwice(h: Host, a: RequestInput, b: RequestInput)
    requires SameBody(a, b) && (a.unscoped.Some? <==> h.unscoped.Some?)
    ensures var once := Put(h.(enabled := true), a);
            && (once.unscoped.Some? <==> h.unscoped.Some?)
            && SameHost(once, Put(once.(enabled := true), b))
  {
    hide IsMerge;
  }

  /** Between two passes the resource and its own host stay; anything else may change. */
  ghost predicate Undisturbed(s: Scene, s': Scene) {
    && s'.spec == s.spec && s'.claim == s.claim && s.claim.id.Some?
    && var i := s.claim.id.value; i in s.remote && i in s'.remote && s'.remote[i] == s.remote[i]
  }

  /** A pass leaves the resource with a host of its own. */
  lemma PassLeavesHost(around: Surroundings, supported: bool, s: Scene, s': Scene)
    requires Passed(around, supported, s, s')
    ensures s'.claim.id.Some? && s'.claim.id.value in s'.remote && s'.spec == s.spec
  {
    hide IsBody, Put, Post, Capture, Matches;
  }

  /** What a settled pass does: it rewrites its one host with the same configuration. */
  ghost predicate Steady(s: Scene, s': Scene) {
    && s'.spec == s.spec && s'.claim == s.claim && s'.nextId == s.nextId && s.claim.id.Some?
    && var i := s.claim.id.value;
       && i in s.remote && i in s'.remote
       && s'.remote - {i} == s.remote - {i}
       && SameHost(s.remote[i], s'.remote[i])
  }

  /** With a recorded host, a pass sends a body to that host and nothing else. */
  lemma PassOnOwnHost(around: Surroundings, supported: bool, s: Scene, s': Scene) returns (input: RequestInput)
    requires Passed(around, supported, s, s') && s.claim.id.Some? && s.claim.id.value in s.remote
    ensures Sends(around, supported, s, s', s.claim.id, input)
    ensures s'.claim == s.claim
  {
    hide IsBody, Put, Post, Capture;
    var target, body :| Sends(around, supported, s, s', target, body);
    input := body;
  }

  lemma SentHost(around: Surroundings, supported: bool, s: Scene, s': Scene, i: nat, input: RequestInput)
    requires Sends(around, supported, s, s', Some(i), input)
    ensures i in s.remote && IsBody(around, s.spec, s.remote[i].unscoped.Some?, input) && s'.claim.id == Some(i)
    ensures s'.remote == s.remote[i := Put(s.remote[i].(enabled := true), input)] && s'.nextId == s.nextId
    ensures s'.spec == s.spec
  {
    hide IsBody, Put, Capture;
    assert Locates(s, Some(i));
  }

  /** A pass that found a host is followed by steady passes that send the same body. */
  lemma NextPassIsSteady(around: Surroundings, supported: bool, s: Scene, s': Scene, t: Scene, t': Scene, i: nat,
                         a: RequestInput)
    requires Sends(around, supported, s, s', Some(i), a) && Undisturbed(s', t) && Passed(around, supported, t, t')
    ensures t.claim.id == Some(i) && Steady(t, t')
    ensures exists b :: Sends(around, supported, t, t', Some(i), b) && SameBody(a, b)
  {
    hide IsBody, Put, Post, Passed, Sends, SameBody, SameHost;
    SentHost(around, supported, s, s', i, a);
    BodySupport(around, s.spec, s.remote[i].unscoped.Some?, a);
    var b := PassOnOwnHost(around, supported, t, t');
    SentHost(around, supported, t, t', i, b);
    PutKeepsSupport(s.remote[i], a);
    BodyIsDetermined(around, s.spec, s.remote[i].unscoped.Some?, a, b);
    PutTwice(s.remote[i], a, b);
    assert t'.remote - {i} == t.remote - {i};
  }

  lemma PutKeepsSupport(h: Host, input: RequestInput)
    requires input.unscoped.Some? <==> h.unscoped.Some?
    ensures Put(h.(enabled := true), input).unscoped.Some? <==> h.unscoped.Some?
  {
  }

  /** Any number of undisturbed successful passes, with anything but this resource and its host changing in between. */
  ghost predicate Passes(around: Surroundings, supported: bool, before: seq<Scene>, after: seq<Scene>) {
    && |before| == |after|
    && (forall j :: 0 <= j < |before| ==> Passed(around, supported, before[j], after[j]))
    && (forall j :: 0 < j < |before| ==> Undisturbed(after[j - 1], before[j]))
  }

  /** From the third pass on, and from the second if the first found a host: no creation, the claim stays, the
      same body goes to the same host, and both stay as they are up to the order of upstream blocks. */
  lemma PassesConverge(around: Surroundings, supported: bool, before: seq<Scene>, after: seq<Scene>, j: nat)
    requires Passes(around, supported, before, after) && j < |before|
    requires j >= 2 || (j == 1 && exists i, input :: Sends(around, supported, before[0], after[0], Some(i), input))
    ensures Steady(before[j], after[j])
    ensures exists a, b :: Sends(around, supported, before[j - 1], after[j - 1], before[j].claim.id, a)
                           && Sends(around, supported, before[j], after[j], before[j].claim.id, b) && SameBody(a, b)
  {
    hide Passed, Sends, Steady, SameBody;
    var i: nat, a: RequestInput;
    if j >= 2 {
      PassLeavesHost(around, supported, before[j - 2], after[j - 2]);
      assert Undisturbed(after[j - 2], before[j - 1]);
      a := PassOnOwnHost(around, supported, before[j - 1], after[j - 1]);
      i := before[j - 1].claim.id.value;
    } else {
      i, a :| Sends(around, supported, before[0], after[0], Some(i), a);
    }
    NextPassIsSteady(around, supported, before[j - 1], after[j - 1], before[j], after[j], i, a);
  }

  // ---------------------------------------------------------------- the first pass

  /** A creation knows nothing about support yet: it sends no blocks and names only plain hosts. */
  lemma CreationIsPlain(around: Surroundings, supported: bool, s: Scene, s': Scene, input: RequestInput)
    requires Sends(around, supported, s, s', None, input)
    ensures input.unscoped == None
    ensures Resolve(around.context, s.spec.forward).Success?
    ensures input.forwardHost == Resolve(around.context, s.spec.forward).value.plainHost
  {
    hide Resolve, CompileLocations, IsMerge, Post;
    var r := CompileForwards(around.context, s.spec, false).value;
    UnsupportedIsPlain(around.context, s.spec, r.0, r.1, 0);
  }

  lemma OrderOf(keys: set<string>) returns (order: seq<string>)
    ensures Lists(order, keys)
  {
    order := [];
    var left := keys;
    while left != {}
      invariant left <= keys && Lists(order, keys - left)
      decreases |left|
    {
      var k :| k in left;
      left, order := left - {k}, order + [k];
    }
    assert keys - left == keys;
  }

  /** What could be sent without support can also be sent with it, so a created host keeps being served. */
  lemma CreationCanBeRepeated(around: Surroundings, spec: ProxyHostSpec, a: RequestInput) returns (b: RequestInput)
    requires IsBody(around, spec, false, a)
    ensures IsBody(around, spec, true, b)
  {
    hide CompileForwards, BlockText;
    SupportOnlyHelps(around.context, spec);
    var r := CompileForwards(around.context, spec, true).value;
    var order := OrderOf(r.0.upstreams.Keys);
    var text := Join(ValuesIn(order, TextsOf(r.0.upstreams)), "\n");
    b := BuildInput(spec, r.0, r.1, CertificateFor(around, spec).value, around.accessList.value, Some(text));
  }
}
