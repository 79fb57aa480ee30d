/** Two live ProxyHosts never own one host, as long as domain lists are duplicate-free and never edited
    and only the operator changes Nginx Proxy Manager (proxyhost_controller.go:322-406). */
module Ownership {
  import opened Text
  import opened Npm
  import opened Api
  import opened Lifecycle
  import opened Safety

  // ---------------------------------------------------------------- assumptions on the run

  /** Domain lists are created without duplicates and never edited. */
  predicate Settled(w: World, a: Action) {
    && (a.UserCreates? ==> NoDuplicates(a.spec.domainNames))
    && (a.UserEdits? && a.key in w.kube ==> a.spec.domainNames == w.kube[a.key].spec.domainNames)
    && !ByOutsider(a)
  }

  predicate SettledRun(w: World, run: seq<Action>)
    requires Legal(w, run)
    decreases |run|
  {
    run == [] || (Settled(w, run[0]) && SettledRun(Next(w, run[0]), run[1..]))
  }

  predicate SettledInit(w: World) {
    Init(w) && forall k :: k in w.kube ==> NoDuplicates(w.kube[k].spec.domainNames)
  }

  // ---------------------------------------------------------------- the invariant

  function Domains(r: Resource): set<string> {
    Elements(r.spec.domainNames)
  }

  predicate Serves(remote: map<nat, Host>, i: nat, domains: set<string>) {
    i in remote ==> Elements(remote[i].domainNames) == domains
  }

  /** A live resource owns its id alone, its host serves its domains, and so would the snapshot. */
  predicate OwnerOk(kube: map<Key, Resource>, remote: map<nat, Host>, k: Key)
    requires k in kube
  {
    var r := kube[k];
    && NoDuplicates(r.spec.domainNames)
    && (r.status.id.Some? ==> Serves(remote, r.status.id.value, Domains(r)))
    && (r.status.snapshot.Some? ==> Elements(r.status.snapshot.value.domainNames) == Domains(r))
  }

  predicate Apart(kube: map<Key, Resource>, k: Key, m: Key)
    requires k in kube && m in kube
  {
    k != m && kube[k].status.id.Some? && kube[m].status.id.Some?
    ==> kube[k].status.id != kube[m].status.id && Domains(kube[k]) !! Domains(kube[m])
  }

  /** No other resource holds `i`. */
  ghost predicate Free(kube: map<Key, Resource>, key: Key, i: nat) {
    forall m :: m in kube && m != key ==> kube[m].status.id != Some(i)
  }

  /** Every other resource that has an id serves other domains. */
  ghost predicate Alone(kube: map<Key, Resource>, key: Key, domains: set<string>) {
    forall m :: m in kube && m != key && kube[m].status.id.Some? ==> Domains(kube[m]) !! domains
  }

  ghost predicate TargetOk(w: World, p: Pass, plan: Plan, i: nat) {
    && Elements(plan.domains) == Domains(p.ph)
    && (plan.snapshot.Some? ==> Elements(plan.snapshot.value.domainNames) == Domains(p.ph))
    && Free(w.kube, p.key, i)
    && Serves(w.remote, i, Domains(p.ph))
  }

  ghost predicate PassApart(w: World, p: Pass) {
    && (p.ph.finalizer || !p.stage.Fetched? ==>
          p.key in w.kube && w.kube[p.key].spec.domainNames == p.ph.spec.domainNames)
    && (p.stage.Unique? || p.stage.Located? || p.stage.Written? ==> Alone(w.kube, p.key, Domains(p.ph)))
    && (match p.stage
        case Located(plan, Some(f)) => TargetOk(w, p, plan, f.id)
        case Located(plan, None) => Elements(plan.domains) == Domains(p.ph)
                                    && (plan.snapshot.Some? ==>
                                          Elements(plan.snapshot.value.domainNames) == Domains(p.ph))
        case Written(plan, id, _, _) => TargetOk(w, p, plan, id)
        case _ => true)
  }

  ghost predicate OwnersOk(kube: map<Key, Resource>, remote: map<nat, Host>) {
    && (forall k :: k in kube ==> OwnerOk(kube, remote, k))
    && (forall k, m :: k in kube && m in kube ==> Apart(kube, k, m))
  }

  ghost predicate OwnedParts(w: World) {
    OwnersOk(w.kube, w.remote) && (w.pass.Some? ==> PassApart(w, w.pass.value))
  }

  /** The comparison keeps the verifier from unfolding the invariant at every call. */
  ghost predicate Owned(w: World) {
    OwnedParts(w) == true
  }

  // ---------------------------------------------------------------- the two stores

  lemma StoreOwner(kube: map<Key, Resource>, remote: map<nat, Host>, key: Key, r: Resource)
    requires OwnersOk(kube, remote) && NoDuplicates(r.spec.domainNames)
    requires r.status.id.Some? ==> Serves(remote, r.status.id.value, Domains(r))
                                   && Free(kube, key, r.status.id.value) && Alone(kube, key, Domains(r))
    requires r.status.snapshot.Some? ==> Elements(r.status.snapshot.value.domainNames) == Domains(r)
    ensures OwnersOk(kube[key := r], remote)
  {
    hide Serves, Elements, NoDuplicates;
    var kube' := kube[key := r];
    forall k | k in kube' ensures OwnerOk(kube', remote, k) {
      if k != key { assert OwnerOk(kube, remote, k); }
    }
    forall k, m | k in kube' && m in kube' ensures Apart(kube', k, m) {
      if k != key && m != key { assert Apart(kube, k, m); }
    }
  }

  /** A live resource is free and alone with respect to the others. */
  lemma OwnerStandsAlone(kube: map<Key, Resource>, remote: map<nat, Host>, key: Key)
    requires OwnersOk(kube, remote) && key in kube && kube[key].status.id.Some?
    ensures Free(kube, key, kube[key].status.id.value) && Alone(kube, key, Domains(kube[key]))
    ensures Serves(remote, kube[key].status.id.value, Domains(kube[key]))
  {
    hide Serves, Elements, NoDuplicates;
    assert OwnerOk(kube, remote, key);
    forall m | m in kube && m != key && kube[m].status.id.Some?
      ensures kube[m].status.id != kube[key].status.id && Domains(kube[m]) !! Domains(kube[key])
    {
      assert Apart(kube, m, key);
    }
  }

  /** Storing a new version with the same domains and the same claim. */
  lemma StoreSameOwner(kube: map<Key, Resource>, remote: map<nat, Host>, key: Key, r: Resource)
    requires OwnersOk(kube, remote) && key in kube
    requires r.spec.domainNames == kube[key].spec.domainNames && ClaimOf(r.status) == ClaimOf(kube[key].status)
    ensures OwnersOk(kube[key := r], remote)
  {
    hide Serves, Elements, NoDuplicates, Free, Alone;
    assert OwnerOk(kube, remote, key);
    if r.status.id.Some? {
      OwnerStandsAlone(kube, remote, key);
    }
    StoreOwner(kube, remote, key, r);
  }

  lemma DropOwner(kube: map<Key, Resource>, remote: map<nat, Host>, key: Key)
    requires OwnersOk(kube, remote)
    ensures OwnersOk(kube - {key}, remote)
  {
    hide Serves, Elements, NoDuplicates;
    var kube' := kube - {key};
    forall k | k in kube' ensures OwnerOk(kube', remote, k) { assert OwnerOk(kube, remote, k); }
    forall k, m | k in kube' && m in kube' ensures Apart(kube', k, m) { assert Apart(kube, k, m); }
  }

  lemma ChangeHost(kube: map<Key, Resource>, remote: map<nat, Host>, i: nat, h: Host)
    requires OwnersOk(kube, remote)
    requires forall m :: m in kube && kube[m].status.id == Some(i) ==> Elements(h.domainNames) == Domains(kube[m])
    ensures OwnersOk(kube, remote[i := h])
  {
    hide Elements, NoDuplicates;
    forall k | k in kube ensures OwnerOk(kube, remote[i := h], k) { assert OwnerOk(kube, remote, k); }
  }

  lemma RemoveHost(kube: map<Key, Resource>, remote: map<nat, Host>, i: nat)
    requires OwnersOk(kube, remote)
    ensures OwnersOk(kube, remote - {i})
  {
    hide Elements, NoDuplicates;
    forall k | k in kube ensures OwnerOk(kube, remote - {i}, k) { assert OwnerOk(kube, remote, k); }
  }

  /** Others gain no id and keep their domains. */
  ghost predicate OthersSame(kube: map<Key, Resource>, kube': map<Key, Resource>, key: Key) {
    forall m :: m in kube' && m != key && kube'[m].status.id.Some?
      ==> m in kube && kube'[m].status.id == kube[m].status.id && kube'[m].spec.domainNames == kube[m].spec.domainNames
  }

  lemma StaysAlone(kube: map<Key, Resource>, kube': map<Key, Resource>, key: Key)
    requires OthersSame(kube, kube', key)
    ensures forall i :: Free(kube, key, i) ==> Free(kube', key, i)
    ensures forall ds :: Alone(kube, key, ds) ==> Alone(kube', key, ds)
  {
    hide Elements;
  }

  // ---------------------------------------------------------------- steps

  /** The pass keeps its place when the other resources and the remote store stay. */
  lemma PassStays(w: World, w': World, p: Pass)
    requires PassApart(w, p) && w'.remote == w.remote && OthersSame(w.kube, w'.kube, p.key)
    requires p.ph.finalizer || !p.stage.Fetched? ==>
              p.key in w'.kube && w'.kube[p.key].spec.domainNames == p.ph.spec.domainNames
    ensures PassApart(w', p)
  {
    hide Serves, Elements, Free, Alone;
    StaysAlone(w.kube, w'.kube, p.key);
  }

  lemma UserStoreOwned(w: World, a: Action)
    requires Inv(w) && Owned(w) && Can(w, a) && Settled(w, a) && ByUser(a)
    ensures OwnersOk(Next(w, a).kube, w.remote)
  {
    hide OwnersOk, NoDuplicates;
    if a.UserCreates? {
      StoreOwner(w.kube, w.remote, a.key, Next(w, a).kube[a.key]);
    } else if a.key in Next(w, a).kube {
      StoreSameOwner(w.kube, w.remote, a.key, Next(w, a).kube[a.key]);
    } else {
      DropOwner(w.kube, w.remote, a.key);
    }
  }

  lemma UserSparesOthers(w: World, a: Action, key: Key)
    requires Can(w, a) && Settled(w, a) && ByUser(a)
    ensures OthersSame(w.kube, Next(w, a).kube, key)
    ensures key in w.kube && w.kube[key].finalizer
            ==> key in Next(w, a).kube && Next(w, a).kube[key].spec.domainNames == w.kube[key].spec.domainNames
  {
    hide NoDuplicates;
  }

  lemma HeldPass(w: World, p: Pass)
    requires Inv(w) && w.pass == Some(p) && (p.ph.finalizer || !p.stage.Fetched?)
    ensures p.key in w.kube && w.kube[p.key].finalizer
  {
    assert PassOk(w, p);
  }

  lemma UserStepOwned(w: World, a: Action)
    requires Inv(w) && Owned(w) && Can(w, a) && Settled(w, a) && ByUser(a)
    ensures Owned(Next(w, a))
  {
    UserStoreOwned(w, a);
    if w.pass.Some? {
      var p := w.pass.value;
      UserSparesOthers(w, a, p.key);
      if p.ph.finalizer || !p.stage.Fetched? {
        HeldPass(w, p);
        assert PassApart(w, p);
      }
    }
    hide Can, Next, Inv, OwnersOk, PassApart;
    UserStepFrame(w, a);
    if w.pass.Some? {
      PassStays(w, Next(w, a), w.pass.value);
    }
  }

  lemma LocalStepOwned(w: World, a: Action)
    requires Inv(w) && Owned(w) && Can(w, a) && !WritesRemote(a) && !WritesKube(a)
    requires !ByOutsider(a) && !a.Locate? && !a.CheckDomains?
    ensures Owned(Next(w, a))
  {
    hide Serves, Elements, NoDuplicates, OwnersOk;
    OtherStepFrame(w, a);
  }

  lemma CheckOwned(w: World, a: Action)
    requires Inv(w) && Owned(w) && Can(w, a) && a.CheckDomains?
    ensures Owned(Next(w, a))
  {
    hide Serves, OwnersOk;
    var p := w.pass.value;
    forall m | m in w.kube && m != p.key ensures Domains(w.kube[m]) !! Domains(p.ph) {
      assert Disjoint(p.ph.spec.domainNames, w.kube[m].spec.domainNames);
    }
  }

  /** A host that matches the domains of a resource standing alone is held by nobody else. */
  lemma AdoptedIsFree(w: World, p: Pass, i: nat)
    requires OwnersOk(w.kube, w.remote) && i in w.remote
    requires p.key in w.kube && NoDuplicates(p.ph.spec.domainNames) && p.ph.spec.domainNames != []
    requires Alone(w.kube, p.key, Domains(p.ph))
    requires DomainsMatch(w.remote[i].domainNames, p.ph.spec.domainNames)
    ensures Serves(w.remote, i, Domains(p.ph)) && Free(w.kube, p.key, i)
    ensures Elements(w.remote[i].domainNames) == Domains(p.ph)
  {
    var h := w.remote[i];
    MatchIsPermutation(h.domainNames, p.ph.spec.domainNames);
    SameElements(h.domainNames, p.ph.spec.domainNames);
    assert p.ph.spec.domainNames[0] in Domains(p.ph);
    forall m | m in w.kube && m != p.key ensures w.kube[m].status.id != Some(i) {
      assert OwnerOk(w.kube, w.remote, m);
    }
  }

  lemma SameElements(a: seq<string>, b: seq<string>)
    requires Permutation(a, b)
    ensures Elements(a) == Elements(b)
  {
    forall d ensures d in Elements(a) <==> d in Elements(b) {
      assert d in a <==> d in multiset(a);
      assert d in b <==> d in multiset(b);
    }
  }

  lemma LocateOwned(w: World, a: Action)
    requires Inv(w) && Owned(w) && Can(w, a) && a.Locate?
    ensures Owned(Next(w, a))
  {
    var p := w.pass.value;
    assert PassOk(w, p) && OwnerOk(w.kube, w.remote, p.key);
    if p.ph.status.id.Some? {
      OwnerStandsAlone(w.kube, w.remote, p.key);
    } else if a.choice.Some? {
      AdoptedIsFree(w, p, a.choice.value);
    }
    hide DomainsMatch, OwnersOk, Serves, Elements, NoDuplicates, Free, Alone;
  }

  lemma SaveStoreOwned(w: World, p: Pass, st: Status, reply: Reply)
    requires Inv(w) && Owned(w) && w.pass == Some(p) && !p.stage.Fetched? && (Took(reply) ==> Current(w, p.key, p.ph))
    requires (ClaimOf(st) == ClaimOf(p.ph.status)) || (p.stage.Written? && st == Recorded(p.ph.status, p.stage))
    ensures OwnersOk(Save(w, p, st, reply).kube, w.remote)
  {
    if Took(reply) {
      assert PassOk(w, p) && w.kube[p.key] == p.ph && OwnerOk(w.kube, w.remote, p.key);
      var r := Save(w, p, st, reply).kube[p.key];
      hide OwnersOk, Serves, Elements, Free, Alone, NoDuplicates;
      if ClaimOf(st) == ClaimOf(p.ph.status) {
        StoreSameOwner(w.kube, w.remote, p.key, r);
      } else {
        StoreOwner(w.kube, w.remote, p.key, r);
      }
    }
  }

  lemma SavePassApart(w: World, p: Pass, st: Status, reply: Reply)
    requires Inv(w) && Owned(w) && w.pass == Some(p) && !p.stage.Fetched? && (Took(reply) ==> Current(w, p.key, p.ph))
    ensures var w' := Save(w, p, st, reply);
            w'.pass.Some? && PassApart(w', w'.pass.value) && PassApart(w', w'.pass.value.(stage := Finished))
  {
    assert PassOk(w, p);
    var w' := Save(w, p, st, reply);
    hide Serves, Elements, Free, Alone, OwnersOk;
    StaysAlone(w.kube, w'.kube, p.key);
  }

  lemma SameStoresApart(w: World, w': World, p: Pass)
    requires w'.kube == w.kube && w'.remote == w.remote && PassApart(w, p)
    ensures PassApart(w', p)
  {
  }

  lemma SaveOwned(w: World, a: Action)
    requires Inv(w) && Owned(w) && Can(w, a) && (a.SaveConditions? || a.SaveRecord?)
    ensures Owned(Next(w, a))
  {
    hide OwnersOk, PassApart, Save, Recorded, Inv;
    var p := w.pass.value;
    var st := if a.SaveConditions? then p.ph.status.(conditions := true) else Recorded(p.ph.status, p.stage);
    SaveStoreOwned(w, p, st, a.reply);
    SavePassApart(w, p, st, a.reply);
    SaveFrame(w, p, st, a.reply);
    SameStoresApart(Save(w, p, st, a.reply), Next(w, a), Next(w, a).pass.value);
  }

  lemma GrantOwned(w: World, a: Action)
    requires Inv(w) && Owned(w) && Can(w, a) && a.AddFinalizer?
    ensures Owned(Next(w, a))
  {
    var p := w.pass.value;
    if !p.ph.finalizer && Took(a.reply) {
      assert w.kube[p.key] == p.ph;
      var w' := Store(w, p.key, p.ph.(finalizer := true));
      hide OwnersOk;
      StoreSameOwner(w.kube, w.remote, p.key, w'.kube[p.key]);
    }
  }

  lemma DropOwned(w: World, a: Action)
    requires Inv(w) && Owned(w) && Can(w, a) && a.DropFinalizer?
    ensures Owned(Next(w, a))
  {
    hide OwnersOk;
    DropOwner(w.kube, w.remote, w.pass.value.key);
  }

  /** A host is only written in a way that keeps its domains or serves the resource, which alone may hold it. */
  ghost predicate OwnWrite(w: World, key: Key, domains: set<string>, e: Effect) {
    e.Sets? ==> e.id in w.remote
                && (Elements(e.host.domainNames) == Elements(w.remote[e.id].domainNames)
                    || (Elements(e.host.domainNames) == domains && Free(w.kube, key, e.id)))
  }

  lemma RestoreWritesOwnHost(w: World, a: Action)
    requires Inv(w) && Owned(w) && Can(w, a) && a.Restore?
    ensures OwnWrite(w, w.pass.value.key, Domains(w.pass.value.ph), EffectOf(w, a))
  {
    hide OwnersOk, Elements, Free, Alone, NoDuplicates;
    var p := w.pass.value;
    assert PassOk(w, p);
    OwnerStandsAlone(w.kube, w.remote, p.key);
    SnapshotServes(w, p.key);
  }

  lemma SnapshotServes(w: World, key: Key)
    requires Owned(w) && key in w.kube && w.kube[key].status.snapshot.Some?
    ensures Elements(w.kube[key].status.snapshot.value.domainNames) == Domains(w.kube[key])
  {
    assert OwnerOk(w.kube, w.remote, key);
  }

  /** What a remote step writes to a host serves the resource of the pass, which alone may hold that host. */
  lemma RemoteWritesOwnHost(w: World, a: Action)
    requires Inv(w) && Owned(w) && Can(w, a) && WritesRemote(a)
    ensures OwnWrite(w, w.pass.value.key, Domains(w.pass.value.ph), EffectOf(w, a))
  {
    hide OwnersOk, Inv, Elements, Free, Alone, NoDuplicates;
    if a.Restore? {
      RestoreWritesOwnHost(w, a);
    }
  }

  lemma NextIdIsUnheld(w: World, m: Key)
    requires Inv(w) && m in w.kube
    ensures w.kube[m].status.id != Some(w.nextId)
  {
    assert ResourceOk(w, m);
  }

  /** Changing the remote store by an effect that only writes to a host of this pass. */
  lemma EffectOwned(w: World, key: Key, domains: set<string>, e: Effect)
    requires OwnersOk(w.kube, w.remote) && OwnWrite(w, key, domains, e)
    requires key in w.kube && Domains(w.kube[key]) == domains
    requires forall m :: m in w.kube ==> w.kube[m].status.id != Some(w.nextId)
    ensures OwnersOk(w.kube, Apply(w, key, e).remote)
  {
    forall m | m in w.kube ensures OwnerOk(w.kube, w.remote, m) {
    }
    hide OwnersOk, Elements, NoDuplicates;
    match e {
      case Nothing =>
      case Sets(i, h, _) => ChangeHost(w.kube, w.remote, i, h);
      case Makes(h) => ChangeHost(w.kube, w.remote, w.nextId, h);
      case Removes(i) => RemoveHost(w.kube, w.remote, i);
    }
  }

  lemma PassDomains(w: World, p: Pass)
    requires Owned(w) && w.pass == Some(p) && !p.stage.Fetched?
    ensures p.key in w.kube && Domains(w.kube[p.key]) == Domains(p.ph)
  {
  }

  lemma RemoteStoreOwned(w: World, a: Action)
    requires Inv(w) && Owned(w) && Can(w, a) && WritesRemote(a)
    ensures OwnersOk(w.kube, Apply(w, w.pass.value.key, EffectOf(w, a)).remote)
  {
    var p := w.pass.value;
    RemoteWritesOwnHost(w, a);
    WritingStage(w, a);
    PassDomains(w, p);
    forall m | m in w.kube ensures w.kube[m].status.id != Some(w.nextId) {
      NextIdIsUnheld(w, m);
    }
    hide OwnersOk, EffectOf, Elements, Apply, Inv, Can, Free;
    EffectOwned(w, p.key, Domains(p.ph), EffectOf(w, a));
  }

  lemma TargetPassApart(w: World, a: Action)
    requires Inv(w) && Owned(w) && Can(w, a) && (a.EnableTarget? || a.PutTarget? || a.PutCustomFields?)
    ensures Next(w, a).pass.Some? ==> PassApart(Next(w, a), Next(w, a).pass.value)
  {
    assert PassApart(w, w.pass.value);
    hide OwnersOk, Elements, Free, Alone, NoDuplicates, WriteHost, Inv;
    forall i, h | i in w.remote { WriteHostFrame(w, i, h); }
  }

  lemma PostPassApart(w: World, a: Action)
    requires Inv(w) && Owned(w) && Can(w, a) && a.PostNew?
    ensures Next(w, a).pass.Some? ==> PassApart(Next(w, a), Next(w, a).pass.value)
  {
    assert PassApart(w, w.pass.value);
    forall m | m in w.kube ensures w.kube[m].status.id != Some(w.nextId) { NextIdIsUnheld(w, m); }
    hide OwnersOk, Elements, Alone, NoDuplicates, Inv;
  }

  lemma CleanupShape(w: World, a: Action)
    requires Can(w, a) && (a.Restore? || a.Reenable? || a.Disable? || a.DeleteHost?)
    ensures Next(w, a).kube == w.kube && Next(w, a).pass.Some?
    ensures var p := Next(w, a).pass.value;
            p == w.pass.value.(stage := p.stage) && (p.stage.Restored? || p.stage.Releasing?)
  {
    hide WriteHost, WriteBack, Put, Restoration;
    forall i, h | i in w.remote { WriteHostFrame(w, i, h); }
    forall key, i, h, c | i in w.remote { WriteBackFrame(w, key, i, h, c); }
  }

  lemma CleanupPassApart(w: World, a: Action)
    requires Inv(w) && Owned(w) && Can(w, a) && (a.Restore? || a.Reenable? || a.Disable? || a.DeleteHost?)
    ensures Next(w, a).pass.Some? ==> PassApart(Next(w, a), Next(w, a).pass.value)
  {
    WritingStage(w, a);
    CleanupShape(w, a);
    hide Can, Next, Inv;
    CleanupStaysApart(w, Next(w, a), w.pass.value, Next(w, a).pass.value.stage);
  }

  lemma CleanupStaysApart(w: World, w': World, p: Pass, stage: Stage)
    requires Owned(w) && w.pass == Some(p) && !p.stage.Fetched? && w'.kube == w.kube
    requires stage.Restored? || stage.Releasing?
    ensures PassApart(w', p.(stage := stage))
  {
    hide Domains, Alone, TargetOk, OwnersOk;
    assert PassApart(w, p);
  }

  lemma RemotePassApart(w: World, a: Action)
    requires Inv(w) && Owned(w) && Can(w, a) && WritesRemote(a)
    ensures Next(w, a).pass.Some? ==> PassApart(Next(w, a), Next(w, a).pass.value)
  {
    hide PassApart, Owned, Can, Next, Inv;
    if a.PostNew? {
      PostPassApart(w, a);
    } else if a.EnableTarget? || a.PutTarget? || a.PutCustomFields? {
      TargetPassApart(w, a);
    } else {
      CleanupPassApart(w, a);
    }
  }

  lemma RemoteOwned(w: World, a: Action)
    requires Inv(w) && Owned(w) && Can(w, a) && WritesRemote(a)
    ensures Owned(Next(w, a))
  {
    hide OwnersOk, PassApart, Can, Next, Inv, EffectOf, WritesRemote;
    RemoteStoreOwned(w, a);
    RemotePassApart(w, a);
    RemoteStepEffect(w, a);
    ApplyFrame(w, w.pass.value.key, EffectOf(w, a));
  }

  lemma StepOwned(w: World, a: Action)
    requires Inv(w) && Owned(w) && Can(w, a) && Settled(w, a)
    ensures Owned(Next(w, a))
  {
    hide Can, Next, Inv, Owned, Settled;
    if WritesRemote(a) {
      RemoteOwned(w, a);
    } else if ByUser(a) {
      UserStepOwned(w, a);
    } else if a.DropFinalizer? {
      DropOwned(w, a);
    } else if a.AddFinalizer? {
      GrantOwned(w, a);
    } else if WritesKube(a) {
      SaveOwned(w, a);
    } else if a.Locate? {
      LocateOwned(w, a);
    } else if a.CheckDomains? {
      CheckOwned(w, a);
    } else {
      SettledIsInside(w, a);
      LocalStepOwned(w, a);
    }
  }

  lemma SettledIsInside(w: World, a: Action)
    requires Settled(w, a)
    ensures !ByOutsider(a)
  {
  }

  lemma {:induction false} RunOwned(w: World, run: seq<Action>)
    requires Inv(w) && Owned(w) && Legal(w, run) && SettledRun(w, run)
    ensures Owned(Exec(w, run))
    decreases |run|
  {
    hide Inv, Can, Next, Owned, Settled;
    if run != [] {
      StepOwned(w, run[0]);
      StepKeepsInv(w, run[0]);
      RunOwned(Next(w, run[0]), run[1..]);
    }
  }

  lemma InitOwned(init: World)
    requires SettledInit(init)
    ensures Inv(init) && Owned(init)
  {
    InitOk(init);
  }

  /** In every settled run, crashes and failed calls included, two live resources with ids have
      disjoint domains and distinct ids. */
  lemma LiveResourcesShareNothing(init: World, run: seq<Action>, k: Key, m: Key)
    requires SettledInit(init) && Legal(init, run) && SettledRun(init, run)
    requires var kube := Exec(init, run).kube;
             k in kube && m in kube && k != m && kube[k].status.id.Some? && kube[m].status.id.Some?
    ensures var kube := Exec(init, run).kube;
            kube[k].status.id != kube[m].status.id && Disjoint(kube[k].spec.domainNames, kube[m].spec.domainNames)
  {
    hide Can, Next, Inv, SettledInit;
    InitOwned(init);
    RunOwned(init, run);
    OwnedPair(Exec(init, run), k, m);
  }

  lemma OwnedPair(w: World, k: Key, m: Key)
    requires Owned(w) && k in w.kube && m in w.kube && k != m && w.kube[k].status.id.Some? && w.kube[m].status.id.Some?
    ensures w.kube[k].status.id != w.kube[m].status.id
    ensures Disjoint(w.kube[k].spec.domainNames, w.kube[m].spec.domainNames)
  {
    assert Apart(w.kube, k, m);
    forall d | d in w.kube[k].spec.domainNames ensures d !in w.kube[m].spec.domainNames {
      assert d in Domains(w.kube[k]);
    }
  }
}
