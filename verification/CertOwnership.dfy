/** The LetsEncryptCertificate controller as a state machine, cut at every effect: who may delete which certificate
    (internal/controller/letsencryptcertificate/letsencryptcertificate_controller.go). */
module CertOwnership {
  import opened Text
  import opened Api
  import opened Certificates

  /** `id` and `bound` are the recorded claim; `version` is what optimistic updates compare. */
  datatype Lec = Lec(
    domains: seq<string>, id: Option<nat>, bound: bool, conditions: bool, finalizer: bool, deleting: bool, version: nat)

  datatype Stage =
    | Fetched                       // the object was read
    | Guarded                       // its finalizer is present, or it is being deleted
    | Chosen(id: nat, bound: bool)  // a certificate was reused or created
    | Finished                      // nothing left but conditions
    | Releasing                     // deletion: only the finalizer is left to remove

  datatype Pass = Pass(key: Key, lec: Lec, stage: Stage)

  /** `creator`: whose POST made a certificate. */
  datatype World = World(kube: map<Key, Lec>, clock: nat, store: Store, pass: Option<Pass>, creator: map<nat, Key>)

  datatype Reply = Ok | Refused | Lost

  predicate Took(r: Reply) { !r.Refused? }

  datatype Action =
    | UserCreates(key: Key, domains: seq<string>)
    | UserEdits(key: Key, domains: seq<string>)
    | UserDeletes(key: Key)
    | OutsiderAdds(provider: string, domains: seq<string>, position: nat)
    | OutsiderRemoves(id: nat)
    | Begin(key: Key)
    | AddFinalizer(reply: Reply)
    | EnterDeletion
    | Reread
    | SaveConditions(reply: Reply)
    | Reuse(id: nat)
    | PostNew(position: nat, reply: Reply)
    | SaveRecord(reply: Reply)
    | DeleteCertificate(reply: Reply)
    | SkipDeletion
    | DropFinalizer(reply: Reply)
    | Fail
    | Stop

  predicate ByOutsider(a: Action) { a.OutsiderAdds? || a.OutsiderRemoves? }
  predicate ByOthers(a: Action) { a.UserCreates? || a.UserEdits? || a.UserDeletes? || ByOutsider(a) }

  // ---------------------------------------------------------------- guards

  predicate Current(w: World, key: Key, r: Lec) {
    key in w.kube && w.kube[key].version == r.version
  }

  /** Which actions are possible. The guard of a pass's own steps is one large match; written as a comparison, it is
      proved as one term instead of being split into its cases wherever a step is shown to be possible. The
      comparisons with `true` in other definitions have the same purpose. */
  predicate Can(w: World, a: Action) {
    match a
    case UserCreates(key, _) => key !in w.kube
    case UserEdits(key, _) => key in w.kube
    case UserDeletes(key) => key in w.kube
    case OutsiderAdds(_, _, position) => position <= |w.store.certs|
    case OutsiderRemoves(_) => true
    case Begin(key) => w.pass.None? && key in w.kube
    case Stop => true
    case _ => w.pass.Some? && CanStep(w, w.pass.value, a) == true
  }

  /** The deletion branch, with the finalizer seen on the object. */
  predicate Cleaning(p: Pass) {
    p.stage.Guarded? && p.lec.deleting && p.lec.finalizer
  }

  predicate CanStep(w: World, p: Pass, a: Action) {
    match a
    case AddFinalizer(reply) =>
      p.stage.Fetched? && !p.lec.deleting && (!p.lec.finalizer && Took(reply) ==> Current(w, p.key, p.lec))
    case EnterDeletion => p.stage.Fetched? && p.lec.deleting
    case Reread => (p.stage.Guarded? || p.stage.Chosen? || p.stage.Finished?) && p.key in w.kube
    case SaveConditions(reply) => !p.stage.Fetched? && (Took(reply) ==> Current(w, p.key, p.lec))
    case Reuse(id) => p.stage.Guarded? && p.lec.id.None? && id < w.store.nextId
    case PostNew(position, reply) => p.stage.Guarded? && p.lec.id.None? && position <= |w.store.certs|
    case SaveRecord(reply) => p.stage.Chosen? && (Took(reply) ==> Current(w, p.key, p.lec))
    case DeleteCertificate(_) => Cleaning(p) && p.lec.id.Some? && !p.lec.bound
    case SkipDeletion => Cleaning(p)
    case DropFinalizer(reply) => p.stage.Releasing? && p.lec.finalizer && (Took(reply) ==> Current(w, p.key, p.lec))
    case Fail => !p.stage.Fetched?
    case _ => false
  }

  // ---------------------------------------------------------------- effects

  function Put(w: World, key: Key, r: Lec): World {
    w.(kube := w.kube[key := r.(version := w.clock + 1)], clock := w.clock + 1)
  }

  function Without(certs: seq<Certificate>, id: nat): seq<Certificate> {
    if certs == [] then []
    else if certs[0].id == id then Without(certs[1..], id)
    else [certs[0]] + Without(certs[1..], id)
  }

  function To(w: World, p: Pass, stage: Stage): World {
    w.(pass := Some(p.(stage := stage)))
  }

  function Next(w: World, a: Action): World
    requires Can(w, a)
  {
    match a
    case UserCreates(key, domains) => Put(w, key, Lec(domains, None, false, false, false, false, 0))
    case UserEdits(key, domains) => Put(w, key, w.kube[key].(domains := domains))
    case UserDeletes(key) =>
      if w.kube[key].finalizer then Put(w, key, w.kube[key].(deleting := true)) else w.(kube := w.kube - {key})
    case OutsiderAdds(provider, domains, position) =>
      w.(store := Store(w.store.certs[..position] + [Certificate(w.store.nextId, provider, domains)]
                        + w.store.certs[position..], w.store.nextId + 1))
    case OutsiderRemoves(id) => w.(store := w.store.(certs := Without(w.store.certs, id)))
    case Begin(key) => w.(pass := Some(Pass(key, w.kube[key], Fetched)))
    case Stop => w.(pass := None)
    case _ => Step(w, w.pass.value, a)
  }

  function Step(w: World, p: Pass, a: Action): World
    requires w.pass == Some(p) && CanStep(w, p, a) == true
  {
    match a
    case AddFinalizer(reply) =>
      if p.lec.finalizer then To(w, p, Guarded)
      else if reply.Refused? then w.(pass := None)
      else
        var w' := Put(w, p.key, p.lec.(finalizer := true));
        if reply.Lost? then w'.(pass := None) else To(w', p.(lec := w'.kube[p.key]), Guarded)
    case EnterDeletion => To(w, p, Guarded)
    case Reread => w.(pass := Some(p.(lec := w.kube[p.key])))
    case SaveConditions(reply) => Save(w, p, p.lec.(conditions := true), reply)
    case Reuse(id) => To(w, p, Chosen(id, true))
    case PostNew(position, reply) =>
      if reply.Refused? then To(w, p, Finished)
      else
        var w' := w.(store := Added(w.store, p.lec.domains, position), creator := w.creator[w.store.nextId := p.key]);
        To(w', p, if reply.Ok? then Chosen(w.store.nextId, false) else Finished)
    case SaveRecord(reply) =>
      var w' := Save(w, p, p.lec.(id := Some(p.stage.id), bound := p.stage.bound), reply);
      if Took(reply) then To(w', w'.pass.value, Finished) else w'
    case DeleteCertificate(reply) =>
      To(if Took(reply) then w.(store := w.store.(certs := Without(w.store.certs, p.lec.id.value))) else w,
         p, Releasing)
    case SkipDeletion => To(w, p, Releasing)
    case DropFinalizer(reply) => (if Took(reply) then w.(kube := w.kube - {p.key}) else w).(pass := None)
    case Fail => To(w, p, Finished)
  }

  /** One attempt of a status update. */
  function Save(w: World, p: Pass, r: Lec, reply: Reply): (w': World)
    requires w.pass == Some(p)
    ensures w'.pass.Some?
  {
    if reply.Refused? then w
    else
      var w' := Put(w, p.key, r);
      if reply.Ok? then w'.(pass := Some(p.(lec := w'.kube[p.key]))) else w'
  }

  // ---------------------------------------------------------------- runs

  predicate Legal(w: World, run: seq<Action>)
    decreases |run|
  {
    run == [] || (Can(w, run[0]) && Legal(Next(w, run[0]), run[1..]))
  }

  function Exec(w: World, run: seq<Action>): World
    requires Legal(w, run)
    decreases |run|
  {
    if run == [] then w else Exec(Next(w, run[0]), run[1..])
  }

  predicate Init(w: World) {
    && w.pass.None? && w.creator == map[] && Below(w.store)
    && forall k :: k in w.kube ==>
         w.kube[k].id.None? && !w.kube[k].finalizer && !w.kube[k].deleting && w.kube[k].version <= w.clock
  }

  // ---------------------------------------------------------------- the invariant

  /** An unbound id is the answer of this resource's own POST. */
  predicate OwnClaim(w: World, k: Key, id: nat, bound: bool) {
    id < w.store.nextId && (!bound ==> id in w.creator && w.creator[id] == k)
  }

  predicate LecOk(w: World, k: Key)
    requires k in w.kube
  {
    var r := w.kube[k];
    && r.version <= w.clock
    && (r.id.Some? || r.deleting ==> r.finalizer)
    && (r.id.Some? ==> OwnClaim(w, k, r.id.value, r.bound))
  }

  predicate PassOk(w: World, p: Pass) {
    && p.lec.version <= w.clock
    && (Current(w, p.key, p.lec) ==> w.kube[p.key] == p.lec)
    && (p.lec.finalizer || !p.stage.Fetched? ==>
          p.lec.finalizer && p.key in w.kube && w.kube[p.key].finalizer && (p.lec.deleting ==> w.kube[p.key].deleting)
          && (!p.stage.Finished? ==> w.kube[p.key].id == p.lec.id && w.kube[p.key].bound == p.lec.bound))
    && (p.stage.Fetched? && p.lec.deleting ==> p.lec.finalizer)
    && (p.stage.Chosen? ==> OwnClaim(w, p.key, p.stage.id, p.stage.bound))
  }

  ghost predicate Parts(w: World) {
    && Below(w.store)
    && (forall i :: i in w.creator ==> i < w.store.nextId)
    && (forall k :: k in w.kube ==> LecOk(w, k))
    && (w.pass.Some? ==> PassOk(w, w.pass.value))
  }

  /** The comparison keeps the verifier from unfolding the invariant at every call. */
  ghost predicate Inv(w: World) {
    Parts(w) == true
  }

  lemma {:induction false} WithoutIsSubset(certs: seq<Certificate>, id: nat)
    ensures forall c :: c in Without(certs, id) <==> c in certs && c.id != id
  {
    if certs != [] {
      WithoutIsSubset(certs[1..], id);
      assert certs == [certs[0]] + certs[1..];
    }
  }

  lemma {:induction false} WithoutCounts(certs: seq<Certificate>, id: nat)
    ensures forall c :: multiset(Without(certs, id))[c] == if c.id == id then 0 else multiset(certs)[c]
  {
    if certs != [] {
      WithoutCounts(certs[1..], id);
      assert certs == [certs[0]] + certs[1..];
    }
  }

  lemma InsertedBelow(s: Store, c: Certificate, position: nat)
    requires Below(s) && position <= |s.certs| && c.id == s.nextId
    ensures Below(Store(s.certs[..position] + [c] + s.certs[position..], s.nextId + 1))
  {
    forall d | d in s.certs[..position] + [c] + s.certs[position..] ensures d.id < s.nextId + 1 {
      assert d == c || d in s.certs;
    }
  }

  lemma UserKeepsInv(w: World, a: Action)
    requires Inv(w) && Can(w, a) && ByOthers(a) && !ByOutsider(a)
    ensures Inv(Next(w, a))
  {
    hide Below;
  }

  lemma OutsiderKeepsInv(w: World, a: Action)
    requires Inv(w) && Can(w, a) && ByOutsider(a)
    ensures Inv(Next(w, a))
  {
    if a.OutsiderAdds? {
      InsertedBelow(w.store, Certificate(w.store.nextId, a.provider, a.domains), a.position);
    } else {
      WithoutIsSubset(w.store.certs, a.id);
    }
  }

  lemma GuardKeepsInv(w: World, a: Action)
    requires Inv(w) && Can(w, a) && a.AddFinalizer?
    ensures Inv(Next(w, a))
  {
    hide Below;
    assert PassOk(w, w.pass.value);
  }

  lemma LocalKeepsInv(w: World, a: Action)
    requires Inv(w) && Can(w, a)
    requires a.Begin? || a.Stop? || a.Fail? || a.EnterDeletion? || a.Reread? || a.Reuse? || a.SkipDeletion?
    ensures Inv(Next(w, a))
  {
    hide Below;
  }

  lemma PostKeepsInv(w: World, a: Action)
    requires Inv(w) && Can(w, a) && a.PostNew?
    ensures Inv(Next(w, a))
  {
    var p := w.pass.value;
    InsertedBelow(w.store, Certificate(w.store.nextId, LETSENCRYPT_PROVIDER, p.lec.domains), a.position);
    hide Below;
  }

  /** Storing a version whose claim is sound, by the pass that holds the object. */
  lemma StoreKeepsInv(w: World, p: Pass, r: Lec, reply: Reply, stage: Stage)
    requires Inv(w) && w.pass == Some(p) && !p.stage.Fetched? && Took(reply) && Current(w, p.key, p.lec)
    requires r == p.lec.(id := r.id, bound := r.bound, conditions := r.conditions)
    requires r.id.Some? ==> OwnClaim(w, p.key, r.id.value, r.bound)
    requires stage == Finished || (stage == p.stage && r.id == p.lec.id && r.bound == p.lec.bound)
    ensures var w' := Save(w, p, r, reply); Inv(To(w', w'.pass.value, stage))
  {
    hide Below;
  }

  lemma ClaimOfPass(w: World, p: Pass)
    requires Inv(w) && w.pass == Some(p) && !p.stage.Fetched? && Current(w, p.key, p.lec)
    ensures p.lec.id.Some? ==> OwnClaim(w, p.key, p.lec.id.value, p.lec.bound)
    ensures p.stage.Chosen? ==> OwnClaim(w, p.key, p.stage.id, p.stage.bound)
  {
    assert LecOk(w, p.key);
  }

  lemma SaveKeepsInv(w: World, a: Action)
    requires Inv(w) && Can(w, a) && (a.SaveConditions? || a.SaveRecord?)
    ensures Inv(Next(w, a))
  {
    hide Inv, Save;
    var p := w.pass.value;
    if Took(a.reply) {
      ClaimOfPass(w, p);
      if a.SaveConditions? {
        SaveKeepsStage(w, p, p.lec.(conditions := true), a.reply);
        StoreKeepsInv(w, p, p.lec.(conditions := true), a.reply, p.stage);
      } else {
        StoreKeepsInv(w, p, p.lec.(id := Some(p.stage.id), bound := p.stage.bound), a.reply, Finished);
      }
    } else {
      RefusedSaves(w, p);
    }
  }

  lemma SaveKeepsStage(w: World, p: Pass, r: Lec, reply: Reply)
    requires w.pass == Some(p)
    ensures var w' := Save(w, p, r, reply); To(w', w'.pass.value, p.stage) == w'
  {
  }

  lemma RefusedSaves(w: World, p: Pass)
    requires w.pass == Some(p)
    ensures forall r :: Save(w, p, r, Refused) == w
  {
  }

  lemma CleanupKeepsInv(w: World, a: Action)
    requires Inv(w) && Can(w, a) && (a.DeleteCertificate? || a.DropFinalizer?)
    ensures Inv(Next(w, a))
  {
    if a.DeleteCertificate? {
      WithoutIsSubset(w.store.certs, w.pass.value.lec.id.value);
    }
  }

  lemma StepKeepsInv(w: World, a: Action)
    requires Inv(w) && Can(w, a)
    ensures Inv(Next(w, a))
  {
    hide Inv, Can, Next;
    if ByOutsider(a) {
      OutsiderKeepsInv(w, a);
    } else if ByOthers(a) {
      UserKeepsInv(w, a);
    } else if a.AddFinalizer? {
      GuardKeepsInv(w, a);
    } else if a.PostNew? {
      PostKeepsInv(w, a);
    } else if a.SaveConditions? || a.SaveRecord? {
      SaveKeepsInv(w, a);
    } else if a.DeleteCertificate? || a.DropFinalizer? {
      CleanupKeepsInv(w, a);
    } else {
      LocalKeepsInv(w, a);
    }
  }

  /** Ids are never given twice, and who made a certificate never changes. */
  predicate Grows(w: World, w': World) {
    w.store.nextId <= w'.store.nextId && forall i :: i in w.creator ==> i in w'.creator && w'.creator[i] == w.creator[i]
  }

  lemma StepGrows(w: World, a: Action)
    requires Inv(w) && Can(w, a)
    ensures Grows(w, Next(w, a))
  {
    hide Below;
  }

  /** Every run keeps the invariant and the record of who made what. */
  lemma {:induction false} RunKeepsInv(w: World, run: seq<Action>)
    requires Inv(w) && Legal(w, run)
    ensures Inv(Exec(w, run)) && Grows(w, Exec(w, run))
    decreases |run|
  {
    hide Inv, Can, Next;
    if run != [] {
      StepKeepsInv(w, run[0]);
      StepGrows(w, run[0]);
      RunKeepsInv(Next(w, run[0]), run[1..]);
    }
  }

  lemma Reaches(init: World, run: seq<Action>)
    requires Init(init) && Legal(init, run)
    ensures Inv(Exec(init, run))
  {
    assert Inv(init);
    hide Inv, Can, Next, Init;
    RunKeepsInv(init, run);
  }

  /** Runs compose. */
  lemma {:induction false} LegalConcat(w: World, run: seq<Action>, more: seq<Action>)
    requires Legal(w, run) && Legal(Exec(w, run), more)
    ensures Legal(w, run + more) && Exec(w, run + more) == Exec(Exec(w, run), more)
    decreases |run|
  {
    hide Can, Next;
    if run == [] {
      assert run + more == more;
    } else {
      LegalConcat(Next(w, run[0]), run[1..], more);
      assert (run + more)[1..] == run[1..] + more;
    }
  }

  // ---------------------------------------------------------------- who may delete what

  lemma UnboundId(w: World, k: Key)
    requires Inv(w) && k in w.kube && w.kube[k].id.Some? && !w.kube[k].bound
    ensures w.kube[k].id.value in w.creator && w.creator[w.kube[k].id.value] == k
  {
    assert LecOk(w, k);
  }

  /** In every run, crashes and failed calls included, an id with Bound = false came from this resource's own POST. */
  lemma UnboundIdIsOwnPost(init: World, run: seq<Action>, k: Key)
    requires Init(init) && Legal(init, run)
    requires var w := Exec(init, run); k in w.kube && w.kube[k].id.Some? && !w.kube[k].bound
    ensures var w := Exec(init, run); w.kube[k].id.value in w.creator && w.creator[w.kube[k].id.value] == k
  {
    Reaches(init, run);
    UnboundId(Exec(init, run), k);
  }

  /** No other resource holds that id unbound. */
  lemma UnboundIdIsExclusive(init: World, run: seq<Action>, k: Key, m: Key)
    requires Init(init) && Legal(init, run)
    requires var w := Exec(init, run);
             && k in w.kube && w.kube[k].id.Some? && !w.kube[k].bound
             && m in w.kube && w.kube[m].id == w.kube[k].id && !w.kube[m].bound
    ensures k == m
  {
    UnboundIdIsOwnPost(init, run, k);
    UnboundIdIsOwnPost(init, run, m);
  }

  lemma DeletedIsOwn(w: World, reply: Reply)
    requires Inv(w) && Can(w, DeleteCertificate(reply))
    ensures var p := w.pass.value; p.lec.id.value in w.creator && w.creator[p.lec.id.value] == p.key
  {
    assert LecOk(w, w.pass.value.key);
  }

  /** So a finalizer deletes only certificates the operator made, each for the one resource it was made for. */
  lemma DeletionHitsOwnCertificate(init: World, run: seq<Action>, reply: Reply)
    requires Init(init) && Legal(init, run) && Can(Exec(init, run), DeleteCertificate(reply))
    ensures var w := Exec(init, run); var p := w.pass.value;
            p.lec.id.value in w.creator && w.creator[p.lec.id.value] == p.key
  {
    Reaches(init, run);
    DeletedIsOwn(Exec(init, run), reply);
  }

  predicate Holds(s: Store, id: nat) {
    exists c :: c in s.certs && c.id == id
  }

  lemma StepSparesForeign(w: World, a: Action, id: nat)
    requires Inv(w) && Can(w, a) && a != OutsiderRemoves(id) && Holds(w.store, id) && id !in w.creator
    ensures Holds(Next(w, a).store, id) && id !in Next(w, a).creator
  {
    hide Inv;
    if ByOutsider(a) {
      OutsiderSparesOthers(w, a, id);
    }
    if a.DeleteCertificate? {
      DeletedIsOwn(w, a.reply);
      WithoutIsSubset(w.store.certs, w.pass.value.lec.id.value);
    } else if a.PostNew? {
      ForeignIsOld(w, id);
      var c :| c in w.store.certs && c.id == id;
      if Took(a.reply) {
        assert w.store.certs == w.store.certs[..a.position] + w.store.certs[a.position..];
        assert c in Next(w, a).store.certs;
      }
    }
  }

  lemma OutsiderSparesOthers(w: World, a: Action, id: nat)
    requires Can(w, a) && ByOutsider(a) && a != OutsiderRemoves(id) && Holds(w.store, id)
    ensures Holds(Next(w, a).store, id)
  {
    var c :| c in w.store.certs && c.id == id;
    if a.OutsiderAdds? {
      assert w.store.certs == w.store.certs[..a.position] + w.store.certs[a.position..];
      assert c in Next(w, a).store.certs;
    } else {
      WithoutIsSubset(w.store.certs, a.id);
      assert c in Next(w, a).store.certs;
    }
  }

  lemma ForeignIsOld(w: World, id: nat)
    requires Inv(w) && Holds(w.store, id)
    ensures id < w.store.nextId
  {
  }

  /** A certificate the operator did not make stays until an outsider removes it. */
  lemma {:induction false} ForeignCertificatesSurvive(w: World, run: seq<Action>, id: nat)
    requires Inv(w) && Legal(w, run) && OutsiderRemoves(id) !in run
    requires Holds(w.store, id) && id !in w.creator
    ensures Holds(Exec(w, run).store, id)
    decreases |run|
  {
    hide Inv, Can, Next, Holds;
    if run != [] {
      assert run[0] in run;
      StepSparesForeign(w, run[0], id);
      StepKeepsInv(w, run[0]);
      ForeignCertificatesSurvive(Next(w, run[0]), run[1..], id);
    }
  }
}
