/** The two-store protocol of the ProxyHost controller as a state machine, cut at every effect
    (internal/controller/proxyhost/proxyhost_controller.go, internal/controller/helpers.go). */
module Lifecycle {
  import opened Text
  import opened Npm
  import opened Api

  // ---------------------------------------------------------------- state

  /** A host as a lookup returned it. */
  datatype Found = Found(id: nat, host: Host)

  /** The locals of createOrUpdateProxyHost that survive until the status write.
      `touched` records whether the operator had written to the host before this lookup. */
  datatype Plan = Plan(domains: seq<string>, bound: bool, snapshot: Option<InitialConfiguration>, touched: bool)

  datatype Stage =
    | Fetched                                        // the object was read
    | Guarded                                        // its finalizer is known to be present, or it is being deleted
    | Unique                                         // no other resource uses one of its domains
    | Located(plan: Plan, target: Option<Found>)     // the remote lookup is done
    | Written(plan: Plan, id: nat, certificateId: Option<int>, online: bool)  // PUT or POST answered
    | Finished                                       // failed; only a condition may still be written
    | Restored                                       // deletion: the snapshot was sent
    | Releasing(cause: Cause, latest: Option<Resource>)  // deletion: only the finalizer is left to remove

  /** Why a deletion pass goes on to remove the finalizer. */
  datatype Cause = CleanupAttempted | NoClient | NothingRemote

  /** A pass in progress: its key and its local copy of the object. */
  datatype Pass = Pass(key: Key, ph: Resource, stage: Stage)

  /** History. `creator`: whose POST made a host. `baseline`: a foreign host as it stood before the
      operator's first write to it since it was last given back. `late`: resources whose snapshot was taken after such
      a write. */
  datatype Log = Log(creator: map<nat, Key>, baseline: map<nat, Host>, late: set<Key>)

  datatype World = World(
    kube: map<Key, Resource>, clock: nat,
    remote: map<nat, Host>, nextId: nat, supported: bool,
    pass: Option<Pass>, log: Log)

  /** How a call ends: done; refused without effect; or done with its answer lost. */
  datatype Reply = Ok | Refused | Lost

  predicate Took(r: Reply) { !r.Refused? }

  datatype Action =
    // users of the API server
    | UserCreates(key: Key, spec: ProxyHostSpec)
    | UserEdits(key: Key, spec: ProxyHostSpec)
    | UserDeletes(key: Key)
    // other users of Nginx Proxy Manager
    | OutsiderAdds(host: Host)
    | OutsiderEdits(id: nat, host: Host)
    | OutsiderRemoves(id: nat)
    // one pass of the controller
    | Begin(key: Key)
    | AddFinalizer(reply: Reply)
    | EnterDeletion
    | Reread
    | SaveConditions(reply: Reply)
    | CheckDomains
    | Locate(choice: Option<nat>)
    | EnableTarget(reply: Reply)
    | PutTarget(input: RequestInput, reply: Reply)
    | PostNew(input: RequestInput, reply: Reply)
    | PutCustomFields(input: RequestInput, reply: Reply)
    | SaveRecord(reply: Reply)
    | Restore(reply: Reply)
    | Reenable(reply: Reply)
    | Disable(reply: Reply)
    | DeleteHost(reply: Reply)
    | SkipReenable
    | SkipCleanup(cause: Cause)
    | FetchLatest
    | DropFinalizer(reply: Reply)
    // an error inside the pass; and its end: a return, a panic or a crash of the manager
    | Fail
    | Stop

  predicate ByUser(a: Action) { a.UserCreates? || a.UserEdits? || a.UserDeletes? }
  predicate ByOutsider(a: Action) { a.OutsiderAdds? || a.OutsiderEdits? || a.OutsiderRemoves? }
  predicate ByOthers(a: Action) { ByUser(a) || ByOutsider(a) }

  // ---------------------------------------------------------------- guards

  predicate At(w: World, key: Key) {
    w.pass.Some? && w.pass.value.key == key
  }

  predicate Disjoint(a: seq<string>, b: seq<string>) {
    forall d :: d in a ==> d !in b
  }

  /** domainsShouldBeUnique succeeds. */
  predicate DomainsUnique(kube: map<Key, Resource>, key: Key, domains: seq<string>) {
    forall k :: k in kube && k != key ==> Disjoint(domains, kube[k].spec.domainNames)
  }

  /** What a lookup may return: by id the host itself; by domain some matching host, or nothing,
      because the error of that lookup is dropped; nothing when binding is off. */
  predicate CanLocate(remote: map<nat, Host>, ph: Resource, choice: Option<nat>) {
    match choice
    case Some(i) =>
      && i in remote
      && (ph.status.id == Some(i)
          || (ph.status.id.None? && ph.spec.bindExisting && ph.spec.domainNames != []
              && DomainsMatch(remote[i].domainNames, ph.spec.domainNames)))
    case None => ph.status.id.Some? ==> ph.status.id.value !in remote
  }

  /** The server version is the one the pass holds, so an update is not a conflict. */
  predicate Current(w: World, key: Key, r: Resource) {
    key in w.kube && w.kube[key].version == r.version
  }

  /** Which actions are possible. The guard of a pass's own steps is one large match; written as a comparison, it is
      proved as one term instead of being split into its cases wherever a step is shown to be possible. The
      comparisons with `true` in other definitions have the same purpose. */
  predicate Can(w: World, a: Action) {
    match a
    case UserCreates(key, _) => key !in w.kube
    case UserEdits(key, _) => key in w.kube
    case UserDeletes(key) => key in w.kube
    case OutsiderAdds(_) => true
    case OutsiderEdits(id, _) => id in w.remote
    case OutsiderRemoves(id) => id in w.remote
    case Begin(key) => w.pass.None? && key in w.kube
    case Stop => true
    case _ => w.pass.Some? && CanStep(w, w.pass.value, a) == true
  }

  predicate CanStep(w: World, p: Pass, a: Action) {
    match a
    case AddFinalizer(reply) => p.stage.Fetched? && !p.ph.deleting
        && (!p.ph.finalizer && Took(reply) ==> Current(w, p.key, p.ph))
    case EnterDeletion => p.stage.Fetched? && p.ph.deleting
    case Reread => (p.stage.Guarded? || p.stage.Written? || p.stage.Finished?) && p.key in w.kube
    case SaveConditions(reply) => !p.stage.Fetched? && (Took(reply) ==> Current(w, p.key, p.ph))
    case CheckDomains => p.stage.Guarded? && DomainsUnique(w.kube, p.key, p.ph.spec.domainNames)
    case Locate(choice) => p.stage.Unique? && CanLocate(w.remote, p.ph, choice)
    case EnableTarget(reply) => p.stage.Located? && p.stage.target.Some? && !p.stage.target.value.host.enabled
                            && (Took(reply) ==> p.stage.target.value.id in w.remote)
    case PutTarget(input, reply) =>
      p.stage.Located? && p.stage.target.Some? && input.domainNames == p.stage.plan.domains
                            && (Took(reply) ==> p.stage.target.value.id in w.remote)
    case PostNew(input, _) => p.stage.Located? && p.stage.target.None? && input.domainNames == p.stage.plan.domains
    case PutCustomFields(input, reply) => p.stage.Written? && input.domainNames == p.stage.plan.domains
                            && (Took(reply) ==> p.stage.id in w.remote)
    case SaveRecord(reply) => p.stage.Written? && (Took(reply) ==> Current(w, p.key, p.ph))
    case Restore(reply) => Cleaning(p) && p.ph.status.id.Some? && ShouldRestoreInitialConfig(p.ph.status)
                            && (Took(reply) ==> p.ph.status.id.value in w.remote)
    case Reenable(reply) => p.stage.Restored? && p.ph.status.id.Some? && p.ph.status.snapshot.Some?
                            && p.ph.status.snapshot.value.enabled && (Took(reply) ==> p.ph.status.id.value in w.remote)
    case Disable(reply) => Cleaning(p) && p.ph.status.id.Some? && p.ph.status.bound && p.ph.status.snapshot.None?
                            && (Took(reply) ==> p.ph.status.id.value in w.remote)
    case DeleteHost(reply) => Cleaning(p) && p.ph.status.id.Some? && !p.ph.status.bound
                            && (Took(reply) ==> p.ph.status.id.value in w.remote)
    case SkipReenable => p.stage.Restored?
    case SkipCleanup(cause) => Cleaning(p) && (cause.NoClient? || (cause.NothingRemote? && p.ph.status.id.None?))
    case FetchLatest => p.stage.Releasing? && p.key in w.kube
    case DropFinalizer(reply) => p.stage.Releasing? && p.stage.latest.Some? && p.stage.latest.value.finalizer
                            && (Took(reply) ==> Current(w, p.key, p.stage.latest.value))
    case Fail => !p.stage.Fetched?
    case _ => false
  }

  /** The deletion branch, with the finalizer seen on the object. */
  predicate Cleaning(p: Pass) {
    p.stage.Guarded? && p.ph.deleting && p.ph.finalizer
  }

  // ---------------------------------------------------------------- effects

  function Store(w: World, key: Key, r: Resource): World {
    w.(kube := w.kube[key := r.(version := w.clock + 1)], clock := w.clock + 1)
  }

  /** The operator writes to host `i`; the first such write to a foreign host is remembered. */
  function WriteHost(w: World, i: nat, h: Host): World
    requires i in w.remote
  {
    w.(remote := w.remote[i := h],
       log := if i in w.log.creator || i in w.log.baseline then w.log
              else w.log.(baseline := w.log.baseline[i := w.remote[i]]))
  }

  /** The host has the configuration of the snapshot again, and is enabled if it was. */
  predicate IsBack(h: Host, c: InitialConfiguration) {
    Put(h, Restoration(c)) == h && (c.enabled ==> h.enabled)
  }

  /** A clean-up writes to host `i`. When that gives a foreign host back, from a snapshot that was not
      taken late, the host counts as never written to. */
  function WriteBack(w: World, key: Key, i: nat, h: Host, c: InitialConfiguration): World
    requires i in w.remote
  {
    if key !in w.log.late && i !in w.log.creator && IsBack(h, c)
    then w.(remote := w.remote[i := h], log := w.log.(baseline := w.log.baseline - {i}))
    else WriteHost(w, i, h)
  }

  function SetEnabled(w: World, i: nat, enabled: bool, reply: Reply): World
    requires Took(reply) ==> i in w.remote
  {
    if Took(reply) then WriteHost(w, i, w.remote[i].(enabled := enabled)) else w
  }

  /** The operator makes a host; its id was never used before. */
  function AddHost(w: World, key: Key, h: Host): World {
    w.(remote := w.remote[w.nextId := h], nextId := w.nextId + 1,
       log := w.log.(creator := w.log.creator[w.nextId := key]))
  }

  function To(w: World, p: Pass, stage: Stage): World {
    w.(pass := Some(p.(stage := stage)))
  }

  function Ended(w: World): World {
    w.(pass := None)
  }

  function Next(w: World, a: Action): World
    requires Can(w, a)
  {
    match a
    case UserCreates(key, spec) => Store(w, key, Resource(spec, EMPTY_STATUS, false, false, 0))
    case UserEdits(key, spec) => Store(w, key, w.kube[key].(spec := spec))
    case UserDeletes(key) => if w.kube[key].finalizer then Store(w, key, w.kube[key].(deleting := true))
                             else w.(kube := w.kube - {key})
    case OutsiderAdds(host) => w.(remote := w.remote[w.nextId := host], nextId := w.nextId + 1)
    case OutsiderEdits(id, host) => w.(remote := w.remote[id := host])
    case OutsiderRemoves(id) => w.(remote := w.remote - {id})
    case Begin(key) => w.(pass := Some(Pass(key, w.kube[key], Fetched)))
    case Stop => Ended(w)
    case _ => Step(w, w.pass.value, a)
  }

  function Step(w: World, p: Pass, a: Action): World
    requires CanStep(w, p, a) == true
  {
    match a
    case AddFinalizer(reply) =>
      if p.ph.finalizer then To(w, p, Guarded)
      else if reply.Refused? then Ended(w)
      else
        var w' := Store(w, p.key, p.ph.(finalizer := true));
        if reply.Lost? then Ended(w') else To(w', p.(ph := w'.kube[p.key]), Guarded)
    case EnterDeletion => To(w, p, Guarded)
    case Reread => w.(pass := Some(p.(ph := w.kube[p.key])))
    case SaveConditions(reply) => Save(w, p, p.ph.status.(conditions := true), reply)
    case CheckDomains => To(w, p, Unique)
    case Locate(choice) => To(w, p, LocatedStage(w, p.ph, choice))
    case EnableTarget(reply) => SetEnabled(w, p.stage.target.value.id, true, reply)
    case PutTarget(input, reply) =>
      var i := p.stage.target.value.id;
      var w' := if Took(reply) then WriteHost(w, i, Put(w.remote[i], input)) else w;
      if reply.Ok? then To(w', p, Written(p.stage.plan, i, input.certificateId, w'.remote[i].online))
      else To(w', p, Finished)
    case PostNew(input, reply) =>
      if reply.Refused? then To(w, p, Finished)
      else
        var i := w.nextId;
        var w' := AddHost(w, p.key, Post(input, w.supported));
        if reply.Ok? then To(w', p, Written(p.stage.plan, i, input.certificateId, true)) else To(w', p, Finished)
    case PutCustomFields(input, reply) =>
      if Took(reply) then WriteHost(w, p.stage.id, Put(w.remote[p.stage.id], input)) else w
    case SaveRecord(reply) =>
      var w' := Save(w, p, Recorded(p.ph.status, p.stage), reply);
      var w'' := if reply.Lost? then To(w', p, Finished) else w';
      if Took(reply) && p.stage.plan.snapshot.Some? && p.ph.status.snapshot.None?
      then SetLate(w'', if p.stage.plan.touched then w.log.late + {p.key} else w.log.late - {p.key})
      else w''
    case Restore(reply) =>
      var i := p.ph.status.id.value;
      var c := p.ph.status.snapshot.value;
      To(if Took(reply) then WriteBack(w, p.key, i, Put(w.remote[i], Restoration(c)), c) else w, p, Restored)
    case Reenable(reply) =>
      var i := p.ph.status.id.value;
      To(if Took(reply) then WriteBack(w, p.key, i, w.remote[i].(enabled := true), p.ph.status.snapshot.value) else w,
         p, Releasing(CleanupAttempted, None))
    case Disable(reply) => To(SetEnabled(w, p.ph.status.id.value, false, reply), p, Releasing(CleanupAttempted, None))
    case DeleteHost(reply) =>
      To(if Took(reply) then w.(remote := w.remote - {p.ph.status.id.value}) else w,
         p, Releasing(CleanupAttempted, None))
    case SkipReenable => To(w, p, Releasing(CleanupAttempted, None))
    case SkipCleanup(cause) => To(w, p, Releasing(cause, None))
    case FetchLatest => To(w, p, Releasing(p.stage.cause, Some(w.kube[p.key])))
    case DropFinalizer(reply) => Ended(if Took(reply) then w.(kube := w.kube - {p.key}) else w)
    case Fail => To(w, p, Finished)
  }

  function SetLate(w: World, late: set<Key>): World {
    w.(log := w.log.(late := late))
  }

  /** One attempt of UpdateStatus: the whole status of the local copy replaces the server's. */
  function Save(w: World, p: Pass, s: Status, reply: Reply): World {
    if reply.Refused? then w
    else
      var w' := Store(w, p.key, p.ph.(status := s));
      if reply.Ok? then w'.(pass := Some(p.(ph := w'.kube[p.key]))) else w'
  }

  /** The final status mutation: a captured or preserved snapshot is written, never erased. */
  function Recorded(s: Status, st: Stage): Status
    requires st.Written?
  {
    s.(id := Some(st.id), certificateId := st.certificateId, online := st.online, bound := st.plan.bound,
       snapshot := if st.plan.snapshot.Some? then st.plan.snapshot else s.snapshot)
  }

  function LocatedStage(w: World, ph: Resource, choice: Option<nat>): Stage
    requires CanLocate(w.remote, ph, choice)
  {
    var domains := ph.spec.domainNames;
    if ph.status.id.Some? then
      Located(Plan(domains, ph.status.bound, ph.status.snapshot, false),
              if choice.Some? then Some(Found(choice.value, w.remote[choice.value])) else None)
    else if choice.Some? then
      var h := w.remote[choice.value];
      Located(Plan(domains, true, if ShouldCaptureInitialConfig(ph) then Some(Capture(h)) else None,
                   choice.value in w.log.baseline || choice.value in w.log.creator),
              Some(Found(choice.value, h)))
    else Located(Plan(domains, ph.status.bound, None, false), None)
  }

  // ---------------------------------------------------------------- frames

  /** The steps that write to the API server. */
  predicate WritesKube(a: Action) {
    ByUser(a) || a.AddFinalizer? || a.SaveConditions? || a.SaveRecord? || a.DropFinalizer?
  }

  /** The steps by which the operator writes to Nginx Proxy Manager. */
  predicate WritesRemote(a: Action) {
    a.EnableTarget? || a.PutTarget? || a.PostNew? || a.PutCustomFields?
    || a.Restore? || a.Reenable? || a.Disable? || a.DeleteHost?
  }

  /** What a step does to Nginx Proxy Manager. */
  datatype Effect =
    | Nothing
    | Sets(id: nat, host: Host, snapshot: Option<InitialConfiguration>)  // with the snapshot a clean-up sends
    | Makes(host: Host)
    | Removes(id: nat)

  function Apply(w: World, key: Key, e: Effect): World
    requires e.Sets? ==> e.id in w.remote
  {
    match e
    case Nothing => w
    case Sets(i, h, None) => WriteHost(w, i, h)
    case Sets(i, h, Some(c)) => WriteBack(w, key, i, h, c)
    case Makes(h) => AddHost(w, key, h)
    case Removes(i) => w.(remote := w.remote - {i})
  }

  function EffectOf(w: World, a: Action): (e: Effect)
    requires Can(w, a) == true && WritesRemote(a)
    ensures e.Sets? ==> e.id in w.remote
  {
    var p := w.pass.value;
    if a.reply.Refused? then Nothing
    else match a
      case EnableTarget(_) =>
        var i := p.stage.target.value.id;
        Sets(i, w.remote[i].(enabled := true), None)
      case PutTarget(input, _) =>
        var i := p.stage.target.value.id;
        Sets(i, Put(w.remote[i], input), None)
      case PostNew(input, _) => Makes(Post(input, w.supported))
      case PutCustomFields(input, _) => Sets(p.stage.id, Put(w.remote[p.stage.id], input), None)
      case Restore(_) =>
        var i, c := p.ph.status.id.value, p.ph.status.snapshot.value;
        Sets(i, Put(w.remote[i], Restoration(c)), Some(c))
      case Reenable(_) =>
        var i := p.ph.status.id.value;
        Sets(i, w.remote[i].(enabled := true), p.ph.status.snapshot)
      case Disable(_) =>
        var i := p.ph.status.id.value;
        Sets(i, w.remote[i].(enabled := false), None)
      case DeleteHost(_) => Removes(p.ph.status.id.value)
  }

  lemma TargetStepEffect(w: World, a: Action)
    requires Can(w, a) && (a.EnableTarget? || a.PutTarget? || a.PutCustomFields?)
    ensures w.pass.Some? && Next(w, a) == Apply(w, w.pass.value.key, EffectOf(w, a)).(pass := Next(w, a).pass)
  {
    hide Put, WriteHost;
    forall i, h | i in w.remote { WriteHostFrame(w, i, h); }
  }

  lemma CleanupStepEffect(w: World, a: Action)
    requires Can(w, a) && (a.PostNew? || a.Restore? || a.Reenable? || a.Disable? || a.DeleteHost?)
    ensures w.pass.Some? && Next(w, a) == Apply(w, w.pass.value.key, EffectOf(w, a)).(pass := Next(w, a).pass)
  {
    hide Put, Post, Restoration, WriteHost, WriteBack;
    forall i, h | i in w.remote { WriteHostFrame(w, i, h); }
    forall key, i, h, c | i in w.remote { WriteBackFrame(w, key, i, h, c); }
  }

  /** A remote step changes nothing but the remote store, the history and the pass. */
  lemma RemoteStepEffect(w: World, a: Action)
    requires Can(w, a) && WritesRemote(a)
    ensures w.pass.Some? && Next(w, a) == Apply(w, w.pass.value.key, EffectOf(w, a)).(pass := Next(w, a).pass)
  {
    hide Can, Next, Apply, EffectOf;
    if a.EnableTarget? || a.PutTarget? || a.PutCustomFields? {
      TargetStepEffect(w, a);
    } else {
      CleanupStepEffect(w, a);
    }
  }

  lemma WriteHostFrame(w: World, i: nat, h: Host)
    requires i in w.remote
    ensures var w' := WriteHost(w, i, h);
            && w'.pass == w.pass && w'.kube == w.kube && w'.clock == w.clock && w'.nextId == w.nextId
            && w'.supported == w.supported
            && w'.log.creator == w.log.creator && w'.log.late == w.log.late && w'.remote == w.remote[i := h]
  {
  }

  lemma WriteBackFrame(w: World, key: Key, i: nat, h: Host, c: InitialConfiguration)
    requires i in w.remote
    ensures var w' := WriteBack(w, key, i, h, c);
            && w'.pass == w.pass && w'.kube == w.kube && w'.clock == w.clock && w'.nextId == w.nextId
            && w'.supported == w.supported
            && w'.log.creator == w.log.creator && w'.log.late == w.log.late && w'.remote == w.remote[i := h]
  {
    hide IsBack;
  }

  lemma OtherStepFrame(w: World, a: Action)
    requires Can(w, a) && !WritesRemote(a) && !WritesKube(a)
    ensures Next(w, a).kube == w.kube && Next(w, a).clock == w.clock && Next(w, a).log == w.log
    ensures !ByOutsider(a) ==> Next(w, a).remote == w.remote && Next(w, a).nextId == w.nextId
  {
    hide DomainsUnique, CanLocate, LocatedStage;
  }

  /** A step on the API server stores one object or removes one; remote store and history of hosts stay. */
  lemma UserStepFrame(w: World, a: Action)
    requires Can(w, a) && ByUser(a)
    ensures Next(w, a).remote == w.remote && Next(w, a).nextId == w.nextId
    ensures Next(w, a).log == w.log && Next(w, a).pass == w.pass
    ensures forall k :: k in w.kube && k in Next(w, a).kube ==> Next(w, a).kube[k].status == w.kube[k].status
    ensures forall k :: k in w.kube && k !in Next(w, a).kube ==> !w.kube[k].finalizer
    ensures forall k :: k !in w.kube && k in Next(w, a).kube ==> Next(w, a).kube[k].status == EMPTY_STATUS
  {
  }

  /** From w to w' only the object at `key` may have been stored. */
  ghost predicate OnlyStores(w: World, w': World, key: Key) {
    && w'.remote == w.remote && w'.nextId == w.nextId
    && w'.log.creator == w.log.creator && w'.log.baseline == w.log.baseline
    && (forall k :: k != key && k in w.kube ==> k in w'.kube && w'.kube[k] == w.kube[k])
    && (forall k :: k != key && k in w'.kube ==> k in w.kube)
    && (key in w.kube ==> key in w'.kube)
  }

  lemma AddFinalizerFrame(w: World, a: Action)
    requires Can(w, a) && a.AddFinalizer?
    ensures w.pass.Some? && OnlyStores(w, Next(w, a), w.pass.value.key)
  {
  }

  lemma SaveFrame(w: World, p: Pass, st: Status, reply: Reply)
    ensures var w' := Save(w, p, st, reply);
            OnlyStores(w, w', p.key) && w'.log == w.log && (!reply.Ok? ==> w'.pass == w.pass)
  {
  }

  lemma SaveStepFrame(w: World, a: Action)
    requires Can(w, a) && (a.AddFinalizer? || a.SaveConditions? || a.SaveRecord?)
    ensures w.pass.Some? && OnlyStores(w, Next(w, a), w.pass.value.key)
  {
    if a.AddFinalizer? {
      hide Can, Next, OnlyStores;
      AddFinalizerFrame(w, a);
    } else if a.SaveConditions? {
      hide Save;
      SaveFrame(w, w.pass.value, w.pass.value.ph.status.(conditions := true), a.reply);
    } else {
      hide Save, Recorded;
      SaveFrame(w, w.pass.value, Recorded(w.pass.value.ph.status, w.pass.value.stage), a.reply);
    }
  }

  lemma DropStepFrame(w: World, a: Action)
    requires Can(w, a) && a.DropFinalizer?
    ensures w.pass.Some?
    ensures var p, w' := w.pass.value, Next(w, a);
            && w'.remote == w.remote && w'.nextId == w.nextId && w'.log == w.log
            && w'.kube == (if Took(a.reply) then w.kube - {p.key} else w.kube)
  {
  }

  /** Only the operator's remote steps and outsiders change the remote store. */
  lemma QuietStepFrame(w: World, a: Action)
    requires Can(w, a) && !WritesRemote(a) && !ByOutsider(a)
    ensures Next(w, a).remote == w.remote && Next(w, a).nextId == w.nextId
    ensures Next(w, a).log.creator == w.log.creator && Next(w, a).log.baseline == w.log.baseline
  {
    hide Can, Next;
    if ByUser(a) {
      UserStepFrame(w, a);
    } else if a.DropFinalizer? {
      DropStepFrame(w, a);
    } else if WritesKube(a) {
      SaveStepFrame(w, a);
    } else {
      OtherStepFrame(w, a);
    }
  }

  // ---------------------------------------------------------------- runs

  predicate Legal(w: World, run: seq<Action>)
    decreases |run|
  {
    run == [] || (Can(w, run[0]) && Legal(Next(w, run[0]), run[1..]))
  }

  function Exec(w: World, run: seq<Action>): World
    requires Legal(w, run)
    decreases |run|
  {
    if run == [] then w else Exec(Next(w, run[0]), run[1..])
  }

  /** Where a run starts: an operator that has done nothing yet, on any hosts and any new resources. */
  predicate Init(w: World) {
    && w.pass.None?
    && w.log == Log(map[], map[], {})
    && (forall i :: i in w.remote ==> i < w.nextId)
    && (forall k :: k in w.kube ==>
          && w.kube[k].status == EMPTY_STATUS && !w.kube[k].finalizer
          && !w.kube[k].deleting && w.kube[k].version <= w.clock)
  }

  // ---------------------------------------------------------------- the invariant of every run

  /** A stored claim: bound exactly with a snapshot; the finalizer guards it; an unbound id is the
      answer of this resource's own POST. */
  predicate ClaimOk(log: Log, nextId: nat, k: Key, c: Claim) {
    && (c.bound <==> c.snapshot.Some?)
    && (c.bound ==> c.id.Some?)
    && (c.id.Some? ==> c.id.value < nextId)
    && (c.id.Some? && !c.bound ==> c.id.value in log.creator && log.creator[c.id.value] == k)
  }

  predicate ResourceOk(w: World, k: Key)
    requires k in w.kube
  {
    var r := w.kube[k];
    && r.version <= w.clock
    && (r.status.id.Some? || r.deleting ==> r.finalizer)
    && ClaimOk(w.log, w.nextId, k, ClaimOf(r.status))
  }

  /** A copy with the server's version is the server's object. */
  predicate CopyOk(w: World, k: Key, r: Resource) {
    r.version <= w.clock && (Current(w, k, r) ==> w.kube[k] == r)
  }

  /** The finalizer keeps the object of a pass alive, and only this pass changes its claim. */
  predicate Held(w: World, p: Pass) {
    && p.ph.finalizer
    && p.key in w.kube && w.kube[p.key].finalizer
    && (!p.stage.Finished? ==> ClaimOf(w.kube[p.key].status) == ClaimOf(p.ph.status))
    && (p.ph.deleting ==> w.kube[p.key].deleting)
  }

  predicate PlanOk(ph: Resource, plan: Plan) {
    && (plan.bound <==> plan.snapshot.Some?)
    && (ph.status.bound ==> plan.bound && plan.snapshot == ph.status.snapshot)
  }

  predicate StageOk(w: World, p: Pass) {
    match p.stage
    case Fetched => p.ph.deleting ==> p.ph.finalizer
    case Guarded => true
    case Unique => true
    case Finished => true
    case Located(plan, target) => PlanOk(p.ph, plan)
        && (target.Some? ==> target.value.id < w.nextId && (!plan.bound ==> p.ph.status.id == Some(target.value.id)))
    case Written(plan, id, _, _) => PlanOk(p.ph, plan) && id < w.nextId
        && (!plan.bound ==> id in w.log.creator && w.log.creator[id] == p.key)
    case Restored => p.ph.deleting
    case Releasing(cause, latest) =>
        && p.ph.deleting && (cause.NothingRemote? ==> p.ph.status.id.None?)
        && (latest.Some? ==> CopyOk(w, p.key, latest.value))
  }

  predicate PassOk(w: World, p: Pass) {
    && CopyOk(w, p.key, p.ph)
    && (p.ph.finalizer || !p.stage.Fetched? ==> Held(w, p))
    && StageOk(w, p)
  }

  predicate IdsOk(w: World) {
    && (forall i :: i in w.remote ==> i < w.nextId)
    && (forall i :: i in w.log.creator ==> i < w.nextId && i !in w.log.baseline)
    && (forall i :: i in w.log.baseline ==> i < w.nextId)
  }

  ghost predicate Parts(w: World) {
    && IdsOk(w)
    && (forall k :: k in w.kube ==> ResourceOk(w, k))
    && (w.pass.Some? ==> PassOk(w, w.pass.value))
  }

  /** The comparison keeps the verifier from unfolding the invariant at every call that requires it. */
  ghost predicate Inv(w: World) {
    Parts(w) == true
  }

  lemma CreateKeepsInv(w: World, a: Action)
    requires Inv(w) && Can(w, a) && a.UserCreates?
    ensures Inv(Next(w, a))
  {
  }

  lemma EditKeepsInv(w: World, a: Action)
    requires Inv(w) && Can(w, a) && a.UserEdits?
    ensures Inv(Next(w, a))
  {
  }

  lemma UserDeleteKeepsInv(w: World, a: Action)
    requires Inv(w) && Can(w, a) && a.UserDeletes?
    ensures Inv(Next(w, a))
  {
  }

  lemma OutsiderKeepsInv(w: World, a: Action)
    requires Inv(w) && Can(w, a) && ByOutsider(a)
    ensures Inv(Next(w, a))
  {
  }

  lemma BeginKeepsInv(w: World, a: Action)
    requires Inv(w) && Can(w, a) && (a.Fail? || a.Begin? || a.Stop? || a.EnterDeletion?)
    ensures Inv(Next(w, a))
  {
  }

  lemma ReadKeepsInv(w: World, a: Action)
    requires Inv(w) && Can(w, a) && (a.Reread? || a.FetchLatest?)
    ensures Inv(Next(w, a))
  {
  }

  lemma CheckKeepsInv(w: World, a: Action)
    requires Inv(w) && Can(w, a) && (a.CheckDomains? || a.SkipReenable? || a.SkipCleanup?)
    ensures Inv(Next(w, a))
  {
    hide DomainsUnique;
  }

  lemma LocateKeepsInv(w: World, a: Action)
    requires Inv(w) && Can(w, a) && a.Locate?
    ensures Inv(Next(w, a))
  {
    hide DomainsMatch, Capture;
  }

  /** Storing the finalizer on an unchanged object makes the pass hold it. */
  lemma GrantKeepsInv(w: World, p: Pass)
    requires Inv(w) && w.pass == Some(p) && p.stage.Fetched? && !p.ph.deleting && Current(w, p.key, p.ph)
    ensures var w' := Store(w, p.key, p.ph.(finalizer := true));
            Inv(Ended(w')) && Inv(To(w', p.(ph := w'.kube[p.key]), Guarded))
  {
    assert w.kube[p.key] == p.ph && ResourceOk(w, p.key);
  }

  lemma AddFinalizerKeepsInv(w: World, a: Action)
    requires Inv(w) && Can(w, a) && a.AddFinalizer?
    ensures Inv(Next(w, a))
  {
    var p := w.pass.value;
    if !p.ph.finalizer && !a.reply.Refused? {
      hide Store;
      GrantKeepsInv(w, p);
    }
  }

  lemma DropFinalizerKeepsInv(w: World, a: Action)
    requires Inv(w) && Can(w, a) && a.DropFinalizer?
    ensures Inv(Next(w, a))
  {
  }

  /** Storing a status keeps every resource in order when its claim is sound. */
  lemma StoredResourcesOk(w: World, p: Pass, st: Status)
    requires Inv(w) && w.pass == Some(p) && !p.stage.Fetched? && Current(w, p.key, p.ph)
    requires ClaimOk(w.log, w.nextId, p.key, ClaimOf(st))
    ensures var w' := Store(w, p.key, p.ph.(status := st));
            forall k :: k in w'.kube ==> ResourceOk(w', k)
  {
    hide IdsOk, StageOk;
  }

  /** A pass that holds its object still does after storing a status that agrees with its stage. */
  lemma StoredPassOk(w: World, p: Pass, st: Status, reply: Reply, stage: Stage)
    requires Inv(w) && w.pass == Some(p) && !p.stage.Fetched? && Current(w, p.key, p.ph) && Took(reply)
    requires stage == Finished || (stage == p.stage && (reply.Lost? ==> ClaimOf(st) == ClaimOf(p.ph.status)))
    requires stage.Located? || stage.Written? ==> PlanOk(p.ph.(status := st), stage.plan)
    requires !stage.Written? && !stage.Finished? ==> ClaimOf(st) == ClaimOf(p.ph.status)
    ensures var w' := Save(w, p, st, reply);
            w'.pass.Some? && w'.pass.value.stage == p.stage && PassOk(w', w'.pass.value.(stage := stage))
  {
    hide IdsOk, ResourceOk;
  }

  /** Storing a status keeps the invariant when its claim is sound and the pass agrees with it. */
  lemma SaveKeepsInv(w: World, p: Pass, st: Status, reply: Reply, stage: Stage)
    requires Inv(w) && w.pass == Some(p) && !p.stage.Fetched?
    requires Took(reply) ==> Current(w, p.key, p.ph)
    requires Took(reply) ==> ClaimOk(w.log, w.nextId, p.key, ClaimOf(st))
    requires stage == Finished || (stage == p.stage && (reply.Lost? ==> ClaimOf(st) == ClaimOf(p.ph.status)))
    requires stage.Located? || stage.Written? ==> PlanOk(p.ph.(status := st), stage.plan)
    requires !stage.Written? && !stage.Finished? ==> ClaimOf(st) == ClaimOf(p.ph.status)
    ensures var w' := Save(w, p, st, reply);
            w'.pass.Some? && w'.pass.value.stage == p.stage && Inv(To(w', w'.pass.value, stage))
  {
    if Took(reply) {
      StoredResourcesOk(w, p, st);
      StoredPassOk(w, p, st, reply, stage);
      hide StageOk, ClaimOk, CopyOk, PlanOk, Held;
    } else {
      RefusedKeepsInv(w, p, stage);
    }
  }

  lemma RefusedKeepsInv(w: World, p: Pass, stage: Stage)
    requires Inv(w) && w.pass == Some(p) && !p.stage.Fetched? && (stage == p.stage || stage == Finished)
    ensures Inv(To(w, p, stage))
  {
    hide ClaimOk;
    assert PassOk(w, p);
  }

  lemma LateIsFree(w: World, late: set<Key>)
    requires Inv(w)
    ensures Inv(SetLate(w, late))
  {
  }

  lemma SaveConditionsKeepsInv(w: World, a: Action)
    requires Inv(w) && Can(w, a) && a.SaveConditions?
    ensures Inv(Next(w, a))
  {
    hide Save;
    var p := w.pass.value;
    SaveKeepsInv(w, p, p.ph.status.(conditions := true), a.reply, p.stage);
  }

  lemma RecordIsSound(w: World, p: Pass)
    requires Inv(w) && w.pass == Some(p) && p.stage.Written?
    ensures ClaimOk(w.log, w.nextId, p.key, ClaimOf(Recorded(p.ph.status, p.stage)))
    ensures PlanOk(p.ph.(status := Recorded(p.ph.status, p.stage)), p.stage.plan)
  {
  }

  lemma SaveRecordKeepsInv(w: World, a: Action)
    requires Inv(w) && Can(w, a) && a.SaveRecord?
    ensures Inv(Next(w, a))
  {
    hide Save, Recorded, Inv;
    var p := w.pass.value;
    var st := Recorded(p.ph.status, p.stage);
    var stage := if a.reply.Lost? then Finished else p.stage;
    RecordIsSound(w, p);
    SaveKeepsInv(w, p, st, a.reply, stage);
    var w' := Save(w, p, st, a.reply);
    SaveFrame(w, p, st, a.reply);
    LateIsFree(To(w', w'.pass.value, stage), w.log.late + {p.key});
    LateIsFree(To(w', w'.pass.value, stage), w.log.late - {p.key});
  }

  lemma WriteBackKeepsInv(w: World, key: Key, i: nat, h: Host, c: InitialConfiguration)
    requires Inv(w) && i in w.remote
    ensures Inv(WriteBack(w, key, i, h, c))
  {
    hide IsBack;
  }

  lemma WriteHostKeepsInv(w: World, i: nat, h: Host)
    requires Inv(w) && i in w.remote
    ensures Inv(WriteHost(w, i, h))
  {
  }

  /** A pass that holds its object may go on to any stage that is in order. */
  lemma AdvanceKeepsInv(w: World, p: Pass, stage: Stage)
    requires Inv(w) && w.pass == Some(p)
    requires !p.stage.Fetched? && !p.stage.Finished? && !stage.Fetched?
    requires StageOk(w, p.(stage := stage))
    ensures Inv(To(w, p, stage))
  {
  }

  lemma EnableKeepsInv(w: World, a: Action)
    requires Inv(w) && Can(w, a) && a.EnableTarget?
    ensures Inv(Next(w, a))
  {
    hide WriteHost;
    var i := w.pass.value.stage.target.value.id;
    if Took(a.reply) {
      WriteHostKeepsInv(w, i, w.remote[i].(enabled := true));
    }
  }

  /** A bound claim has a snapshot, so the branch for one without is never taken. */
  lemma NoDisable(w: World, reply: Reply)
    requires Inv(w)
    ensures !Can(w, Disable(reply))
  {
    assert w.pass.Some? && w.pass.value.key in w.kube ==> ResourceOk(w, w.pass.value.key);
  }

  lemma ReenableKeepsInv(w: World, a: Action)
    requires Inv(w) && Can(w, a) && a.Reenable?
    ensures Inv(Next(w, a))
  {
    hide WriteBack;
    var p := w.pass.value;
    if Took(a.reply) {
      var i, c := p.ph.status.id.value, p.ph.status.snapshot.value;
      var h := w.remote[i].(enabled := true);
      WriteBackKeepsInv(w, p.key, i, h, c);
      WriteBackFrame(w, p.key, i, h, c);
      AdvanceKeepsInv(WriteBack(w, p.key, i, h, c), p, Releasing(CleanupAttempted, None));
    } else {
      AdvanceKeepsInv(w, p, Releasing(CleanupAttempted, None));
    }
  }

  lemma PutKeepsInv(w: World, a: Action)
    requires Inv(w) && Can(w, a) && a.PutTarget?
    ensures Inv(Next(w, a))
  {
    hide Put, WriteHost;
    var p := w.pass.value;
    var i := p.stage.target.value.id;
    if Took(a.reply) {
      var h := Put(w.remote[i], a.input);
      WriteHostKeepsInv(w, i, h);
      WriteHostFrame(w, i, h);
      var w' := WriteHost(w, i, h);
      AdvanceKeepsInv(w', p, if a.reply.Ok? then Written(p.stage.plan, i, a.input.certificateId, h.online)
                             else Finished);
    } else {
      AdvanceKeepsInv(w, p, Finished);
    }
  }

  lemma PutCustomKeepsInv(w: World, a: Action)
    requires Inv(w) && Can(w, a) && a.PutCustomFields?
    ensures Inv(Next(w, a))
  {
    hide Put, WriteHost;
    var p := w.pass.value;
    if Took(a.reply) {
      WriteHostKeepsInv(w, p.stage.id, Put(w.remote[p.stage.id], a.input));
    }
  }

  lemma RestoreKeepsInv(w: World, a: Action)
    requires Inv(w) && Can(w, a) && a.Restore?
    ensures Inv(Next(w, a))
  {
    hide Put, Restoration, WriteBack;
    var p := w.pass.value;
    if Took(a.reply) {
      var i, c := p.ph.status.id.value, p.ph.status.snapshot.value;
      var h := Put(w.remote[i], Restoration(c));
      WriteBackKeepsInv(w, p.key, i, h, c);
      WriteBackFrame(w, p.key, i, h, c);
      AdvanceKeepsInv(WriteBack(w, p.key, i, h, c), p, Restored);
    } else {
      AdvanceKeepsInv(w, p, Restored);
    }
  }

  lemma AddHostKeepsInv(w: World, key: Key, h: Host)
    requires Inv(w)
    ensures Inv(AddHost(w, key, h))
  {
  }

  lemma PostKeepsInv(w: World, a: Action)
    requires Inv(w) && Can(w, a) && a.PostNew?
    ensures Inv(Next(w, a))
  {
    hide Post, Inv;
    var p := w.pass.value;
    if a.reply.Refused? {
      AdvanceKeepsInv(w, p, Finished);
    } else {
      var w' := AddHost(w, p.key, Post(a.input, w.supported));
      AddHostKeepsInv(w, p.key, Post(a.input, w.supported));
      PlanOfPass(w, p);
      AdvanceKeepsInv(w', p, if a.reply.Ok? then Written(p.stage.plan, w.nextId, a.input.certificateId, true)
                             else Finished);
    }
  }

  lemma PlanOfPass(w: World, p: Pass)
    requires Inv(w) && w.pass == Some(p) && (p.stage.Located? || p.stage.Written?)
    ensures PlanOk(p.ph, p.stage.plan)
  {
  }

  lemma DeleteKeepsInv(w: World, a: Action)
    requires Inv(w) && Can(w, a) && a.DeleteHost?
    ensures Inv(Next(w, a))
  {
  }

  lemma StepKeepsInv(w: World, a: Action)
    requires Inv(w) && Can(w, a)
    ensures Inv(Next(w, a))
  {
    hide Inv, Can, Next;
    if a.UserCreates? {
      CreateKeepsInv(w, a);
    } else if a.UserEdits? {
      EditKeepsInv(w, a);
    } else if a.UserDeletes? {
      UserDeleteKeepsInv(w, a);
    } else if a.OutsiderAdds? || a.OutsiderEdits? || a.OutsiderRemoves? {
      OutsiderKeepsInv(w, a);
    } else if a.Begin? || a.Stop? || a.Fail? || a.EnterDeletion? {
      BeginKeepsInv(w, a);
    } else if a.Reread? || a.FetchLatest? {
      ReadKeepsInv(w, a);
    } else if a.CheckDomains? || a.SkipReenable? || a.SkipCleanup? {
      CheckKeepsInv(w, a);
    } else if a.Locate? {
      LocateKeepsInv(w, a);
    } else if a.AddFinalizer? {
      AddFinalizerKeepsInv(w, a);
    } else if a.DropFinalizer? {
      DropFinalizerKeepsInv(w, a);
    } else if a.SaveConditions? {
      SaveConditionsKeepsInv(w, a);
    } else if a.SaveRecord? {
      SaveRecordKeepsInv(w, a);
    } else if a.EnableTarget? {
      EnableKeepsInv(w, a);
    } else if a.Reenable? {
      ReenableKeepsInv(w, a);
    } else if a.Disable? {
      NoDisable(w, a.reply);
    } else if a.PutTarget? {
      PutKeepsInv(w, a);
    } else if a.PutCustomFields? {
      PutCustomKeepsInv(w, a);
    } else if a.Restore? {
      RestoreKeepsInv(w, a);
    } else if a.PostNew? {
      PostKeepsInv(w, a);
    } else if a.DeleteHost? {
      DeleteKeepsInv(w, a);
    }
  }

  lemma InitOk(w: World)
    requires Init(w)
    ensures Inv(w)
  {
  }

  /** Every run with crashes, failed calls, spec edits and outside edits keeps the invariant. */
  lemma {:induction false} RunKeepsInv(w: World, run: seq<Action>)
    requires Inv(w) && Legal(w, run)
    ensures Inv(Exec(w, run))
    decreases |run|
  {
    hide Inv, Can, Next;
    if run != [] {
      StepKeepsInv(w, run[0]);
      RunKeepsInv(Next(w, run[0]), run[1..]);
    }
  }

  // ---------------------------------------------------------------- composing runs

  lemma {:induction false} LegalAppend(w: World, run: seq<Action>, a: Action)
    requires Legal(w, run) && Can(Exec(w, run), a)
    ensures Legal(w, run + [a]) && Exec(w, run + [a]) == Next(Exec(w, run), a)
    decreases |run|
  {
    hide Can, Next;
    if run == [] {
      assert [a][1..] == [];
      assert [] + [a] == [a];
    } else {
      LegalAppend(Next(w, run[0]), run[1..], a);
      assert (run + [a])[1..] == run[1..] + [a];
    }
  }
}
