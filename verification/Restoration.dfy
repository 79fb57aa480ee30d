/** Adopting a host, reconciling it any number of times and deleting the resource gives the host back
    (internal/controller/proxyhost/initial_config.go, proxyhost_controller.go:202-273). */
module Restoration {
  import opened Text
  import opened Npm
  import opened Api
  import opened Lifecycle
  import opened Safety

  // ---------------------------------------------------------------- invariant: snapshots are originals

  /** The configuration is the same, and what was enabled still is. */
  predicate Preserves(h: Host, original: Host) {
    SameConfiguration(h, original) && (original.enabled ==> h.enabled)
  }

  /** A snapshot from which a host with the configuration of the original can be rebuilt. */
  predicate Shows(c: InitialConfiguration, original: Host) {
    c.(enabled := original.enabled) == Capture(original) && (original.enabled ==> c.enabled)
  }

  lemma CaptureShows(h: Host, original: Host)
    requires Preserves(h, original)
    ensures Shows(Capture(h), original)
  {
  }

  lemma BackPreserves(h: Host, c: InitialConfiguration, original: Host)
    requires IsBack(h, c) && Shows(c, original)
    ensures Preserves(h, original)
  {
  }

  /** `original` is a host that the operator did not make. As long as it counts as never written to, and in
      what was remembered at the first write, its configuration is preserved. */
  predicate StoreKept(original: Found, w: World) {
    && original.id < w.nextId && original.id !in w.log.creator
    && (original.id in w.log.baseline ==> Preserves(w.log.baseline[original.id], original.host))
    && (original.id in w.remote && original.id !in w.log.baseline ==> Preserves(w.remote[original.id], original.host))
  }

  /** A snapshot of this host that was not taken late shows the original. */
  predicate ClaimKept(original: Found, log: Log, k: Key, c: Claim) {
    c.snapshot.Some? && c.id == Some(original.id) && k !in log.late ==> Shows(c.snapshot.value, original.host)
  }

  ghost predicate ClaimsKept(original: Found, w: World) {
    forall k :: k in w.kube ==> ClaimKept(original, w.log, k, ClaimOf(w.kube[k].status))
  }

  predicate PlanKept(original: Found, ph: Resource, plan: Plan, id: nat) {
    id == original.id ==>
      && (ph.status.snapshot.None? && plan.snapshot.Some? && !plan.touched ==>
            Shows(plan.snapshot.value, original.host))
      && (ph.status.snapshot.Some? ==> ph.status.id == Some(id))
  }

  predicate PassKept(original: Found, p: Pass) {
    match p.stage
    case Located(plan, Some(f)) => PlanKept(original, p.ph, plan, f.id)
    case Written(plan, id, _, _) => PlanKept(original, p.ph, plan, id)
    case _ => true
  }

  ghost predicate KeptParts(original: Found, w: World) {
    StoreKept(original, w) && ClaimsKept(original, w) && (w.pass.Some? ==> PassKept(original, w.pass.value))
  }

  /** The comparison keeps the verifier from unfolding the invariant at every call. */
  ghost predicate Kept(original: Found, w: World) {
    KeptParts(original, w) == true
  }

  /** A clean-up effect carries a snapshot of this host that shows the original, unless it was taken late. */
  predicate EffectKept(original: Found, w: World, key: Key, e: Effect) {
    e.Sets? && e.id == original.id && e.snapshot.Some? && key !in w.log.late ==> Shows(e.snapshot.value, original.host)
  }

  lemma WriteBackKeepsStore(original: Found, w: World, key: Key, e: Effect)
    requires StoreKept(original, w) && EffectKept(original, w, key, e)
    requires e.Sets? && e.snapshot.Some? && e.id in w.remote
    ensures StoreKept(original, WriteBack(w, key, e.id, e.host, e.snapshot.value))
  {
    hide Shows, Preserves, IsBack;
    if e.id == original.id && key !in w.log.late && IsBack(e.host, e.snapshot.value) {
      BackPreserves(e.host, e.snapshot.value, original.host);
    }
  }

  lemma ApplyKeepsStore(original: Found, w: World, key: Key, e: Effect)
    requires StoreKept(original, w) && (e.Sets? ==> e.id in w.remote) && EffectKept(original, w, key, e)
    ensures StoreKept(original, Apply(w, key, e))
  {
    hide Shows, Preserves;
    if e.Sets? && e.snapshot.Some? {
      hide WriteBack;
      WriteBackKeepsStore(original, w, key, e);
    }
  }

  lemma CleanupEffectKept(original: Found, w: World, a: Action)
    requires Inv(w) && Kept(original, w) && Can(w, a) && WritesRemote(a)
    ensures EffectKept(original, w, w.pass.value.key, EffectOf(w, a))
  {
    hide Shows, Put, Post;
    if a.Restore? || a.Reenable? {
      CleaningClaim(original, w, w.pass.value);
    }
  }

  lemma CleaningClaim(original: Found, w: World, p: Pass)
    requires Inv(w) && Kept(original, w) && w.pass == Some(p) && !p.stage.Fetched? && !p.stage.Finished?
    ensures ClaimKept(original, w.log, p.key, ClaimOf(p.ph.status))
  {
    hide Shows;
    assert PassOk(w, p) && ClaimKept(original, w.log, p.key, ClaimOf(w.kube[p.key].status));
  }

  lemma PutPassKept(original: Found, w: World, a: Action)
    requires Inv(w) && Kept(original, w) && Can(w, a) && (a.PutTarget? || a.EnableTarget? || a.PutCustomFields?)
    ensures Next(w, a).pass.Some? ==> PassKept(original, Next(w, a).pass.value)
  {
    var p := w.pass.value;
    hide Put, Inv, Kept, WriteHost, Shows;
    forall i, h | i in w.remote { WriteHostFrame(w, i, h); }
    KeptPass(original, w, p);
  }

  lemma KeptPass(original: Found, w: World, p: Pass)
    requires Kept(original, w) && w.pass == Some(p)
    ensures PassKept(original, p)
  {
  }

  lemma PostPassKept(original: Found, w: World, a: Action)
    requires Inv(w) && Kept(original, w) && Can(w, a) && a.PostNew?
    ensures Next(w, a).pass.Some? ==> PassKept(original, Next(w, a).pass.value)
  {
    hide Post, Shows;
    assert IdsOk(w) && PassOk(w, w.pass.value);
  }

  /** The pass after a remote step. */
  lemma RemotePassKept(original: Found, w: World, a: Action)
    requires Inv(w) && Kept(original, w) && Can(w, a) && WritesRemote(a)
    ensures Next(w, a).pass.Some? ==> PassKept(original, Next(w, a).pass.value)
  {
    if a.PutTarget? || a.EnableTarget? || a.PutCustomFields? {
      hide Can, Next, Inv, Kept;
      PutPassKept(original, w, a);
    } else if a.PostNew? {
      hide Can, Next, Inv, Kept;
      PostPassKept(original, w, a);
    } else {
      hide Inv, Kept, Put, Npm.Restoration, WriteHost, WriteBack;
    }
  }

  lemma RemoteStepKeeps(original: Found, w: World, a: Action)
    requires Inv(w) && Kept(original, w) && Can(w, a) && WritesRemote(a)
    ensures Kept(original, Next(w, a))
  {
    RemotePassKept(original, w, a);
    CleanupEffectKept(original, w, a);
    hide Can, Next, Inv, Apply, EffectOf, StoreKept, EffectKept, PassKept, Shows;
    RemoteStepEffect(w, a);
    ApplyKeepsStore(original, w, w.pass.value.key, EffectOf(w, a));
    ApplyFrame(w, w.pass.value.key, EffectOf(w, a));
    SameClaims(original, w, Next(w, a));
  }

  lemma SameClaims(original: Found, w: World, w': World)
    requires ClaimsKept(original, w) && w'.kube == w.kube && w'.log.late == w.log.late
    ensures ClaimsKept(original, w')
  {
    hide Shows;
  }

  lemma LocateKeeps(original: Found, w: World, a: Action)
    requires Inv(w) && Kept(original, w) && Can(w, a) && a.Locate?
    ensures Kept(original, Next(w, a))
  {
    hide Capture, DomainsMatch, Preserves, Shows;
    assert PassOk(w, w.pass.value);
    if a.choice == Some(original.id) && original.id !in w.log.baseline {
      CaptureShows(w.remote[original.id], original.host);
    }
  }

  lemma OtherStepKeeps(original: Found, w: World, a: Action)
    requires Inv(w) && Kept(original, w) && Can(w, a) && !WritesRemote(a) && !WritesKube(a)
    requires !ByOutsider(a) && !a.Locate?
    ensures Kept(original, Next(w, a))
  {
    hide Preserves, DomainsUnique, Shows;
    assert w.pass.Some? ==> PassOk(w, w.pass.value);
    OtherStepFrame(w, a);
  }

  lemma UserStepKeeps(original: Found, w: World, a: Action)
    requires Inv(w) && Kept(original, w) && Can(w, a) && ByUser(a)
    ensures Kept(original, Next(w, a))
  {
    hide Can, Next, Inv, Preserves, Shows;
    UserStepFrame(w, a);
  }

  ghost predicate SavedKept(original: Found, w: World, k: Key) {
    && (k in w.kube ==> ClaimKept(original, w.log, k, ClaimOf(w.kube[k].status)))
    && (w.pass.Some? ==> PassKept(original, w.pass.value))
  }

  lemma GrantKept(original: Found, w: World, a: Action)
    requires Inv(w) && Kept(original, w) && Can(w, a) && a.AddFinalizer?
    ensures SavedKept(original, Next(w, a), w.pass.value.key)
  {
    hide Shows;
    assert PassOk(w, w.pass.value);
  }

  lemma SaveResult(w: World, p: Pass, st: Status, reply: Reply)
    requires w.pass == Some(p)
    ensures var w' := Save(w, p, st, reply);
            && w'.log == w.log && w'.pass.Some? && w'.pass.value.stage == p.stage
            && w'.pass.value.ph.status == (if reply.Ok? then st else p.ph.status)
            && (Took(reply) ==> p.key in w'.kube && w'.kube[p.key].status == st)
            && (!Took(reply) ==> w' == w)
  {
  }

  lemma ConditionsKept(original: Found, w: World, a: Action)
    requires Inv(w) && Kept(original, w) && Can(w, a) && a.SaveConditions?
    ensures SavedKept(original, Next(w, a), w.pass.value.key)
  {
    var p := w.pass.value;
    assert Current(w, p.key, p.ph) ==> w.kube[p.key] == p.ph;
    assert p.key in w.kube ==> ClaimKept(original, w.log, p.key, ClaimOf(w.kube[p.key].status));
    hide Save, Shows, Inv;
    SaveResult(w, p, p.ph.status.(conditions := true), a.reply);
  }

  /** The claim a pass is about to record is sound for the history that goes with it. */
  lemma RecordedClaimKept(original: Found, w: World, p: Pass)
    requires Inv(w) && Kept(original, w) && w.pass == Some(p) && p.stage.Written?
    ensures var c := ClaimOf(Recorded(p.ph.status, p.stage));
            var late := p.ph.status.snapshot.None? && p.stage.plan.snapshot.Some? && p.stage.plan.touched;
            c.snapshot.Some? && c.id == Some(original.id) && !late
            && (p.ph.status.snapshot.Some? ==> p.key !in w.log.late)
            ==> Shows(c.snapshot.value, original.host)
  {
    hide Shows;
    assert PassOk(w, p) && ClaimKept(original, w.log, p.key, ClaimOf(w.kube[p.key].status));
  }

  /** What the status write leaves: the recorded status unless refused, and the decision about lateness. */
  lemma RecordShape(w: World, a: Action)
    requires Can(w, a) && a.SaveRecord?
    ensures var p, w' := w.pass.value, Next(w, a);
            var st := Recorded(p.ph.status, p.stage);
            && w'.log.creator == w.log.creator && w'.log.baseline == w.log.baseline
            && (p.key in w'.kube ==> w'.kube[p.key].status == (if Took(a.reply) then st else w.kube[p.key].status))
            && (p.key in w'.log.late <==>
                  if Took(a.reply) && p.stage.plan.snapshot.Some? && p.ph.status.snapshot.None?
                  then p.stage.plan.touched else p.key in w.log.late)
            && w'.pass.Some?
            && (w'.pass.value.stage == Finished
                || (w'.pass.value.stage == p.stage
                    && w'.pass.value.ph.status == (if a.reply.Ok? then st else p.ph.status)))
  {
    var p := w.pass.value;
    hide Save, Recorded;
    SaveResult(w, p, Recorded(p.ph.status, p.stage), a.reply);
  }

  lemma RecordKept(original: Found, w: World, a: Action)
    requires Inv(w) && Kept(original, w) && Can(w, a) && a.SaveRecord?
    ensures SavedKept(original, Next(w, a), w.pass.value.key)
  {
    var p := w.pass.value;
    RecordedClaimKept(original, w, p);
    KeptPass(original, w, p);
    HeldClaim(original, w, p);
    RecordedFacts(p.ph.status, p.stage);
    RecordShape(w, a);
    hide Can, Next, Shows, Inv, Kept, PlanOk, Recorded;
  }

  lemma RecordedFacts(s: Status, st: Stage)
    requires st.Written?
    ensures var r := Recorded(s, st);
            r.id == Some(st.id) && r.snapshot == (if st.plan.snapshot.Some? then st.plan.snapshot else s.snapshot)
  {
  }

  lemma HeldClaim(original: Found, w: World, p: Pass)
    requires Inv(w) && Kept(original, w) && w.pass == Some(p) && p.stage.Written?
    ensures p.key in w.kube && ClaimKept(original, w.log, p.key, ClaimOf(w.kube[p.key].status))
    ensures PlanOk(p.ph, p.stage.plan)
    ensures p.ph.status.snapshot.Some? ==> p.ph.status.bound
  {
    assert PassOk(w, p) && ResourceOk(w, p.key);
  }

  lemma LateFrame(w: World, a: Action)
    requires Can(w, a) && WritesKube(a) && !ByUser(a)
    ensures forall k :: k != w.pass.value.key ==> (k in Next(w, a).log.late <==> k in w.log.late)
  {
    hide Recorded;
  }

  lemma SaveStepKeeps(original: Found, w: World, a: Action)
    requires Inv(w) && Kept(original, w) && Can(w, a) && (a.AddFinalizer? || a.SaveConditions? || a.SaveRecord?)
    ensures Kept(original, Next(w, a))
  {
    hide Can, Next, Inv, Preserves, Shows;
    SaveStepFrame(w, a);
    if a.AddFinalizer? {
      GrantKept(original, w, a);
    } else if a.SaveConditions? {
      ConditionsKept(original, w, a);
    } else {
      RecordKept(original, w, a);
    }
    LateFrame(w, a);
  }

  lemma DropStepKeeps(original: Found, w: World, a: Action)
    requires Inv(w) && Kept(original, w) && Can(w, a) && a.DropFinalizer?
    ensures Kept(original, Next(w, a))
  {
    DropStepFrame(w, a);
  }

  /** Nobody else edits the host while it is as it was: neither before the operator's first write, nor
      after it was given back. Meanwhile, and on all other hosts, others may do what they like. */
  predicate Spares(w: World, a: Action, i: nat) {
    !(a.OutsiderEdits? && a.id == i && i !in w.log.baseline)
  }

  predicate Spared(w: World, run: seq<Action>, i: nat)
    requires Legal(w, run)
    decreases |run|
  {
    run == [] || (Spares(w, run[0], i) && Spared(Next(w, run[0]), run[1..], i))
  }

  lemma OutsiderStepKeeps(original: Found, w: World, a: Action)
    requires Inv(w) && Kept(original, w) && Can(w, a) && ByOutsider(a) && Spares(w, a, original.id)
    ensures Kept(original, Next(w, a))
  {
    hide Preserves, Shows, Inv, PassKept;
  }

  lemma StepKeeps(original: Found, w: World, a: Action)
    requires Inv(w) && Kept(original, w) && Can(w, a) && Spares(w, a, original.id)
    ensures Kept(original, Next(w, a))
  {
    hide Inv, Can, Next, Kept, Spares;
    if WritesRemote(a) {
      RemoteStepKeeps(original, w, a);
    } else if ByUser(a) {
      UserStepKeeps(original, w, a);
    } else if ByOutsider(a) {
      OutsiderStepKeeps(original, w, a);
    } else if a.DropFinalizer? {
      DropStepKeeps(original, w, a);
    } else if WritesKube(a) {
      SaveStepKeeps(original, w, a);
    } else if a.Locate? {
      LocateKeeps(original, w, a);
    } else {
      OtherStepKeeps(original, w, a);
    }
  }

  /** In every run that spares the original, its snapshots that were not taken late show it. */
  lemma {:induction false} RunKeeps(original: Found, w: World, run: seq<Action>)
    requires Inv(w) && Kept(original, w) && Legal(w, run) && Spared(w, run, original.id)
    ensures Kept(original, Exec(w, run))
    decreases |run|
  {
    hide Inv, Can, Next, Kept, Spares;
    if run != [] {
      StepKeeps(original, w, run[0]);
      StepKeepsInv(w, run[0]);
      RunKeeps(original, Next(w, run[0]), run[1..]);
    }
  }

  // ---------------------------------------------------------------- when a snapshot is late

  /** A snapshot is late exactly when the operator had written to the host before the lookup
      of the pass that stored it; later passes never change that. */
  lemma LateIsDecidedAtAdoption(w: World, a: Action, k: Key)
    requires Inv(w) && Can(w, a)
    ensures k in w.kube && (k in Next(w, a).log.late) != (k in w.log.late) ==>
              && a.SaveRecord? && At(w, k) && w.kube[k].status.snapshot.None? && w.pass.value.stage.Written?
              && (k in Next(w, a).log.late <==> w.pass.value.stage.plan.touched)
  {
    if k in w.kube && (k in Next(w, a).log.late) != (k in w.log.late) {
      if a.SaveRecord? {
        RecordDecidesLate(w, a, k);
      } else {
        hide Can, Next, Inv;
        OnlyRecordsAreLate(w, a);
      }
    }
  }

  lemma OnlyRecordsAreLate(w: World, a: Action)
    requires Can(w, a) && !a.SaveRecord?
    ensures Next(w, a).log.late == w.log.late
  {
    hide Can, Next;
    if WritesRemote(a) {
      RemoteStepEffect(w, a);
      ApplyFrame(w, w.pass.value.key, EffectOf(w, a));
    } else if ByUser(a) {
      UserStepFrame(w, a);
    } else if a.DropFinalizer? {
      DropStepFrame(w, a);
    } else if WritesKube(a) {
      SaveKeepsLate(w, a);
    } else {
      OtherStepFrame(w, a);
    }
  }

  lemma SaveKeepsLate(w: World, a: Action)
    requires Can(w, a) && (a.AddFinalizer? || a.SaveConditions?)
    ensures Next(w, a).log.late == w.log.late
  {
  }

  lemma RecordDecidesLate(w: World, a: Action, k: Key)
    requires Inv(w) && Can(w, a) && a.SaveRecord? && k in w.kube
    requires (k in Next(w, a).log.late) != (k in w.log.late)
    ensures At(w, k) && w.kube[k].status.snapshot.None?
    ensures k in Next(w, a).log.late <==> w.pass.value.stage.plan.touched
  {
    hide Recorded;
    assert PassOk(w, w.pass.value);
    SaveFrame(w, w.pass.value, Recorded(w.pass.value.ph.status, w.pass.value.stage), a.reply);
  }

  /** The lookup of an adopting pass marks its plan exactly when the operator had made or written the host. */
  lemma LookupMarksTouchedHosts(w: World, i: nat)
    requires Inv(w) && Can(w, Locate(Some(i))) && w.pass.value.ph.status.id.None?
    ensures var st := Next(w, Locate(Some(i))).pass.value.stage;
            st.plan.touched <==> i in w.log.baseline || i in w.log.creator
  {
    hide Capture, DomainsMatch;
  }

  // ---------------------------------------------------------------- the main result

  /** The calls of a deletion pass on an adopted host, all of them answered. */
  function DeletionRun(enabled: bool): seq<Action> {
    [Restore(Ok), if enabled then Reenable(Ok) else SkipReenable, FetchLatest, DropFinalizer(Ok)]
  }

  lemma {:induction false} LegalSteps(w: World, a: Action, rest: seq<Action>)
    requires Can(w, a) && Legal(Next(w, a), rest)
    ensures Legal(w, [a] + rest) && Exec(w, [a] + rest) == Exec(Next(w, a), rest)
  {
    hide Can, Next;
    assert ([a] + rest)[1..] == rest;
  }

  /** A deletion pass about to restore a host, with the id and snapshot it will use. */
  predicate AboutToRestore(w: World, k: Key, i: nat, c: InitialConfiguration) {
    Can(w, Restore(Ok)) == true && w.pass.value.key == k
    && w.pass.value.ph.status.id == Some(i) && w.pass.value.ph.status.snapshot == Some(c)
  }

  lemma DeletionSteps(w: World, k: Key, i: nat, c: InitialConfiguration)
    requires Inv(w) && AboutToRestore(w, k, i, c)
    ensures Can(w, Restore(Ok)) && i in w.remote
    ensures var w1 := Next(w, Restore(Ok));
            && w1.remote == w.remote[i := Put(w.remote[i], Npm.Restoration(c))] && w1.kube == w.kube
            && w1.pass.Some? && w1.pass.value.key == k && w1.pass.value.stage == Restored
            && w1.pass.value.ph.status.id == Some(i) && w1.pass.value.ph.status.snapshot == Some(c)
            && MayGiveBack(w1, k, i) == MayGiveBack(w, k, i)
            && (MayGiveBack(w, k, i) && IsBack(w1.remote[i], c) ==> i !in w1.log.baseline)
  {
    hide Put, Npm.Restoration, IsBack, WriteBack;
    var h := Put(w.remote[i], Npm.Restoration(c));
    WriteBackFrame(w, k, i, h, c);
    if MayGiveBack(w, k, i) && IsBack(h, c) {
      WriteBackClears(w, k, i, h, c);
    }
  }

  lemma WriteBackClears(w: World, k: Key, i: nat, h: Host, c: InitialConfiguration)
    requires i in w.remote && MayGiveBack(w, k, i) && IsBack(h, c)
    ensures i !in WriteBack(w, k, i, h, c).log.baseline
  {
    hide IsBack;
  }

  /** A clean-up for k may give host i back: the host is not the operator's own and the snapshot not late. */
  predicate MayGiveBack(w: World, k: Key, i: nat) {
    k !in w.log.late && i !in w.log.creator
  }

  /** The clean-up of w gives its host back on the way to w'. */
  predicate GivesBack(w: World, enabled: bool, w': World)
    requires w.pass.Some? && var s := w.pass.value.ph.status; s.id.Some? && s.snapshot.Some? && s.id.value in w'.remote
  {
    var i, c := w.pass.value.ph.status.id.value, w.pass.value.ph.status.snapshot.value;
    MayGiveBack(w, w.pass.value.key, i) && IsBack(w'.remote[i], c) && (!enabled ==> i !in w.log.baseline)
  }

  lemma ReenableSteps(w: World, enabled: bool)
    requires Inv(w) && w.pass.Some? && w.pass.value.stage == Restored
    requires var s := w.pass.value.ph.status;
             s.id.Some? && s.snapshot.Some? && s.snapshot.value.enabled == enabled && s.id.value in w.remote
    ensures var a := if enabled then Reenable(Ok) else SkipReenable;
            var i := w.pass.value.ph.status.id.value;
            && Can(w, a)
            && Next(w, a).remote == (if enabled then w.remote[i := w.remote[i].(enabled := true)] else w.remote)
            && Next(w, a).pass == Some(w.pass.value.(stage := Releasing(CleanupAttempted, None)))
            && Next(w, a).kube == w.kube
            && (GivesBack(w, enabled, Next(w, a)) ==> i !in Next(w, a).log.baseline)
  {
    hide IsBack;
  }

  lemma ReleaseSteps(w: World)
    requires Inv(w) && w.pass.Some? && w.pass.value.stage == Releasing(CleanupAttempted, None)
    ensures Can(w, FetchLatest) && Can(Next(w, FetchLatest), DropFinalizer(Ok))
    ensures var w' := Next(Next(w, FetchLatest), DropFinalizer(Ok));
            w'.remote == w.remote && w'.kube == w.kube - {w.pass.value.key} && w'.log == w.log
  {
    assert PassOk(w, w.pass.value);
  }

  function AfterRestore(enabled: bool): seq<Action> {
    [if enabled then Reenable(Ok) else SkipReenable, FetchLatest, DropFinalizer(Ok)]
  }

  lemma FinishDeletion(w: World, enabled: bool)
    requires Inv(w) && w.pass.Some? && w.pass.value.stage == Restored
    requires var s := w.pass.value.ph.status;
             s.id.Some? && s.snapshot.Some? && s.snapshot.value.enabled == enabled && s.id.value in w.remote
    ensures var i := w.pass.value.ph.status.id.value;
            && Legal(w, AfterRestore(enabled))
            && Exec(w, AfterRestore(enabled)).kube == w.kube - {w.pass.value.key}
            && Exec(w, AfterRestore(enabled)).remote
               == (if enabled then w.remote[i := w.remote[i].(enabled := true)] else w.remote)
            && (GivesBack(w, enabled, Exec(w, AfterRestore(enabled))) ==>
                  i !in Exec(w, AfterRestore(enabled)).log.baseline)
  {
    var a := if enabled then Reenable(Ok) else SkipReenable;
    hide Can, Next, Inv;
    ReenableSteps(w, enabled);
    StepKeepsInv(w, a);
    var w2 := Next(w, a);
    ReleaseSteps(w2);
    var w3 := Next(w2, FetchLatest);
    assert Legal(Next(w3, DropFinalizer(Ok)), []);
    LegalSteps(w3, DropFinalizer(Ok), []);
    LegalSteps(w2, FetchLatest, [DropFinalizer(Ok)]);
    LegalSteps(w, a, [FetchLatest, DropFinalizer(Ok)]);
    assert AfterRestore(enabled) == [a] + [FetchLatest, DropFinalizer(Ok)];
    assert [FetchLatest, DropFinalizer(Ok)] == [FetchLatest] + [DropFinalizer(Ok)];
    assert [DropFinalizer(Ok)] == [DropFinalizer(Ok)] + [];
  }

  /** A host after its snapshot was sent and, if it was enabled once, the enable call. */
  function GivenBack(h: Host, c: InitialConfiguration): Host {
    Put(h, Npm.Restoration(c)).(enabled := c.enabled || h.enabled)
  }

  lemma PutKeepsEnabled(h: Host, input: RequestInput)
    ensures Put(h, input).enabled == h.enabled
  {
  }

  /** What the four calls leave behind, on any reachable world. */
  lemma DeletionOutcome(w: World, k: Key, i: nat, c: InitialConfiguration)
    requires Inv(w) && AboutToRestore(w, k, i, c)
    ensures Legal(w, DeletionRun(c.enabled)) && i in w.remote
    ensures var w' := Exec(w, DeletionRun(c.enabled));
            && w'.kube == w.kube - {k} && w'.remote == w.remote[i := GivenBack(w.remote[i], c)]
            && (MayGiveBack(w, k, i) ==> i !in w'.log.baseline)
  {
    hide Can, Next, Inv, Npm.Restoration, Put, IsBack, MayGiveBack, AboutToRestore, AfterRestore, DeletionRun;
    DeletionSteps(w, k, i, c);
    StepKeepsInv(w, Restore(Ok));
    GivenBackIsBack(w.remote[i], c);
    PutKeepsEnabled(w.remote[i], Npm.Restoration(c));
    FinishDeletion(Next(w, Restore(Ok)), c.enabled);
    DeletionRunParts(c.enabled);
    LegalSteps(w, Restore(Ok), AfterRestore(c.enabled));
  }

  lemma GivenBackIsBack(h: Host, c: InitialConfiguration)
    ensures IsBack(GivenBack(h, c), c)
    ensures !c.enabled ==> IsBack(Put(h, Npm.Restoration(c)), c)
  {
  }

  lemma DeletionRunParts(enabled: bool)
    ensures DeletionRun(enabled) == [Restore(Ok)] + AfterRestore(enabled)
  {
  }

  lemma GivenBackFields(original: Host, h: Host, c: InitialConfiguration)
    requires Shows(c, original)
    ensures GivenBack(h, c) == original.(unscoped := h.unscoped, enabled := c.enabled || h.enabled, online := h.online)
    ensures original.enabled ==> c.enabled
  {
  }

  lemma GivenBackIsOriginal(original: Host, h: Host, c: InitialConfiguration)
    requires Shows(c, original)
    ensures var h' := GivenBack(h, c);
            && Preserves(h', original)
            && (h' == original <==> (c.enabled || h.enabled ==> original.enabled)
                                    && h.unscoped == original.unscoped && h.online == original.online)
  {
    GivenBackFields(original, h, c);
    hide GivenBack, Shows;
  }

  /** What a deletion pass leaves of its host, all its calls answered. The host counts as never written to, so
      it may be adopted again. */
  predicate Restores(w: World, k: Key, original: Found, c: InitialConfiguration)
    requires Legal(w, DeletionRun(c.enabled))
  {
    var i, w' := original.id, Exec(w, DeletionRun(c.enabled));
    && k !in w'.kube && i in w.remote && i in w'.remote && w'.remote - {i} == w.remote - {i}
    && i !in w'.log.baseline
    && Preserves(w'.remote[i], original.host)
    && (w'.remote[i] == original.host <==>
          (c.enabled || w.remote[i].enabled ==> original.host.enabled)
          && w.remote[i].unscoped == original.host.unscoped && w.remote[i].online == original.host.online)
  }

  lemma KeptIsRestored(original: Found, w: World, k: Key, c: InitialConfiguration)
    requires Inv(w) && Kept(original, w) && AboutToRestore(w, k, original.id, c) && k !in w.log.late
    ensures Legal(w, DeletionRun(c.enabled)) && Restores(w, k, original, c)
  {
    RestoredClaim(original, w, k, c);
    hide Can, Next, Inv, Kept, GivenBack, Preserves, Shows, AboutToRestore, DeletionRun;
    DeletionOutcome(w, k, original.id, c);
    GivenBackIsOriginal(original.host, w.remote[original.id], c);
  }

  lemma RestoredClaim(original: Found, w: World, k: Key, c: InitialConfiguration)
    requires Inv(w) && Kept(original, w) && AboutToRestore(w, k, original.id, c) && k !in w.log.late
    ensures Shows(c, original.host) && MayGiveBack(w, k, original.id)
  {
    hide Shows;
    CleaningClaim(original, w, w.pass.value);
  }

  /** Adopt, reconcile any number of times, delete with every call answered: each configuration field is
      the one the host had before the operator started, and a host that was enabled is. Meanwhile it may be edited
      by others, be given back and adopted again. The host is its old self entirely if and only if the enabled
      flag, `unscoped_config` and the online report agree. */
  lemma DeletionRestoresOriginal(init: World, run: seq<Action>, k: Key, i: nat, c: InitialConfiguration)
    requires Init(init) && i in init.remote && Legal(init, run) && Spared(init, run, i)
    requires AboutToRestore(Exec(init, run), k, i, c) && k !in Exec(init, run).log.late
    ensures var w := Exec(init, run); Legal(w, DeletionRun(c.enabled)) && Restores(w, k, Found(i, init.remote[i]), c)
  {
    var original := Found(i, init.remote[i]);
    InitKept(init, i);
    hide Can, Next, Inv, Kept, AboutToRestore, Init, DeletionRun, Restores, Spares;
    RunKeeps(original, init, run);
    RunKeepsInv(init, run);
    KeptIsRestored(original, Exec(init, run), k, c);
  }

  /** The operator has no hold on the host: it neither made it nor counts as having written to it, no resource
      records it and no pass is about to. */
  ghost predicate Unheld(w: World, i: nat) {
    && i in w.remote && i !in w.log.creator && i !in w.log.baseline
    && (forall k :: k in w.kube ==> w.kube[k].status.id != Some(i))
    && (w.pass.Some? ==> match w.pass.value.stage
                         case Located(_, Some(f)) => f.id != i
                         case Written(_, id, _, _) => id != i
                         case _ => true)
  }

  lemma UnheldIsKept(w: World, i: nat)
    requires Inv(w) && Unheld(w, i)
    ensures Kept(Found(i, w.remote[i]), w)
  {
    hide Shows;
  }

  /** A host that others add starts unheld, and it stays so when they edit it. */
  lemma OutsidersLeaveUnheld(w: World, host: Host, i: nat)
    requires Inv(w) && (i == w.nextId || Unheld(w, i))
    ensures Unheld(Next(w, if i == w.nextId then OutsiderAdds(host) else OutsiderEdits(i, host)), i)
  {
    forall k | k in w.kube ensures w.kube[k].status.id != Some(w.nextId) {
      assert ResourceOk(w, k);
    }
    assert w.pass.Some? ==> PassOk(w, w.pass.value);
  }

  /** The same from any point of any run at which the operator has no hold on the host, whoever added or edited it
      before: deletion gives back the host of that point. */
  lemma DeletionRestoresUnheld(init: World, before: seq<Action>, i: nat, run: seq<Action>,
                                  k: Key, c: InitialConfiguration)
    requires Init(init) && Legal(init, before)
    requires var v := Exec(init, before); Unheld(v, i) && Legal(v, run) && Spared(v, run, i)
    requires var w := Exec(Exec(init, before), run); AboutToRestore(w, k, i, c) && k !in w.log.late
    ensures var v := Exec(init, before); var w := Exec(v, run);
            Legal(w, DeletionRun(c.enabled)) && Restores(w, k, Found(i, v.remote[i]), c)
  {
    var v := Exec(init, before);
    var original := Found(i, v.remote[i]);
    InitOk(init);
    RunKeepsInv(init, before);
    UnheldIsKept(v, i);
    hide Can, Next, Inv, Kept, AboutToRestore, Init, DeletionRun, Restores, Spares;
    RunKeeps(original, v, run);
    RunKeepsInv(v, run);
    KeptIsRestored(original, Exec(v, run), k, c);
  }

  lemma SnapshotIsOriginal(original: Found, w: World, k: Key)
    requires Kept(original, w) && k in w.kube && k !in w.log.late
    requires w.kube[k].status.snapshot.Some? && w.kube[k].status.id == Some(original.id)
    ensures Shows(w.kube[k].status.snapshot.value, original.host)
  {
    hide Shows;
    assert ClaimKept(original, w.log, k, ClaimOf(w.kube[k].status));
  }

  lemma InitKept(init: World, i: nat)
    requires Init(init) && i in init.remote
    ensures Kept(Found(i, init.remote[i]), init) && Inv(init)
  {
    InitOk(init);
  }
}
