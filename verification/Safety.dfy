/** What every run of the protocol guarantees, whatever crashes, fails or is edited meanwhile. */
module Safety {
  import opened Text
  import opened Npm
  import opened Api
  import opened Lifecycle

  // ---------------------------------------------------------------- who may delete what

  /** Id i with Bound = false: the operator's own POST for this very resource returned i. */
  lemma UnboundIdIsOwnPost(init: World, run: seq<Action>, k: Key)
    requires Init(init) && Legal(init, run)
    requires var w := Exec(init, run); k in w.kube && w.kube[k].status.id.Some? && !w.kube[k].status.bound
    ensures var w := Exec(init, run); var i := w.kube[k].status.id.value; i in w.log.creator && w.log.creator[i] == k
  {
    InitOk(init);
    RunKeepsInv(init, run);
    UnboundId(Exec(init, run), k);
  }

  lemma UnboundId(w: World, k: Key)
    requires Inv(w) && k in w.kube && w.kube[k].status.id.Some? && !w.kube[k].status.bound
    ensures var i := w.kube[k].status.id.value; i in w.log.creator && w.log.creator[i] == k
  {
    assert ResourceOk(w, k);
  }

  /** At most one resource holds an id unbound. */
  lemma UnboundIdIsExclusive(init: World, run: seq<Action>, k: Key, m: Key)
    requires Init(init) && Legal(init, run)
    requires var w := Exec(init, run);
             && k in w.kube && w.kube[k].status.id.Some? && !w.kube[k].status.bound
             && m in w.kube && w.kube[m].status.id == w.kube[k].status.id && !w.kube[m].status.bound
    ensures k == m
  {
    UnboundIdIsOwnPost(init, run, k);
    UnboundIdIsOwnPost(init, run, m);
  }

  /** A DELETE only ever names a host that the operator made for the resource being deleted. */
  lemma DeleteHitsOwnHost(init: World, run: seq<Action>, reply: Reply)
    requires Init(init) && Legal(init, run) && Can(Exec(init, run), DeleteHost(reply))
    ensures var w := Exec(init, run);
            var i := w.pass.value.ph.status.id.value; i in w.log.creator && w.log.creator[i] == w.pass.value.key
  {
    InitOk(init);
    RunKeepsInv(init, run);
    DeletedId(Exec(init, run), reply);
  }

  lemma DeletedId(w: World, reply: Reply)
    requires Inv(w) && Can(w, DeleteHost(reply))
    ensures var i := w.pass.value.ph.status.id.value; i in w.log.creator && w.log.creator[i] == w.pass.value.key
  {
    assert ResourceOk(w, w.pass.value.key);
  }

  predicate NoOutsiders(run: seq<Action>) {
    forall a :: a in run ==> !ByOutsider(a)
  }

  /** The steps that may take host i away: its removal by an outsider. */
  lemma StepSparesForeignHosts(w: World, a: Action, i: nat)
    requires Inv(w) && Can(w, a) && a != OutsiderRemoves(i)
    requires i in w.remote && i !in w.log.creator
    ensures i in Next(w, a).remote && i !in Next(w, a).log.creator
  {
    if a.DeleteHost? {
      DeletedId(w, a.reply);
    }
    hide Inv;
    if !ByOutsider(a) {
      hide Can, Next;
      if WritesRemote(a) {
        RemoteStepEffect(w, a);
        ForeignId(w, i);
        RemovedId(w, a);
        EffectSparesOthers(w, EffectOf(w, a), i);
      } else {
        QuietStepFrame(w, a);
      }
    }
  }

  lemma EffectSparesOthers(w: World, e: Effect, i: nat)
    requires (e.Sets? ==> e.id in w.remote) && i in w.remote && i !in w.log.creator && i != w.nextId && e != Removes(i)
    ensures forall key :: i in Apply(w, key, e).remote && i !in Apply(w, key, e).log.creator
  {
    hide IsBack;
  }

  lemma ForeignId(w: World, i: nat)
    requires Inv(w) && i in w.remote
    ensures i != w.nextId
  {
    assert IdsOk(w);
  }

  lemma RemovedId(w: World, a: Action)
    requires Can(w, a) && WritesRemote(a)
    ensures EffectOf(w, a).Removes? ==> a.DeleteHost? && EffectOf(w, a).id == w.pass.value.ph.status.id.value
  {
    hide Put, Post, Restoration;
  }

  /** So a host the operator did not make disappears only when an outsider removes it. */
  lemma {:induction false} ForeignHostsSurvive(w: World, run: seq<Action>, i: nat)
    requires Inv(w) && Legal(w, run) && OutsiderRemoves(i) !in run
    requires i in w.remote && i !in w.log.creator
    ensures i in Exec(w, run).remote
    decreases |run|
  {
    hide Inv, Can, Next;
    if run != [] {
      assert run[0] in run;
      StepSparesForeignHosts(w, run[0], i);
      StepKeepsInv(w, run[0]);
      ForeignHostsSurvive(Next(w, run[0]), run[1..], i);
    }
  }

  // ---------------------------------------------------------------- snapshot discipline

  /** Bound holds exactly when a snapshot is stored, and both imply an id. */
  lemma BoundMeansSnapshot(init: World, run: seq<Action>, k: Key)
    requires Init(init) && Legal(init, run) && k in Exec(init, run).kube
    ensures var s := Exec(init, run).kube[k].status;
            (s.bound <==> s.snapshot.Some?) && (s.bound ==> s.id.Some?)
  {
    InitOk(init);
    RunKeepsInv(init, run);
    assert ResourceOk(Exec(init, run), k);
  }

  /** Hence the branch that disables a bound host without a snapshot is never taken. */
  lemma DisableUnreachable(init: World, run: seq<Action>, reply: Reply)
    requires Init(init) && Legal(init, run)
    ensures !Can(Exec(init, run), Disable(reply))
  {
    InitOk(init);
    RunKeepsInv(init, run);
    NoDisable(Exec(init, run), reply);
  }

  /** The resource stays in the API server at every point of the run. */
  predicate Lives(w: World, run: seq<Action>, k: Key)
    requires Legal(w, run)
    decreases |run|
  {
    k in w.kube && (run == [] || Lives(Next(w, run[0]), run[1..], k))
  }

  lemma RecordKeepsSnapshot(w: World, a: Action, k: Key)
    requires Inv(w) && Can(w, a) && (a.AddFinalizer? || a.SaveConditions? || a.SaveRecord?) && k in w.kube && At(w, k)
    requires w.kube[k].status.snapshot.Some?
    ensures k in Next(w, a).kube && Next(w, a).kube[k].status.snapshot == w.kube[k].status.snapshot
  {
    assert ResourceOk(w, k);
  }

  lemma StepKeepsSnapshot(w: World, a: Action, k: Key)
    requires Inv(w) && Can(w, a) && k in w.kube && k in Next(w, a).kube
    requires w.kube[k].status.snapshot.Some?
    ensures Next(w, a).kube[k].status.snapshot == w.kube[k].status.snapshot
    ensures Next(w, a).kube[k].status.bound
  {
    hide Can, Next, Inv;
    if WritesRemote(a) {
      RemoteStepEffect(w, a);
      ApplyFrame(w, w.pass.value.key, EffectOf(w, a));
    } else if ByUser(a) {
      UserStepFrame(w, a);
    } else if a.DropFinalizer? {
      DropStepFrame(w, a);
    } else if WritesKube(a) {
      SaveStepFrame(w, a);
      if At(w, k) {
        RecordKeepsSnapshot(w, a, k);
      }
    } else {
      OtherStepFrame(w, a);
    }
    StepKeepsInv(w, a);
    SnapshotIsBound(Next(w, a), k);
  }

  lemma ApplyFrame(w: World, key: Key, e: Effect)
    requires e.Sets? ==> e.id in w.remote
    ensures Apply(w, key, e).kube == w.kube && Apply(w, key, e).log.late == w.log.late
  {
  }

  /** A stored snapshot never changes and Bound never reverts while the resource lives. */
  lemma {:induction false} SnapshotNeverChanges(w: World, run: seq<Action>, k: Key)
    requires Inv(w) && Legal(w, run) && Lives(w, run, k)
    requires w.kube[k].status.snapshot.Some?
    ensures k in Exec(w, run).kube
    ensures Exec(w, run).kube[k].status.snapshot == w.kube[k].status.snapshot && Exec(w, run).kube[k].status.bound
    decreases |run|
  {
    hide Inv, Can, Next;
    if run != [] {
      StepKeepsInv(w, run[0]);
      StepKeepsSnapshot(w, run[0], k);
      SnapshotNeverChanges(Next(w, run[0]), run[1..], k);
    } else {
      SnapshotIsBound(w, k);
    }
  }

  lemma SnapshotIsBound(w: World, k: Key)
    requires Inv(w) && k in w.kube && w.kube[k].status.snapshot.Some?
    ensures w.kube[k].status.bound
  {
    assert ResourceOk(w, k);
  }

  // ---------------------------------------------------------------- finalizers

  /** Every remote write happens while the resource is in the cluster with its finalizer. */
  lemma RemoteWritesAreGuarded(init: World, run: seq<Action>, a: Action)
    requires Init(init) && Legal(init, run) && Can(Exec(init, run), a) && WritesRemote(a)
    ensures var w := Exec(init, run); w.pass.value.key in w.kube && w.kube[w.pass.value.key].finalizer
  {
    InitOk(init);
    RunKeepsInv(init, run);
    WriteIsGuarded(Exec(init, run), a);
  }

  lemma WriteIsGuarded(w: World, a: Action)
    requires Inv(w) && Can(w, a) && WritesRemote(a)
    ensures w.pass.value.key in w.kube && w.kube[w.pass.value.key].finalizer
  {
    WritingStage(w, a);
    hide Can;
    assert Held(w, w.pass.value);
  }

  lemma WritingStage(w: World, a: Action)
    requires Can(w, a) && WritesRemote(a)
    ensures w.pass.Some? && !w.pass.value.stage.Fetched?
  {
  }

  /** A resource with an id leaves the cluster only when its deletion pass has attempted the clean-up,
      or could not get a client. */
  lemma LeavesAfterCleanup(init: World, run: seq<Action>, a: Action, k: Key)
    requires Init(init) && Legal(init, run) && Can(Exec(init, run), a)
    ensures var w := Exec(init, run);
            k in w.kube && w.kube[k].status.id.Some? && k !in Next(w, a).kube ==>
              && a.DropFinalizer? && At(w, k) && w.pass.value.stage.Releasing?
              && (w.pass.value.stage.cause == CleanupAttempted || w.pass.value.stage.cause == NoClient)
  {
    hide Can, Next;
    InitOk(init);
    RunKeepsInv(init, run);
    Leaves(Exec(init, run), a, k);
  }

  lemma Leaves(w: World, a: Action, k: Key)
    requires Inv(w) && Can(w, a)
    ensures k in w.kube && w.kube[k].status.id.Some? && k !in Next(w, a).kube ==>
              a.DropFinalizer? && At(w, k) && w.pass.value.stage.Releasing? && !w.pass.value.stage.cause.NothingRemote?
  {
    if k in w.kube && w.kube[k].status.id.Some? && k !in Next(w, a).kube {
      KeptByFinalizer(w, k);
      if a.DropFinalizer? {
        Dropping(w, a);
      }
      hide Can, Next, Inv;
      OnlyUnguardedLeave(w, a, k);
    }
  }

  /** A resource disappears by a user's hand without a finalizer, or when a pass drops the finalizer. */
  lemma OnlyUnguardedLeave(w: World, a: Action, k: Key)
    requires Can(w, a)
    ensures k in w.kube && k !in Next(w, a).kube ==>
              (ByUser(a) && !w.kube[k].finalizer) || (a.DropFinalizer? && At(w, k))
  {
    hide Can, Next;
    if WritesRemote(a) {
      RemoteStepEffect(w, a);
      ApplyFrame(w, w.pass.value.key, EffectOf(w, a));
    } else if ByUser(a) {
      UserStepFrame(w, a);
    } else if a.DropFinalizer? {
      DropStepFrame(w, a);
    } else if WritesKube(a) {
      SaveStepFrame(w, a);
    } else {
      OtherStepFrame(w, a);
    }
  }

  lemma KeptByFinalizer(w: World, k: Key)
    requires Inv(w) && k in w.kube && w.kube[k].status.id.Some?
    ensures w.kube[k].finalizer
  {
    assert ResourceOk(w, k);
  }

  lemma Dropping(w: World, a: Action)
    requires Inv(w) && Can(w, a) && a.DropFinalizer?
    ensures w.pass.value.stage.Releasing? && w.pass.value.key in w.kube
    ensures w.kube[w.pass.value.key].status.id.Some? ==> !w.pass.value.stage.cause.NothingRemote?
  {
  }
}
