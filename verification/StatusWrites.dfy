/** Optimistic status updates, seen in the run (internal/controller/helpers.go:152-183). */
module StatusWrites {
  import opened Text
  import opened Npm
  import opened Api
  import opened Lifecycle

  // ---------------------------------------------------------------- runs seen from a method

  /** From trace t to t' only others acted. */
  ghost predicate Interlude(t: seq<Action>, t': seq<Action>) {
    t <= t' && forall i :: |t| <= i < |t'| ==> ByOthers(t'[i])
  }

  /** From t to t' others acted, then the step a was taken. */
  ghost predicate OneStep(t: seq<Action>, t': seq<Action>, a: Action) {
    |t'| > 0 && Interlude(t, t'[..|t'| - 1]) && t'[|t'| - 1] == a
  }

  // ---------------------------------------------------------------- status mutations

  /** The mutations passed to UpdateStatus, with the locals they close over. */
  datatype Mutation =
    | MarkConditions
    | RecordHost(id: nat, certificateId: Option<int>, online: bool, bound: bool, captured: Option<InitialConfiguration>)

  function Mutate(m: Mutation, s: Status): Status {
    match m
    case MarkConditions => s.(conditions := true)
    case RecordHost(id, certificateId, online, bound, captured) =>
      s.(id := Some(id), certificateId := certificateId, online := online, bound := bound,
         snapshot := if captured.Some? then captured else s.snapshot)
  }

  function SaveStep(m: Mutation, reply: Reply): Action {
    if m.MarkConditions? then SaveConditions(reply) else SaveRecord(reply)
  }

  /** The locals of the mutation are those of the pass. */
  predicate Fits(m: Mutation, st: Stage) {
    match m
    case MarkConditions => st.Guarded? || st.Written? || st.Finished?
    case RecordHost(id, certificateId, online, bound, captured) =>
      st == Written(Plan(if st.Written? then st.plan.domains else [], bound, captured,
                         if st.Written? then st.plan.touched else false), id, certificateId, online)
  }

  /** From t to t' the controller only read and had updates rejected. */
  ghost predicate Attempts(t: seq<Action>, t': seq<Action>, m: Mutation) {
    t <= t' && forall i :: |t| <= i < |t'| ==> ByOthers(t'[i]) || t'[i] == Reread || t'[i] == SaveStep(m, Refused)
  }

  /** The same, and then an update that took effect. */
  ghost predicate Ends(t: seq<Action>, t': seq<Action>, m: Mutation, reply: Reply) {
    |t'| > 0 && Attempts(t, t'[..|t'| - 1], m) && t'[|t'| - 1] == SaveStep(m, reply)
  }

  /** The last step of the run stored the mutation, applied once, over the version the server had just then. */
  ghost predicate Committed(init: World, run: seq<Action>, key: Key, m: Mutation) {
    && |run| > 0 && Legal(init, run) && Legal(init, run[..|run| - 1])
    && var before, after := Exec(init, run[..|run| - 1]).kube, Exec(init, run).kube;
       && key in before && key in after
       && after == before[key := before[key].(status := Mutate(m, before[key].status), version := after[key].version)]
       && after[key].version > before[key].version
  }

  lemma SaveShape(w: World, p: Pass, st: Status, reply: Reply)
    requires w.pass == Some(p)
    ensures var w' := Save(w, p, st, reply);
            && w'.remote == w.remote && w'.nextId == w.nextId && w'.supported == w.supported && w'.log == w.log
            && w'.kube == (if Took(reply) then w.kube[p.key := p.ph.(status := st, version := w.clock + 1)] else w.kube)
            && w'.clock == (if Took(reply) then w.clock + 1 else w.clock)
            && w'.pass == Some(if reply.Ok? then p.(ph := w'.kube[p.key]) else p)
  {
  }

  /** What a status update does to the stores and the pass. */
  predicate SavedAs(w: World, w': World, m: Mutation, reply: Reply)
    requires w.pass.Some?
  {
    var p := w.pass.value;
    && w'.remote == w.remote && w'.nextId == w.nextId && w'.supported == w.supported
    && w'.kube
       == (if Took(reply) then w.kube[p.key := p.ph.(status := Mutate(m, p.ph.status), version := w.clock + 1)]
           else w.kube)
    && w'.clock == (if Took(reply) then w.clock + 1 else w.clock)
    && w'.pass.Some? && w'.pass.value.key == p.key
    && w'.pass.value.stage == (if reply.Lost? && m.RecordHost? then Finished else p.stage)
    && w'.pass.value.ph == (if reply.Ok? then p.ph.(status := Mutate(m, p.ph.status), version := w.clock + 1) else p.ph)
  }

  lemma MarkingStep(w: World, reply: Reply)
    requires w.pass.Some? && Fits(MarkConditions, w.pass.value.stage)
    requires Took(reply) ==> Current(w, w.pass.value.key, w.pass.value.ph)
    ensures Can(w, SaveConditions(reply)) && SavedAs(w, Next(w, SaveConditions(reply)), MarkConditions, reply)
  {
    hide Save;
    SaveShape(w, w.pass.value, w.pass.value.ph.status.(conditions := true), reply);
  }

  lemma RecordingStep(w: World, m: Mutation, reply: Reply)
    requires w.pass.Some? && m.RecordHost? && Fits(m, w.pass.value.stage)
    requires Took(reply) ==> Current(w, w.pass.value.key, w.pass.value.ph)
    ensures Can(w, SaveRecord(reply)) && SavedAs(w, Next(w, SaveRecord(reply)), m, reply)
  {
    var p := w.pass.value;
    assert Mutate(m, p.ph.status) == Recorded(p.ph.status, p.stage);
    hide Save, Recorded, Mutate;
    SaveShape(w, p, Recorded(p.ph.status, p.stage), reply);
  }

  /** The step of a status update, seen from the stores. */
  lemma SavingStep(w: World, m: Mutation, reply: Reply)
    requires w.pass.Some? && Fits(m, w.pass.value.stage)
    requires Took(reply) ==> Current(w, w.pass.value.key, w.pass.value.ph)
    ensures Can(w, SaveStep(m, reply)) && SavedAs(w, Next(w, SaveStep(m, reply)), m, reply)
  {
    hide Can, Next, SavedAs, Fits;
    if m.MarkConditions? {
      MarkingStep(w, reply);
    } else {
      RecordingStep(w, m, reply);
    }
  }

  lemma CommittedBy(init: World, run: seq<Action>, m: Mutation)
    requires Legal(init, run) && var w := Exec(init, run);
             && w.pass.Some? && Fits(m, w.pass.value.stage) && Current(w, w.pass.value.key, w.pass.value.ph)
             && CopyOk(w, w.pass.value.key, w.pass.value.ph)
    requires Legal(init, run + [SaveStep(m, Ok)])
             && Exec(init, run + [SaveStep(m, Ok)]).kube == Exec(init, run).kube[Exec(init, run).pass.value.key :=
                  Exec(init, run).pass.value.ph.(status := Mutate(m, Exec(init, run).pass.value.ph.status),
                                                 version := Exec(init, run).clock + 1)]
    ensures Committed(init, run + [SaveStep(m, Ok)], Exec(init, run).pass.value.key, m)
  {
    hide Legal, Exec, Mutate, Fits, SaveStep;
    assert (run + [SaveStep(m, Ok)])[..|run|] == run;
  }

  /** retry.DefaultRetry. */
  const STATUS_ATTEMPTS := 5

  /** The status updates sent in a run. */
  function Updates(run: seq<Action>): nat {
    if run == [] then 0
    else
      var a := run[|run| - 1];
      Updates(run[..|run| - 1]) + if a.SaveConditions? || a.SaveRecord? then 1 else 0
  }

  lemma {:induction false} CountInterlude(t: seq<Action>, t': seq<Action>)
    requires Interlude(t, t')
    ensures Updates(t') == Updates(t)
    decreases |t'|
  {
    if |t'| > |t| {
      assert ByOthers(t'[|t'| - 1]);
      CountInterlude(t, t'[..|t'| - 1]);
    } else {
      assert t == t';
    }
  }

  lemma CountReads(t: seq<Action>, t': seq<Action>)
    requires Interlude(t, t') || OneStep(t, t', Reread)
    ensures Updates(t') == Updates(t)
  {
    CountInterlude(t, if Interlude(t, t') then t' else t'[..|t'| - 1]);
  }

  lemma CountSave(t: seq<Action>, t': seq<Action>, m: Mutation, reply: Reply)
    requires OneStep(t, t', SaveStep(m, reply))
    ensures Updates(t') == Updates(t) + 1
  {
    CountInterlude(t, t'[..|t'| - 1]);
  }

  lemma Reading(t: seq<Action>, u: seq<Action>, v: seq<Action>, m: Mutation)
    requires Attempts(t, u, m) && (Interlude(u, v) || OneStep(u, v, Reread))
    ensures Attempts(t, v, m)
  {
    assert forall i :: |t| <= i < |u| ==> v[i] == u[i];
  }

  lemma Sending(t: seq<Action>, u: seq<Action>, v: seq<Action>, m: Mutation, reply: Reply)
    requires Attempts(t, u, m) && OneStep(u, v, SaveStep(m, reply))
    ensures Ends(t, v, m, reply)
    ensures reply.Refused? ==> Attempts(t, v, m)
  {
    var v0 := v[..|v| - 1];
    assert forall i :: |t| <= i < |u| ==> v0[i] == u[i];
    assert v == v0 + [v[|v| - 1]];
  }

  datatype Attempt = Saved | Conflict | Failed

  lemma AttemptsStart(t: seq<Action>, m: Mutation)
    ensures Attempts(t, t, m)
  {
  }

  lemma MoreAttempts(t: seq<Action>, u: seq<Action>, v: seq<Action>, m: Mutation)
    requires Attempts(t, u, m)
    ensures t <= u
    ensures Attempts(u, v, m) ==> Attempts(t, v, m) && t <= v
    ensures forall reply :: Ends(u, v, m, reply) ==> Ends(t, v, m, reply) && t <= v
  {
    assert Attempts(u, v, m) ==> forall i :: |t| <= i < |u| ==> v[i] == u[i];
    if |v| > 0 && Attempts(u, v[..|v| - 1], m) {
      assert forall i :: |t| <= i < |u| ==> v[..|v| - 1][i] == u[i];
      assert v == v[..|v| - 1] + [v[|v| - 1]];
    }
  }

  // ---------------------------------------------------------------- rejected attempts

  function OthersOf(run: seq<Action>): seq<Action> {
    if run == [] then []
    else (if ByOthers(run[0]) then [run[0]] else []) + OthersOf(run[1..])
  }

  /** Equal in everything the outside can see. */
  predicate SameStores(w: World, v: World) {
    w.kube == v.kube && w.clock == v.clock && w.remote == v.remote && w.nextId == v.nextId && w.supported == v.supported
  }

  lemma OtherOnBoth(w: World, v: World, a: Action)
    requires SameStores(w, v) && ByOthers(a) && Can(w, a)
    ensures Can(v, a) && SameStores(Next(w, a), Next(v, a))
  {
  }

  lemma RejectionIsSilent(w: World, a: Action, m: Mutation)
    requires Can(w, a) && (a == Reread || a == SaveStep(m, Refused))
    ensures SameStores(w, Next(w, a))
  {
  }

  /** Attempts that were all rejected leave both stores exactly as the others alone would have left them. */
  lemma {:induction false} RejectedAttemptsWriteNothing(w: World, v: World, run: seq<Action>, m: Mutation)
    requires SameStores(w, v) && Legal(w, run) && Attempts([], run, m)
    ensures Legal(v, OthersOf(run)) && SameStores(Exec(w, run), Exec(v, OthersOf(run)))
    decreases |run|
  {
    hide Can, Next, SameStores, SaveStep;
    if run != [] {
      var a := run[0];
      assert forall i :: 0 <= i < |run[1..]| ==> run[1..][i] == run[i + 1];
      if ByOthers(a) {
        OtherOnBoth(w, v, a);
        RejectedAttemptsWriteNothing(Next(w, a), Next(v, a), run[1..], m);
        assert OthersOf(run)[0] == a && OthersOf(run)[1..] == OthersOf(run[1..]);
      } else {
        RejectionIsSilent(w, a, m);
        SameStoresChain(v, w, Next(w, a));
        RejectedAttemptsWriteNothing(Next(w, a), v, run[1..], m);
        assert OthersOf(run) == OthersOf(run[1..]);
      }
    }
  }

  lemma SameStoresChain(v: World, w: World, x: World)
    requires SameStores(w, v) && SameStores(w, x)
    ensures SameStores(x, v)
  {
  }
}
