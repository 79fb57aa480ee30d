/** Runs that show where the guarantees of Ownership and Restoration end. */
module Limits {
  import opened Text
  import opened Npm
  import opened Api
  import opened Lifecycle
  import opened Safety

  const A := Key("ns", "a")
  const B := Key("ns", "b")

  function Spec(domains: seq<string>): ProxyHostSpec {
    ProxyHostSpec(domains, true, false, false, false, None, ForwardSpec("http", None, false, "", [], "", ""), [])
  }

  function Input(domains: seq<string>): RequestInput {
    RequestInput(domains, "backend", 80, "http", 0, None, false, false, false, false, false, false, false, "", [], None)
  }

  /** Where a run starts, and whether users edit specs in it. */
  datatype Start = Start(world: World, edits: bool)

  predicate NoEdits(run: seq<Action>) {
    forall a :: a in run ==> !a.UserEdits?
  }

  /** The run so far and where it leads. */
  ghost predicate At(init: Start, run: seq<Action>, w: World) {
    Legal(init.world, run) && Exec(init.world, run) == w && NoOutsiders(run) && (!init.edits ==> NoEdits(run))
  }

  lemma Do(init: Start, run: seq<Action>, w: World, a: Action) returns (run': seq<Action>, w': World)
    requires At(init, run, w) && Can(w, a) && !ByOutsider(a) && (a.UserEdits? ==> init.edits)
    ensures At(init, run', w') && w' == Next(w, a)
  {
    hide Can, Next;
    LegalAppend(init.world, run, a);
    run', w' := run + [a], Next(w, a);
  }

  /** Stores and history of w, with the finalizer set at k and perhaps new versions. */
  ghost predicate SameButFinalizer(w: World, w': World, k: Key) {
    && w'.kube.Keys == w.kube.Keys && w'.remote == w.remote && w'.nextId == w.nextId
    && w'.log == w.log && w'.supported == w.supported
    && forall m :: m in w.kube ==>
         w'.kube[m].(version := 0) == w.kube[m].(version := 0, finalizer := m == k || w.kube[m].finalizer)
  }

  lemma StartPass(w: World, k: Key) returns (w1: World, w2: World)
    requires w.pass.None? && k in w.kube && !w.kube[k].deleting
    ensures Can(w, Begin(k)) && w1 == Next(w, Begin(k)) && Can(w1, AddFinalizer(Ok)) && w2 == Next(w1, AddFinalizer(Ok))
    ensures SameButFinalizer(w, w2, k) && w2.pass == Some(Pass(k, w2.kube[k], Guarded))
  {
    w1 := Next(w, Begin(k));
    w2 := Next(w1, AddFinalizer(Ok));
  }

  /** A pass up to the lookup, for a resource whose domains nobody else uses. */
  lemma UpToLookup(init: Start, run: seq<Action>, w: World, k: Key) returns (run': seq<Action>, w': World)
    requires At(init, run, w) && w.pass.None?
    requires k in w.kube && !w.kube[k].deleting && DomainsUnique(w.kube, k, w.kube[k].spec.domainNames)
    ensures At(init, run', w') && SameButFinalizer(w, w', k) && w'.pass == Some(Pass(k, w'.kube[k], Unique))
  {
    hide At;
    var w1, w2 := StartPass(w, k);
    var run1, _ := Do(init, run, w, Begin(k));
    var run2, _ := Do(init, run1, w1, AddFinalizer(Ok));
    assert DomainsUnique(w2.kube, k, w2.kube[k].spec.domainNames) by {
      forall m | m in w2.kube && m != k ensures Disjoint(w2.kube[k].spec.domainNames, w2.kube[m].spec.domainNames) {
        assert w2.kube[m].(version := 0) == w.kube[m].(version := 0);
        assert Disjoint(w.kube[k].spec.domainNames, w.kube[m].spec.domainNames);
      }
    }
    run', w' := Do(init, run2, w2, CheckDomains);
  }

  /** A pass from the lookup on that finds nothing, posts a host and records it. */
  lemma Creates(init: Start, run: seq<Action>, w: World, k: Key, domains: seq<string>)
    returns (run': seq<Action>, w': World)
    requires At(init, run, w) && k in w.kube && w.pass == Some(Pass(k, w.kube[k], Unique))
    requires w.kube[k].status == EMPTY_STATUS && w.kube[k].spec.domainNames == domains
    ensures At(init, run', w') && w'.pass.None?
    ensures k in w'.kube && w'.kube == w.kube[k := w'.kube[k]]
    ensures w'.kube[k].status.id == Some(w.nextId) && w'.kube[k].spec == w.kube[k].spec && !w'.kube[k].status.bound
    ensures w'.kube[k].deleting == w.kube[k].deleting
    ensures w'.nextId == w.nextId + 1 && w'.remote == w.remote[w.nextId := Post(Input(domains), w.supported)]
  {
    hide At, Post, Recorded;
    var run2, w2 := Posts(init, run, w, k, domains);
    var run3, w3 := Records(init, run2, w2, k);
    run', w' := Do(init, run3, w3, Stop);
    RecordedPost(w.kube[k].status, w2.pass.value.stage);
  }

  lemma RecordedPost(s: Status, st: Stage)
    requires st.Written?
    ensures Recorded(s, st).id == Some(st.id) && Recorded(s, st).bound == st.plan.bound
  {
  }

  lemma Posts(init: Start, run: seq<Action>, w: World, k: Key, domains: seq<string>)
    returns (run': seq<Action>, w': World)
    requires At(init, run, w) && k in w.kube && w.pass == Some(Pass(k, w.kube[k], Unique))
    requires w.kube[k].status == EMPTY_STATUS && w.kube[k].spec.domainNames == domains
    ensures At(init, run', w') && w'.kube == w.kube && w'.pass.Some?
    ensures w'.pass.value.key == k && w'.pass.value.ph == w.kube[k] && w'.pass.value.stage.Written?
    ensures w'.pass.value.stage.id == w.nextId && !w'.pass.value.stage.plan.bound
    ensures w'.nextId == w.nextId + 1 && w'.remote == w.remote[w.nextId := Post(Input(domains), w.supported)]
  {
    hide At, Post;
    var run1, w1 := Do(init, run, w, Locate(None));
    run', w' := Do(init, run1, w1, PostNew(Input(domains), Ok));
  }

  /** A pass from the lookup on that adopts host i and rewrites it. */
  lemma Rewrites(init: Start, run: seq<Action>, w: World, k: Key, i: nat, domains: seq<string>)
    returns (run': seq<Action>, w': World)
    requires At(init, run, w) && k in w.kube && w.pass == Some(Pass(k, w.kube[k], Unique))
    requires w.kube[k].status == EMPTY_STATUS && w.kube[k].spec.domainNames == domains && domains != []
    requires w.kube[k].spec.bindExisting
    requires i in w.remote && DomainsMatch(w.remote[i].domainNames, domains)
    ensures At(init, run', w') && w'.kube == w.kube && w'.pass.Some?
    ensures w'.pass.value.key == k && w'.pass.value.ph == w.kube[k] && w'.pass.value.stage.Written?
    ensures w'.pass.value.stage.id == i
    ensures w'.pass.value.stage.plan.snapshot == Some(Capture(w.remote[i])) && w'.pass.value.stage.plan.bound
    ensures w'.remote == w.remote[i := Put(w.remote[i], Input(domains))] && w'.log.creator == w.log.creator
  {
    hide At, Put, Capture, DomainsMatch;
    var run1, w1 := Do(init, run, w, Locate(Some(i)));
    run', w' := Do(init, run1, w1, PutTarget(Input(domains), Ok));
  }

  lemma Records(init: Start, run: seq<Action>, w: World, k: Key) returns (run': seq<Action>, w': World)
    requires At(init, run, w) && k in w.kube && w.pass.Some? && w.pass.value.key == k
    requires w.pass.value.stage.Written? && w.pass.value.ph == w.kube[k]
    ensures At(init, run', w') && k in w'.kube && w'.kube == w.kube[k := w'.kube[k]]
    ensures w'.kube[k] == w.kube[k].(status := Recorded(w.kube[k].status, w.pass.value.stage),
                                     version := w'.kube[k].version)
    ensures w'.remote == w.remote && w'.nextId == w.nextId && w'.log.creator == w.log.creator
  {
    hide At, Recorded;
    run', w' := Do(init, run, w, SaveRecord(Ok));
  }

  // ---------------------------------------------------------------- edited domains

  const EMPTY_WORLD := World(map[], 0, map[], 0, false, None, Log(map[], map[], {}))

  lemma CreatedThenEdited(x: string, y: string) returns (run: seq<Action>, w: World)
    ensures At(Start(EMPTY_WORLD, true), run, w) && w.pass.None? && w.kube.Keys == {A}
    ensures w.kube[A].status.id == Some(0) && w.kube[A].spec == Spec([y])
    ensures w.remote == map[0 := Post(Input([x]), false)]
  {
    var w0 := Start(EMPTY_WORLD, true);
    assert At(w0, [], EMPTY_WORLD);
    hide At, Post, Input;
    var r, v := Do(w0, [], EMPTY_WORLD, UserCreates(A, Spec([x])));
    r, v := UpToLookup(w0, r, v, A);
    r, v := Creates(w0, r, v, A, [x]);
    run, w := Do(w0, r, v, UserEdits(A, Spec([y])));
  }

  lemma AdoptedByAnother(init: Start, run: seq<Action>, w: World, x: string, y: string)
    returns (run': seq<Action>, w': World)
    requires x != y && At(init, run, w) && w.pass.None? && w.kube.Keys == {A} && w.kube[A].spec == Spec([y])
    requires w.remote == map[0 := Post(Input([x]), false)]
    ensures At(init, run', w') && A in w'.kube && B in w'.kube
    ensures w'.kube[A].status == w.kube[A].status && w'.kube[B].status.id == Some(0)
  {
    PostedDomains([x]);
    SpecDomains([x]);
    SpecDomains([y]);
    assert A != B;
    hide At, Put, Capture, Post, Input, Spec, DomainsMatch, Can, Next;
    var r, v := Declares(init, run, w, B, [x]);
    assert DomainsUnique(v.kube, B, [x]);
    run', w' := Adopts(init, r, v, B, 0, [x]);
  }

  /** If A's domains are edited before A's next pass, B may adopt A's host: two live resources hold one id. */
  lemma EditedDomainsShareAHost(x: string, y: string) returns (run: seq<Action>)
    requires x != y
    ensures Init(EMPTY_WORLD) && Legal(EMPTY_WORLD, run)
    ensures NoOutsiders(run)
    ensures var kube := Exec(EMPTY_WORLD, run).kube;
            A in kube && B in kube && kube[A].status.id == kube[B].status.id == Some(0)
  {
    var r, v := CreatedThenEdited(x, y);
    var w;
    run, w := AdoptedByAnother(Start(EMPTY_WORLD, true), r, v, x, y);
  }

  // ---------------------------------------------------------------- crash before the status write

  function ForeignHost(domains: seq<string>): Host {
    Post(Input(domains), false).(forwardHost := "elsewhere")
  }

  function Adoptable(domains: seq<string>): World {
    EMPTY_WORLD.(remote := map[0 := ForeignHost(domains)], nextId := 1)
  }

  lemma HostValues(domains: seq<string>)
    ensures ForeignHost(domains).domainNames == domains
    ensures Put(ForeignHost(domains), Input(domains)).domainNames == domains
    ensures Capture(Put(ForeignHost(domains), Input(domains))) != Capture(ForeignHost(domains))
  {
    assert "backend"[0] != "elsewhere"[0];
  }

  lemma NewResource(domains: seq<string>) returns (run: seq<Action>, w: World)
    ensures At(Start(Adoptable(domains), false), run, w) && w.pass.None? && w.remote == Adoptable(domains).remote
    ensures w.kube.Keys == {A} && w.kube[A].status == EMPTY_STATUS
    ensures w.kube[A].spec == Spec(domains) && !w.kube[A].deleting
  {
    var init := Start(Adoptable(domains), false);
    assert At(init, [], init.world);
    hide At, ForeignHost, Spec;
    run, w := Do(init, [], init.world, UserCreates(A, Spec(domains)));
  }

  lemma FirstRewrite(domains: seq<string>) returns (run: seq<Action>, w: World)
    requires domains != []
    ensures At(Start(Adoptable(domains), false), run, w) && w.pass.None?
    ensures w.kube.Keys == {A} && w.kube[A].status == EMPTY_STATUS
    ensures w.kube[A].spec == Spec(domains) && !w.kube[A].deleting
    ensures w.remote == map[0 := Put(ForeignHost(domains), Input(domains))]
  {
    var init := Start(Adoptable(domains), false);
    HostValues(domains);
    var r, v := NewResource(domains);
    hide At, Put, ForeignHost, Input, Capture, Can, Next;
    r, v := UpToLookup(init, r, v, A);
    r, v := Rewrites(init, r, v, A, 0, domains);
    run, w := Stops(init, r, v);
  }

  lemma Stops(init: Start, run: seq<Action>, w: World) returns (run': seq<Action>, w': World)
    requires At(init, run, w)
    ensures At(init, run', w') && w' == w.(pass := None)
  {
    hide At;
    run', w' := Do(init, run, w, Stop);
  }

  lemma RecordedSnapshot(s: Status, st: Stage)
    requires st.Written? && st.plan.snapshot.Some?
    ensures Recorded(s, st).id == Some(st.id) && Recorded(s, st).snapshot == st.plan.snapshot
  {
  }

  /** If the adopting pass dies between its PUT and its status write, the next pass captures the rewritten host. */
  lemma CrashedAdoptionIsLate(domains: seq<string>) returns (run: seq<Action>)
    requires domains != []
    ensures Init(Adoptable(domains)) && Legal(Adoptable(domains), run) && NoOutsiders(run)
    ensures var kube := Exec(Adoptable(domains), run).kube;
            && A in kube && kube[A].status.id == Some(0) && 0 in Adoptable(domains).remote
            && kube[A].status.snapshot.Some? && kube[A].status.snapshot != Some(Capture(Adoptable(domains).remote[0]))
  {
    var init := Start(Adoptable(domains), false);
    var r, v := FirstRewrite(domains);
    HostValues(domains);
    hide Put, ForeignHost, Input, Capture, Recorded, Can, Next;
    r, v := UpToLookup(init, r, v, A);
    r, v := Rewrites(init, r, v, A, 0, domains);
    RecordedSnapshot(EMPTY_STATUS, v.pass.value.stage);
    r, v := Records(init, r, v, A);
    run := r;
  }

  // ---------------------------------------------------------------- crash after a creation

  lemma FirstCreation(domains: seq<string>) returns (run: seq<Action>, w: World)
    ensures At(Start(EMPTY_WORLD, false), run, w) && w.pass.None?
    ensures w.kube.Keys == {A} && w.kube[A].status == EMPTY_STATUS
    ensures w.kube[A].spec == Spec(domains) && !w.kube[A].deleting
    ensures w.remote == map[0 := Post(Input(domains), false)] && 0 in w.log.creator
  {
    var init := Start(EMPTY_WORLD, false);
    assert At(init, [], init.world);
    var r, v := Creation(init, domains);
    hide At, Post, Input, Can, Next;
    r, v := UpToLookup(init, r, v, A);
    r, v := Posted(init, r, v, domains);
    run, w := Stops(init, r, v);
  }

  lemma Creation(init: Start, domains: seq<string>) returns (run: seq<Action>, w: World)
    requires init == Start(EMPTY_WORLD, false)
    ensures At(init, run, w) && w.pass.None? && w.remote == map[] && w.nextId == 0 && !w.supported
    ensures w.kube.Keys == {A} && w.kube[A].status == EMPTY_STATUS
    ensures w.kube[A].spec == Spec(domains) && !w.kube[A].deleting
  {
    assert At(init, [], init.world);
    hide At, Spec;
    run, w := Do(init, [], init.world, UserCreates(A, Spec(domains)));
  }

  lemma Posted(init: Start, run: seq<Action>, w: World, domains: seq<string>) returns (run': seq<Action>, w': World)
    requires At(init, run, w) && A in w.kube && w.pass == Some(Pass(A, w.kube[A], Unique))
    requires w.nextId == 0 && w.remote == map[] && !w.supported
    requires w.kube[A].status == EMPTY_STATUS && w.kube[A].spec == Spec(domains)
    ensures At(init, run', w') && w'.kube == w.kube && 0 in w'.log.creator
    ensures w'.remote == map[0 := Post(Input(domains), false)]
  {
    hide At, Post;
    var run1, w1 := Do(init, run, w, Locate(None));
    run', w' := Do(init, run1, w1, PostNew(Input(domains), Ok));
  }

  lemma PostedDomains(domains: seq<string>)
    ensures Post(Input(domains), false).domainNames == domains && DomainsMatch(domains, domains)
  {
  }

  /** If the creating pass dies before its status write and binding is on, the next pass adopts the operator's own host:
      the resource is then bound to it, so deleting the resource will not delete the host. */
  lemma CrashedCreationIsAdopted(domains: seq<string>) returns (run: seq<Action>)
    requires domains != []
    ensures Init(EMPTY_WORLD) && Legal(EMPTY_WORLD, run) && NoOutsiders(run)
    ensures var w := Exec(EMPTY_WORLD, run);
            && A in w.kube && w.kube[A].status.id == Some(0) && w.kube[A].status.snapshot.Some?
            && 0 in w.log.creator
  {
    var init := Start(EMPTY_WORLD, false);
    var r, v := FirstCreation(domains);
    PostedDomains(domains);
    hide Put, Post, Input, Capture, Recorded, Can, Next, DomainsMatch;
    r, v := UpToLookup(init, r, v, A);
    r, v := Rewrites(init, r, v, A, 0, domains);
    RecordedSnapshot(EMPTY_STATUS, v.pass.value.stage);
    r, v := Records(init, r, v, A);
    run := r;
  }

  // ---------------------------------------------------------------- duplicate domains

  /** A deletion pass on an adopted host that dies right after sending the snapshot. */
  lemma RestoresAndDies(init: Start, run: seq<Action>, w: World, k: Key, i: nat, c: InitialConfiguration)
    returns (run': seq<Action>, w': World)
    requires At(init, run, w) && w.pass.None? && k in w.kube && w.kube[k].finalizer && i in w.remote
    requires w.kube[k].status.id == Some(i) && w.kube[k].status.bound && w.kube[k].status.snapshot == Some(c)
    ensures At(init, run', w') && w'.pass.None? && w'.kube.Keys == w.kube.Keys
    ensures forall m :: m in w.kube ==> w'.kube[m].spec == w.kube[m].spec && w'.kube[m].status == w.kube[m].status
    ensures w'.remote == w.remote[i := Put(w.remote[i], Restoration(c))]
  {
    hide At, Put, Restoration, WriteBack;
    var run1, w1 := Do(init, run, w, UserDeletes(k));
    var run2, w2 := Do(init, run1, w1, Begin(k));
    var run3, w3 := Do(init, run2, w2, EnterDeletion);
    var run4, w4 := Restoring(init, run3, w3, k, i, c);
    run', w' := Stops(init, run4, w4);
  }

  lemma Restoring(init: Start, run: seq<Action>, w: World, k: Key, i: nat, c: InitialConfiguration)
    returns (run': seq<Action>, w': World)
    requires At(init, run, w) && i in w.remote
    requires w.pass.Some? && var p := w.pass.value;
             Cleaning(p) && p.ph.status.id == Some(i) && p.ph.status.bound && p.ph.status.snapshot == Some(c)
    ensures At(init, run', w') && w'.kube == w.kube && w'.remote == w.remote[i := Put(w.remote[i], Restoration(c))]
  {
    hide At, Put, Restoration, WriteBack;
    run', w' := Do(init, run, w, Restore(Ok));
    WriteBackFrame(w, w.pass.value.key, i, Put(w.remote[i], Restoration(c)), c);
  }

  /** A pass that adopts host i, rewrites it and records it. */
  lemma Adopts(init: Start, run: seq<Action>, w: World, k: Key, i: nat, domains: seq<string>)
    returns (run': seq<Action>, w': World)
    requires At(init, run, w) && w.pass.None? && k in w.kube && !w.kube[k].deleting
    requires DomainsUnique(w.kube, k, domains) && domains != []
    requires w.kube[k].status == EMPTY_STATUS && w.kube[k].spec == Spec(domains)
    requires i in w.remote && DomainsMatch(w.remote[i].domainNames, domains)
    ensures At(init, run', w') && w'.pass.None? && w'.kube.Keys == w.kube.Keys
    ensures forall m :: m in w.kube && m != k ==>
              w'.kube[m].spec == w.kube[m].spec && w'.kube[m].status == w.kube[m].status
    ensures w'.kube[k].spec == Spec(domains) && w'.kube[k].finalizer
    ensures var s := w'.kube[k].status; s.id == Some(i) && s.bound && s.snapshot == Some(Capture(w.remote[i]))
    ensures w'.remote == w.remote[i := Put(w.remote[i], Input(domains))]
  {
    hide At, Put, Capture, DomainsMatch, DomainsUnique, Input, Recorded, Can, Next;
    var r, v := UpToLookup(init, run, w, k);
    ForAll(w, v, k);
    r, v := Rewrites(init, r, v, k, i, domains);
    RecordedAdoption(EMPTY_STATUS, v.pass.value.stage);
    r, v := Records(init, r, v, k);
    run', w' := Stops(init, r, v);
  }

  lemma ForAll(w: World, w': World, k: Key)
    requires SameButFinalizer(w, w', k) && k in w.kube
    ensures forall m :: m in w.kube ==> w'.kube[m].spec == w.kube[m].spec && w'.kube[m].status == w.kube[m].status
    ensures w'.kube[k].finalizer
  {
    forall m | m in w.kube ensures w'.kube[m].spec == w.kube[m].spec && w'.kube[m].status == w.kube[m].status {
      assert w'.kube[m].(version := 0) == w.kube[m].(version := 0, finalizer := m == k || w.kube[m].finalizer);
    }
    assert w'.kube[k].(version := 0) == w.kube[k].(version := 0, finalizer := true);
  }

  lemma RecordedAdoption(s: Status, st: Stage)
    requires st.Written? && st.plan.snapshot.Some?
    ensures var r := Recorded(s, st); r.id == Some(st.id) && r.snapshot == st.plan.snapshot && r.bound == st.plan.bound
  {
  }

  lemma Declares(init: Start, run: seq<Action>, w: World, k: Key, domains: seq<string>)
    returns (run': seq<Action>, w': World)
    requires At(init, run, w) && w.pass.None? && k !in w.kube
    ensures At(init, run', w') && w'.pass.None? && w'.remote == w.remote
    ensures k in w'.kube && w'.kube == w.kube[k := w'.kube[k]]
    ensures w'.kube[k].spec == Spec(domains) && w'.kube[k].status == EMPTY_STATUS && !w'.kube[k].deleting
  {
    hide At, Spec;
    run', w' := Do(init, run, w, UserCreates(k, Spec(domains)));
  }

  lemma SpecDomains(domains: seq<string>)
    ensures Spec(domains).domainNames == domains
  {
  }

  /** The host list [a, b] passes for [a, a] and for [b, b]. */
  lemma DuplicatesMatch(a: string, b: string)
    ensures DomainsMatch([a, b], [a, a]) && DomainsMatch([a, b], [b, b])
    ensures a != b ==> Disjoint([b, b], [a, a])
  {
    assert [a, b][0] == a && [a, b][1] == b;
  }

  lemma HostWithDomains(domains: seq<string>, input: seq<string>)
    ensures var h := ForeignHost(domains);
            h.domainNames == domains && Put(Put(h, Input(input)), Restoration(Capture(h))).domainNames == domains
  {
  }

  /** A = [a, a] adopts the host with [a, b] and gives it back, but its deletion dies before the finalizer is
      dropped. */
  lemma AdoptedAndGivenBack(a: string, b: string) returns (run: seq<Action>, w: World)
    ensures At(Start(Adoptable([a, b]), false), run, w) && w.pass.None? && w.kube.Keys == {A}
    ensures w.kube[A].spec.domainNames == [a, a] && w.kube[A].status.id == Some(0)
    ensures 0 in w.remote && w.remote[0].domainNames == [a, b]
  {
    var init := Start(Adoptable([a, b]), false);
    assert At(init, [], init.world);
    DuplicatesMatch(a, b);
    HostWithDomains([a, b], [a, a]);
    SpecDomains([a, a]);
    hide At, Put, Capture, Restoration, Input, ForeignHost, Spec, DomainsMatch, Disjoint, Can, Next;
    var r, v := Declares(init, [], init.world, A, [a, a]);
    r, v := Adopts(init, r, v, A, 0, [a, a]);
    run, w := RestoresAndDies(init, r, v, A, 0, Capture(init.world.remote[0]));
  }

  /** Then B = [b, b] adopts the same host. */
  lemma AdoptedAgain(init: Start, run: seq<Action>, w: World, a: string, b: string)
    returns (run': seq<Action>, w': World)
    requires a != b && At(init, run, w) && w.pass.None? && w.kube.Keys == {A} && w.kube[A].spec.domainNames == [a, a]
    requires 0 in w.remote && w.remote[0].domainNames == [a, b]
    ensures At(init, run', w') && A in w'.kube && B in w'.kube
    ensures w'.kube[A].status == w.kube[A].status && w'.kube[B].status.id == Some(0)
  {
    DuplicatesMatch(a, b);
    SpecDomains([b, b]);
    assert A != B;
    hide At, Put, Capture, Input, Spec, DomainsMatch, Disjoint, Can, Next;
    var r, v := Declares(init, run, w, B, [b, b]);
    assert DomainsUnique(v.kube, B, [b, b]);
    run', w' := Adopts(init, r, v, B, 0, [b, b]);
  }

  /** Domain lists with duplicates let two resources hold one host, although nothing was edited and no outsider
      acted. */
  lemma DuplicateDomainsShareAHost(a: string, b: string) returns (run: seq<Action>)
    requires a != b
    ensures var init := Adoptable([a, b]);
            && Init(init) && Legal(init, run) && NoOutsiders(run) && NoEdits(run)
            && var kube := Exec(init, run).kube;
               A in kube && B in kube && kube[A].status.id == kube[B].status.id == Some(0)
  {
    hide ForeignHost;
    var r, v := AdoptedAndGivenBack(a, b);
    var w;
    run, w := AdoptedAgain(Start(Adoptable([a, b]), false), r, v, a, b);
  }
}
