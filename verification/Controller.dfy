/** The ProxyHost controller as it runs: one object over the two stores, whose methods make the calls of a pass
    (internal/controller/proxyhost/proxyhost_controller.go, internal/controller/helpers.go, pkg/nginxpm/proxy_host.go).
    Between any two calls others may act, and any call may fail or lose its answer. Every method extends
    a legal run of module Lifecycle, so what holds of all runs holds of this code; a crash is a run that ends early. */
module Controller {
  import opened Text
  import opened Npm
  import opened Api
  import opened UpstreamText
  import opened Lifecycle
  import opened Forward
  import opened Compiler
  import opened Convergence
  import opened StatusWrites
  import opened PassSteps
  import opened Restoration

  class ProxyHostReconciler {
    // the API server and Nginx Proxy Manager
    var kube: map<Key, Resource>
    var clock: nat
    var remote: map<nat, Host>
    var nextId: nat
    const supported: bool
    // history
    ghost const init: World
    ghost var trace: seq<Action>
    ghost var pass: Option<Pass>
    ghost var log: Log
    /** Since it was last set: nobody else acted and no call failed. */
    ghost var calm: bool
    /** Since it was last set: no user acted and no call to the API server failed. */
    ghost var served: bool

    ghost function Now(): World
      reads this
    {
      World(kube, clock, remote, nextId, supported, pass, log)
    }

    ghost predicate Valid()
      reads this
    {
      Init(init) && Legal(init, trace) && Exec(init, trace) == Now() && (calm ==> served)
    }

    constructor (kube: map<Key, Resource>, clock: nat, remote: map<nat, Host>, nextId: nat, supported: bool)
      requires Init(World(kube, clock, remote, nextId, supported, None, Log(map[], map[], {})))
      ensures Valid() && trace == [] && pass.None?
    {
      this.kube, this.clock, this.remote, this.nextId, this.supported := kube, clock, remote, nextId, supported;
      this.trace, this.pass, this.log, this.calm, this.served := [], None, Log(map[], map[], {}), true, true;
      this.init := World(kube, clock, remote, nextId, supported, None, Log(map[], map[], {}));
    }

    /** The stores are those of world w. */
    ghost predicate Holds(w: World)
      reads this
    {
      kube == w.kube && clock == w.clock && remote == w.remote && nextId == w.nextId && supported == w.supported
    }

    ghost predicate SameStores(w: World)
      reads this
    {
      Holds(w) && log == w.log
    }

    /** Takes note of a step whose effect on the stores is in place. */
    ghost method Record(before: World, a: Action)
      requires Init(init) && Legal(init, trace) && Exec(init, trace) == before && Can(before, a) && (calm ==> served)
      requires Holds(Next(before, a))
      modifies `trace, `pass, `log
      ensures Valid() && Now() == Next(before, a) && trace == old(trace) + [a]
    {
      hide Can, Next, Init;
      LegalAppend(init, trace, a);
      trace, pass, log := trace + [a], Next(before, a).pass, Next(before, a).log;
    }

    /** A step that changes only the pass. */
    ghost method Advance(a: Action)
      requires Valid() && Can(Now(), a) && Holds(Next(Now(), a))
      modifies `trace, `pass, `log
      ensures Valid() && pass == Next(old(Now()), a).pass && trace == old(trace) + [a]
    {
      hide Init, Legal, Exec, Can, Next;
      Record(Now(), a);
    }

    /** An error inside a pass. */
    ghost method GiveUp()
      requires Valid() && pass.Some? && !pass.value.stage.Fetched?
      modifies `trace, `pass, `log
      ensures Valid() && old(trace) <= trace && pass == Some(old(pass).value.(stage := Finished))
    {
      hide Init, Legal, Exec;
      Advance(Fail);
    }

    /** The end of a pass. */
    ghost method End()
      requires Valid()
      modifies `trace, `pass, `log
      ensures Valid() && old(trace) <= trace && pass == None
    {
      hide Init, Legal, Exec;
      Advance(Stop);
    }

    lemma Sound()
      requires Valid()
      ensures Inv(Now())
    {
      hide Init, Inv, Legal, Exec;
      InitOk(init);
      RunKeepsInv(init, trace);
    }

    /** A local copy with the server's version is the server's object. */
    lemma LocalCopy()
      requires Valid() && pass.Some?
      ensures CopyOk(Now(), pass.value.key, pass.value.ph)
    {
      hide Init, Legal, Exec;
      Sound();
    }

    /** A deletion is never taken back. */
    lemma StillMarked()
      requires Valid() && pass.Some? && !pass.value.stage.Fetched?
      ensures pass.value.key in kube && (pass.value.ph.deleting ==> kube[pass.value.key].deleting)
    {
      hide Init, Legal, Exec;
      Sound();
      assert PassOk(Now(), pass.value);
    }

    // -------------------------------------------------------------- other actors

    /** One action of somebody else, if it is possible. */
    method Other(a: Action)
      requires Valid()
      modifies `kube, `clock, `remote, `nextId, `trace, `pass, `log
      ensures Valid() && pass == old(pass) && log == old(log)
      ensures trace == old(trace) || (ByOthers(a) && trace == old(trace) + [a])
      ensures trace == old(trace) ==> Now() == old(Now())
    {
      hide Init, Legal, Exec;
      ghost var before := Now();
      match a {
        case UserCreates(key, spec) =>
          if key !in kube {
            kube, clock := kube[key := Resource(spec, EMPTY_STATUS, false, false, clock + 1)], clock + 1;
            Record(before, a);
          }
        case UserEdits(key, spec) =>
          if key in kube {
            kube, clock := kube[key := kube[key].(spec := spec, version := clock + 1)], clock + 1;
            Record(before, a);
          }
        case UserDeletes(key) =>
          if key in kube {
            if kube[key].finalizer {
              kube, clock := kube[key := kube[key].(deleting := true, version := clock + 1)], clock + 1;
            } else {
              kube := kube - {key};
            }
            Record(before, a);
          }
        case OutsiderAdds(host) =>
          remote, nextId := remote[nextId := host], nextId + 1;
          Record(before, a);
        case OutsiderEdits(id, host) =>
          if id in remote {
            remote := remote[id := host];
            Record(before, a);
          }
        case OutsiderRemoves(id) =>
          if id in remote {
            remote := remote - {id};
            Record(before, a);
          }
        case _ =>
      }
    }

    /** Any number of actions of others. */
    method Others()
      requires Valid()
      modifies `kube, `clock, `remote, `nextId, `trace, `pass, `log, `calm, `served
      ensures Valid() && pass == old(pass) && log == old(log) && Interlude(old(trace), trace)
      ensures calm ==> old(calm) && Now() == old(Now()) && trace == old(trace)
      ensures served ==> old(served) && kube == old(kube)
    {
      hide Init, Legal, Exec;
      var others: seq<Action> := *;
      for i := 0 to |others|
        invariant Valid() && pass == old(pass) && log == old(log) && Interlude(old(trace), trace)
        invariant calm ==> old(calm) && Now() == old(Now()) && trace == old(trace)
        invariant served ==> old(served) && kube == old(kube)
      {
        ghost var before, k := trace, kube;
        Other(others[i]);
        calm, served := calm && trace == before, served && kube == k;
      }
    }

    /** How the next call to Nginx Proxy Manager ends, as far as the transport goes. */
    method NpmCall() returns (reply: Reply)
      modifies `calm
      ensures calm ==> old(calm) && reply.Ok?
    {
      reply := *;
      calm := calm && reply.Ok?;
    }

    /** How the next call to the API server ends, as far as the transport goes. */
    method ApiCall() returns (reply: Reply)
      requires calm ==> served
      modifies `calm, `served
      ensures calm ==> served
      ensures calm ==> old(calm) && reply.Ok?
      ensures served ==> old(served) && reply.Ok?
    {
      reply := *;
      calm, served := calm && reply.Ok?, served && reply.Ok?;
    }

    // -------------------------------------------------------------- status writes

    /** Reads the object again into the local copy. */
    method Get(key: Key, local: Resource) returns (ok: bool, ph: Resource)
      requires Valid() && pass.Some? && pass.value.key == key && pass.value.ph == local
      requires pass.value.stage.Guarded? || pass.value.stage.Written? || pass.value.stage.Finished?
      modifies `kube, `clock, `remote, `nextId, `trace, `pass, `log, `calm, `served
      ensures Valid() && pass == Some(old(pass).value.(ph := ph))
      ensures if ok then OneStep(old(trace), trace, Reread) else Interlude(old(trace), trace)
      ensures ok ==> key in kube && kube[key] == ph
      ensures local.deleting ==> ph.deleting
      ensures calm ==> old(calm) && SameStores(old(Now())) && (key in kube ==> ok)
      ensures served ==> old(served) && kube == old(kube) && (key in kube ==> ok)
    {
      hide Init, Legal, Exec;
      ph := local;
      Others();
      var reply := ApiCall();
      if !reply.Ok? || key !in kube {
        return false, ph;
      }
      StillMarked();
      ghost var before := Now();
      ph := kube[key];
      Record(before, Reread);
      return true, ph;
    }

    /** The server's side of a status update: nothing, or the whole mutated copy. */
    method WriteStatus(key: Key, m: Mutation, local: Resource, reply: Reply) returns (ph: Resource)
      requires Valid() && pass.Some? && pass.value.key == key && pass.value.ph == local && Fits(m, pass.value.stage)
      requires Took(reply) ==> key in kube && kube[key].version == local.version
      modifies `kube, `clock, `trace, `pass, `log
      ensures Valid() && trace == old(trace) + [SaveStep(m, reply)]
      ensures pass.Some? && pass.value.key == key && pass.value.ph == ph
      ensures pass.value.stage == if reply.Lost? && m.RecordHost? then Finished else old(pass).value.stage
      ensures reply.Ok? ==> Committed(init, trace, key, m) && key in kube && kube[key] == ph
      ensures ph.deleting == local.deleting
      ensures Took(reply) ==>
                kube == old(kube)[key := local.(status := Mutate(m, local.status), version := old(clock) + 1)]
    {
      hide Init, Legal, Exec, Mutate, Can, Next, Committed, Fits, SaveStep;
      ghost var before, run := Now(), trace;
      LocalCopy();
      SavingStep(before, m, reply);
      ph := local;
      if !reply.Refused? {
        kube, clock := kube[key := local.(status := Mutate(m, local.status), version := clock + 1)], clock + 1;
      }
      if reply.Ok? {
        ph := kube[key];
      }
      Record(before, SaveStep(m, reply));
      if reply.Ok? {
        CommittedBy(init, run, m);
      }
    }

    /** Sends the mutated copy; it is rejected when the version moved since it was read. */
    method SendStatus(key: Key, m: Mutation, local: Resource) returns (r: Attempt, ph: Resource, ghost answer: Reply)
      requires Valid() && pass.Some? && pass.value.key == key && pass.value.ph == local && Fits(m, pass.value.stage)
      modifies `kube, `clock, `remote, `nextId, `trace, `pass, `log, `calm, `served
      ensures Valid() && pass.Some? && pass.value.key == key && pass.value.ph == ph
      ensures pass.value.stage == if answer.Lost? && m.RecordHost? then Finished else old(pass).value.stage
      ensures OneStep(old(trace), trace, SaveStep(m, answer))
      ensures (r.Saved? <==> answer.Ok?) && (r.Conflict? ==> answer.Refused?)
      ensures r.Saved? ==> Committed(init, trace, key, m) && key in kube && kube[key] == ph
      ensures ph.deleting == local.deleting
      ensures calm ==> old(calm) && remote == old(remote) && nextId == old(nextId)
      ensures calm && key in old(kube) && old(kube)[key].version == local.version
              ==> r.Saved?
      ensures served ==> old(served) && (key in old(kube) && old(kube)[key].version == local.version ==> r.Saved?)
      ensures served && r.Saved? ==>
                && key in kube
                && kube == old(kube)[key := local.(status := Mutate(m, local.status), version := kube[key].version)]
    {
      hide Init, Legal, Exec, Mutate, Committed, Fits, SaveStep;
      Others();
      var reply := ApiCall();
      if key !in kube {
        reply, r := Refused, Failed;
      } else if kube[key].version != local.version {
        reply, r := Refused, Conflict;
      } else {
        r := if reply.Ok? then Saved else Failed;
      }
      ghost var t := trace;
      ph := WriteStatus(key, m, local, reply);
      answer := reply;
      assert trace[..|trace| - 1] == t;
    }

    /** One attempt: get, mutate, update. */
    method TryStatus(key: Key, m: Mutation, local: Resource) returns (r: Attempt, ph: Resource)
      requires Valid() && pass.Some? && pass.value.key == key && pass.value.ph == local && Fits(m, pass.value.stage)
      modifies `kube, `clock, `remote, `nextId, `trace, `pass, `log, `calm, `served
      ensures Valid() && pass.Some? && pass.value.key == key && pass.value.ph == ph
      ensures pass.value.stage == old(pass).value.stage || (m.RecordHost? && r.Failed? && pass.value.stage == Finished)
      ensures r.Saved? ==>
                Ends(old(trace), trace, m, Ok) && Committed(init, trace, key, m) && key in kube && kube[key] == ph
      ensures r.Conflict? ==> Attempts(old(trace), trace, m)
      ensures r.Failed? ==> Attempts(old(trace), trace, m) || Ends(old(trace), trace, m, Lost)
      ensures Updates(trace) <= Updates(old(trace)) + 1
      ensures local.deleting ==> ph.deleting
      ensures calm ==> old(calm) && remote == old(remote) && nextId == old(nextId)
      ensures served ==> old(served) && !r.Conflict? && (key in old(kube) ==> r.Saved?)
      ensures served && key in old(kube) ==>
                && key in kube
                && kube == old(kube)[key := old(kube)[key].(status := Mutate(m, old(kube)[key].status),
                                                            version := kube[key].version)]
    {
      hide Init, Legal, Exec, Mutate, Committed, SaveStep;
      var ok;
      ok, ph := Get(key, local);
      CountReads(old(trace), trace);
      Reading(old(trace), old(trace), trace, m);
      if !ok {
        return Failed, ph;
      }
      ghost var read := trace;
      ghost var reply;
      r, ph, reply := SendStatus(key, m, ph);
      CountSave(read, trace, m, reply);
      Sending(old(trace), read, trace, m, reply);
    }

    /** UpdateStatus. When it succeeds, the mutation was applied once to the version the server had just before;
        when it fails without a lost answer, it changed nothing; it sends at most five updates. */
    method UpdateStatus(key: Key, m: Mutation, local: Resource) returns (saved: bool, ph: Resource)
      requires Valid() && pass.Some? && pass.value.key == key && pass.value.ph == local && Fits(m, pass.value.stage)
      modifies `kube, `clock, `remote, `nextId, `trace, `pass, `log, `calm, `served
      ensures Valid() && pass.Some? && pass.value.key == key && pass.value.ph == ph
      ensures pass.value.stage == old(pass).value.stage || (m.RecordHost? && !saved && pass.value.stage == Finished)
      ensures saved ==> Ends(old(trace), trace, m, Ok) && Committed(init, trace, key, m)
      ensures !saved ==> Attempts(old(trace), trace, m) || Ends(old(trace), trace, m, Lost)
      ensures old(trace) <= trace && Updates(trace) <= Updates(old(trace)) + 5
      ensures local.deleting ==> ph.deleting
      ensures calm ==> old(calm) && remote == old(remote) && nextId == old(nextId)
      ensures served ==> old(served)
      ensures served && key in old(kube) ==>
                saved && key in kube && kube[key] == ph
                && kube == old(kube)[key := old(kube)[key].(status := Mutate(m, old(kube)[key].status),
                                                            version := kube[key].version)]
    {
      hide Init, Legal, Exec, Mutate, Committed, SaveStep, Attempts, Ends;
      ph := local;
      AttemptsStart(trace, m);
      for i := 0 to STATUS_ATTEMPTS
        invariant Valid() && pass == Some(old(pass).value.(ph := ph))
        invariant Attempts(old(trace), trace, m)
        invariant Updates(trace) <= Updates(old(trace)) + i
        invariant local.deleting ==> ph.deleting
        invariant calm || served ==> i == 0
        invariant i == 0 ==> calm == old(calm) && served == old(served) && SameStores(old(Now())) && trace == old(trace)
      {
        ghost var before := trace;
        var r;
        r, ph := TryStatus(key, m, ph);
        MoreAttempts(old(trace), before, trace, m);
        match r {
          case Saved => return true, ph;
          case Failed => return false, ph;
          case Conflict =>
        }
      }
      MoreAttempts(old(trace), trace, trace, m);
      return false, ph;
    }

    // -------------------------------------------------------------- Nginx Proxy Manager

    /** getProxyHosts, with or without a query. */
    method GetProxyHosts(query: Option<string>) returns (r: Result<seq<Found>>)
      requires Valid()
      modifies `kube, `clock, `remote, `nextId, `trace, `pass, `log, `calm, `served
      ensures Valid() && pass == old(pass) && log == old(log) && Interlude(old(trace), trace)
      ensures r.Success? ==> Listed(r.value, remote, query)
      ensures calm ==> old(calm) && SameStores(old(Now())) && trace == old(trace) && r.Success?
      ensures served ==> old(served) && kube == old(kube)
    {
      hide Init, Legal, Exec;
      Others();
      var reply := NpmCall();
      if !reply.Ok? {
        return Failure;
      }
      var hosts := Listing(remote, query);
      return Success(hosts);
    }

    method FindProxyHostByID(id: nat) returns (r: Result<Option<Found>>)
      requires Valid()
      modifies `kube, `clock, `remote, `nextId, `trace, `pass, `log, `calm, `served
      ensures Valid() && pass == old(pass) && log == old(log) && Interlude(old(trace), trace)
      ensures r.Success? ==> r.value == if id in remote then Some(Found(id, remote[id])) else None
      ensures calm ==> old(calm) && SameStores(old(Now())) && trace == old(trace) && r.Success?
      ensures served ==> old(served) && kube == old(kube)
    {
      hide Init, Legal, Exec;
      var hosts := GetProxyHosts(None);
      if hosts.Failure? {
        return Failure;
      }
      var found := FirstWithId(hosts.value, id);
      return Success(found);
    }

    method FindProxyHostByDomain(domains: seq<string>) returns (r: Result<Option<Found>>)
      requires Valid()
      modifies `kube, `clock, `remote, `nextId, `trace, `pass, `log, `calm, `served
      ensures Valid() && pass == old(pass) && log == old(log) && Interlude(old(trace), trace)
      ensures domains == [] ==> r.Failure?
      ensures r.Success? && r.value.Some? ==>
                var f := r.value.value;
                f.id in remote && remote[f.id] == f.host && DomainsMatch(f.host.domainNames, domains)
      ensures r.Success? && r.value.None? ==> forall i :: i in remote ==> !DomainsMatch(remote[i].domainNames, domains)
      ensures calm ==> old(calm) && SameStores(old(Now())) && trace == old(trace) && (domains != [] ==> r.Success?)
      ensures served ==> old(served) && kube == old(kube)
    {
      hide Init, Legal, Exec, DomainsMatch, Answers;
      if |domains| == 0 {
        return Failure;
      }
      var hosts := GetProxyHosts(Some(domains[0]));
      if hosts.Failure? {
        return Failure;
      }
      forall i | i in remote && DomainsMatch(remote[i].domainNames, domains) ensures Answers(remote[i], domains[0]) {
        MatchAnswersQuery(remote[i], domains);
      }
      var found := FirstWithDomains(hosts.value, domains);
      return Success(found);
    }

    /** The server's side of a PUT. */
    method ServePut(id: nat, input: RequestInput, ghost purpose: Purpose, reply: Reply)
      requires Valid() && pass.Some? && MayPut(pass.value, purpose, id, input) && (Took(reply) ==> id in remote)
      modifies `remote, `trace, `pass, `log
      ensures Valid() && trace == old(trace) + [PutStep(purpose, input, reply)]
      ensures remote == if Took(reply) then old(remote)[id := Put(old(remote)[id], input)] else old(remote)
      ensures pass == Some(old(pass).value.(stage := AfterPut(old(pass).value, purpose, id, input, reply,
                                                              id in old(remote) && old(remote)[id].online)))
    {
      hide Init, Legal, Exec, Can, Next, Put, MayPut, AfterPut;
      ghost var before := Now();
      Putting(before, purpose, id, input, reply);
      if !reply.Refused? {
        remote := remote[id := Put(remote[id], input)];
      }
      Record(before, PutStep(purpose, input, reply));
    }

    /** UpdateProxyHost: an absent host refuses the request. */
    method UpdateProxyHost(id: nat, input: RequestInput, ghost purpose: Purpose)
      returns (updated: bool, online: bool, ghost reply: Reply)
      requires Valid() && pass.Some? && MayPut(pass.value, purpose, id, input)
      modifies `kube, `clock, `remote, `nextId, `trace, `pass, `log, `calm, `served
      ensures Valid() && OneStep(old(trace), trace, PutStep(purpose, input, reply)) && (updated <==> reply.Ok?)
      ensures pass == Some(old(pass).value.(stage := AfterPut(old(pass).value, purpose, id, input, reply, online)))
      ensures calm ==> old(calm) && kube == old(kube) && nextId == old(nextId)
                       && updated == (id in old(remote)) && online == (id in old(remote) && old(remote)[id].online)
                       && remote == if id in old(remote) then old(remote)[id := Put(old(remote)[id], input)]
                                    else old(remote)
      ensures served ==> old(served) && kube == old(kube)
    {
      hide Init, Legal, Exec, Put, MayPut, AfterPut, PutStep;
      Others();
      var answer := NpmCall();
      if id !in remote {
        answer := Refused;
      }
      ghost var t := trace;
      online := id in remote && remote[id].online;
      ServePut(id, input, purpose, answer);
      assert trace[..|trace| - 1] == t;
      updated, reply := answer.Ok?, answer;
    }

    /** The server's side of a creation. */
    method ServeCreate(input: RequestInput, reply: Reply)
      requires Valid() && pass.Some? && pass.value.stage.Located? && pass.value.stage.target.None?
      requires input.domainNames == pass.value.stage.plan.domains
      modifies `remote, `nextId, `trace, `pass, `log
      ensures Valid() && trace == old(trace) + [PostNew(input, reply)]
      ensures Took(reply) ==> remote == old(remote)[old(nextId) := Post(input, supported)] && nextId == old(nextId) + 1
      ensures pass == Some(old(pass).value.(
                stage := if reply.Ok? then Written(old(pass).value.stage.plan, old(nextId), input.certificateId, true)
                         else Finished))
    {
      hide Init, Legal, Exec, Can, Next, Post;
      ghost var before := Now();
      Creating(before, input, reply);
      if !reply.Refused? {
        remote, nextId := remote[nextId := Post(input, supported)], nextId + 1;
      }
      Record(before, PostNew(input, reply));
    }

    /** CreateProxyHost. */
    method CreateProxyHost(input: RequestInput) returns (created: Option<Found>)
      requires Valid() && pass.Some? && pass.value.stage.Located? && pass.value.stage.target.None?
      requires input.domainNames == pass.value.stage.plan.domains
      modifies `kube, `clock, `remote, `nextId, `trace, `pass, `log, `calm, `served
      ensures Valid() && old(trace) <= trace
      ensures pass == Some(old(pass).value.(
                stage := if created.Some?
                         then Written(old(pass).value.stage.plan, created.value.id, input.certificateId, true)
                         else Finished))
      ensures created.Some? ==>
                created.value.host == Post(input, supported) && OneStep(old(trace), trace, PostNew(input, Ok))
      ensures calm ==>
                old(calm) && kube == old(kube) && nextId == old(nextId) + 1
                && created == Some(Found(old(nextId), Post(input, supported)))
                && remote == old(remote)[old(nextId) := Post(input, supported)]
      ensures served ==> old(served) && kube == old(kube)
    {
      hide Init, Legal, Exec, Post;
      Others();
      var reply := NpmCall();
      ghost var t := trace;
      created := if reply.Ok? then Some(Found(nextId, Post(input, supported))) else None;
      ServeCreate(input, reply);
      assert trace[..|trace| - 1] == t;
    }

    /** The server's side of an enable request. */
    method ServeEnable(id: nat, ghost cleaning: bool, reply: Reply)
      requires Valid() && pass.Some? && MayEnable(pass.value, cleaning, id) && (Took(reply) ==> id in remote)
      modifies `remote, `trace, `pass, `log
      ensures Valid() && trace == old(trace) + [EnableStep(cleaning, reply)]
      ensures remote == if Took(reply) then old(remote)[id := old(remote)[id].(enabled := true)] else old(remote)
      ensures pass == Some(if cleaning then old(pass).value.(stage := Releasing(CleanupAttempted, None))
                           else old(pass).value)
    {
      hide Init, Legal, Exec, Can, Next, MayEnable;
      ghost var before := Now();
      Enabling(before, cleaning, id, reply);
      if !reply.Refused? {
        remote := remote[id := remote[id].(enabled := true)];
      }
      Record(before, EnableStep(cleaning, reply));
    }

    /** The enable request itself. */
    method RequestEnable(id: nat, ghost cleaning: bool)
      requires Valid() && pass.Some? && MayEnable(pass.value, cleaning, id)
      modifies `kube, `clock, `remote, `nextId, `trace, `pass, `log, `calm, `served
      ensures Valid() && old(trace) <= trace
      ensures pass == Some(if cleaning then old(pass).value.(stage := Releasing(CleanupAttempted, None))
                           else old(pass).value)
      ensures calm ==> old(calm) && kube == old(kube) && nextId == old(nextId)
                       && remote == if id in old(remote) then old(remote)[id := old(remote)[id].(enabled := true)]
                                    else old(remote)
      ensures served ==> old(served) && kube == old(kube)
    {
      hide Init, Legal, Exec, MayEnable;
      Others();
      var reply := NpmCall();
      if id !in remote {
        reply := Refused;
      }
      ServeEnable(id, cleaning, reply);
    }

    /** EnableProxyHost. It looks the host up first and panics when there is none. */
    method EnableProxyHost(id: nat, ghost cleaning: bool) returns (panicked: bool)
      requires Valid() && pass.Some? && MayEnable(pass.value, cleaning, id)
      modifies `kube, `clock, `remote, `nextId, `trace, `pass, `log, `calm, `served
      ensures Valid() && old(trace) <= trace
      ensures pass == Some(if cleaning && !panicked
                           then old(pass).value.(stage := Releasing(CleanupAttempted, None))
                           else old(pass).value)
      ensures panicked ==> id !in remote
      ensures calm ==> old(calm) && kube == old(kube) && nextId == old(nextId)
                       && (panicked <==> id !in old(remote))
                       && remote == if id in old(remote) then old(remote)[id := old(remote)[id].(enabled := true)]
                                    else old(remote)
      ensures served ==> old(served) && kube == old(kube)
    {
      hide Init, Legal, Exec, MayEnable;
      var found := FindProxyHostByID(id);
      if found == Success(None) {
        return true;
      }
      panicked := false;
      if found.Failure? || found.value.value.host.enabled {
        SkipEnabling(cleaning, id);
        return;
      }
      RequestEnable(id, cleaning);
    }

    /** Nothing to enable: a clean-up goes on, a live pass stays where it is. */
    ghost method SkipEnabling(cleaning: bool, id: nat)
      requires Valid() && pass.Some? && MayEnable(pass.value, cleaning, id)
      modifies `trace, `pass, `log
      ensures Valid() && old(trace) <= trace && log == old(log)
      ensures pass == Some(if cleaning then old(pass).value.(stage := Releasing(CleanupAttempted, None))
                           else old(pass).value)
    {
      hide Init, Legal, Exec;
      if cleaning {
        Record(Now(), SkipReenable);
      }
    }

    /** The server's side of a DELETE. */
    method ServeDelete(id: nat, reply: Reply)
      requires Valid() && pass.Some? && Cleaning(pass.value) && pass.value.ph.status.id == Some(id)
      requires !pass.value.ph.status.bound
      requires Took(reply) ==> id in remote
      modifies `remote, `trace, `pass, `log
      ensures Valid() && trace == old(trace) + [DeleteHost(reply)]
      ensures remote == if Took(reply) then old(remote) - {id} else old(remote)
      ensures pass == Some(old(pass).value.(stage := Releasing(CleanupAttempted, None)))
    {
      hide Init, Legal, Exec, Can, Next, Cleaning;
      ghost var before := Now();
      Deleting(before, id, reply);
      if !reply.Refused? {
        remote := remote - {id};
      }
      Record(before, DeleteHost(reply));
    }

    /** DeleteProxyHost: nothing to do when the host is gone already. */
    method DeleteProxyHost(id: nat)
      requires Valid() && pass.Some? && Cleaning(pass.value) && pass.value.ph.status.id == Some(id)
      requires !pass.value.ph.status.bound
      modifies `kube, `clock, `remote, `nextId, `trace, `pass, `log, `calm, `served
      ensures Valid() && old(trace) <= trace
      ensures pass == Some(old(pass).value.(stage := Releasing(CleanupAttempted, None)))
      ensures calm ==> old(calm) && kube == old(kube) && nextId == old(nextId) && remote == old(remote) - {id}
      ensures served ==> old(served) && kube == old(kube)
    {
      hide Init, Legal, Exec, Cleaning;
      var existing := FindProxyHostByID(id);
      var reply := Refused;
      if existing.Success? && existing.value.Some? {
        Others();
        reply := NpmCall();
        if id !in remote {
          reply := Refused;
        }
      }
      ServeDelete(id, reply);
    }

    // -------------------------------------------------------------- createOrUpdateProxyHost

    /** The lookup at the start: by recorded id, else by domains; the error of the latter is dropped. */
    method LookUp(ph: Resource) returns (ok: bool, target: Option<Found>)
      requires Valid()
      modifies `kube, `clock, `remote, `nextId, `trace, `pass, `log, `calm, `served
      ensures Valid() && old(trace) <= trace && pass == old(pass)
      ensures ok ==> CanLocate(remote, ph, IdOf(target))
      ensures ok && target.Some? ==> target.value.id in remote && remote[target.value.id] == target.value.host
      ensures calm ==>
                old(calm) && Holds(old(Now())) && ok
                && Locates(Scene(ph.spec, ClaimOf(ph.status), remote, nextId), IdOf(target))
      ensures served ==> old(served) && kube == old(kube)
    {
      hide Init, Legal, Exec, DomainsMatch;
      ok, target := true, None;
      if ph.status.id.Some? {
        var found := FindProxyHostByID(ph.status.id.value);
        if found.Failure? {
          return false, None;
        }
        target := found.value;
      } else if ph.spec.bindExisting {
        var found := FindProxyHostByDomain(ph.spec.domainNames);
        target := if found.Success? then found.value else None;
      }
    }

    method LocateHost(key: Key, ph: Resource)
      returns (ok: bool, bound: bool, captured: Option<InitialConfiguration>, target: Option<Found>)
      requires Valid() && pass == Some(Pass(key, ph, Unique))
      modifies `kube, `clock, `remote, `nextId, `trace, `pass, `log, `calm, `served
      ensures Valid() && old(trace) <= trace
      ensures pass.Some? && pass.value == Pass(key, ph, pass.value.stage)
      ensures !ok ==> pass.value.stage == Finished
      ensures ok ==> pass.value.stage.Located?
                     && pass.value.stage == Located(Plan(ph.spec.domainNames, bound, captured,
                                                         pass.value.stage.plan.touched), target)
      ensures ok && target.Some? ==> target.value.id in remote && remote[target.value.id] == target.value.host
      ensures calm ==>
                old(calm) && Holds(old(Now())) && ok
                && Locates(Scene(ph.spec, ClaimOf(ph.status), remote, nextId), IdOf(target))
      ensures ok ==> Adopts(ClaimOf(ph.status), target, bound, captured)
      ensures served ==> old(served) && kube == old(kube)
    {
      hide Init, Legal, Exec, CanLocate, Locates, Can, Next, Adopts;
      ok, target := LookUp(ph);
      if !ok {
        GiveUp();
        return ok, false, None, None;
      }
      bound, captured := Adopt(remote, ph, target);
      Locating(Now(), target, bound, captured);
      Advance(Locate(IdOf(target)));
    }

    /** The second request after a creation, which fills in the custom fields; its outcome is ignored. */
    method FillCustomFields(created: Found, input: RequestInput, text: string)
      requires Valid() && pass.Some? && pass.value.stage.Written? && pass.value.stage.id == created.id
      requires input.domainNames == pass.value.stage.plan.domains
      requires input.unscoped.None? && text == "" && created.host == Post(input, supported)
      modifies `kube, `clock, `remote, `nextId, `trace, `pass, `log, `calm, `served
      ensures Valid() && old(trace) <= trace && pass == old(pass)
      ensures calm ==> old(calm) && nextId == old(nextId)
                       && (created.id in old(remote) && old(remote)[created.id] == created.host ==>
                             remote == old(remote))
      ensures served ==> old(served) && kube == old(kube)
    {
      hide Init, Legal, Exec, Post, Put;
      PutAgain(input, supported);
      var again := input.(unscoped := if created.host.unscoped.Some? then Some(text) else None);
      var updated, online, reply := UpdateProxyHost(created.id, again, ForCustomFields);
      assert calm && created.id in old(remote) && old(remote)[created.id] == created.host
             ==> remote == old(remote)[created.id := old(remote)[created.id]] == old(remote);
    }

    /** A creation, and the request that fills in the custom fields. */
    method CreateWithCustomFields(input: RequestInput, configs: map<string, string>) returns (created: Option<Found>)
      requires Valid() && pass.Some? && pass.value.stage.Located? && pass.value.stage.target.None?
      requires input.domainNames == pass.value.stage.plan.domains
      requires input.unscoped.None? && configs == map[]
      modifies `kube, `clock, `remote, `nextId, `trace, `pass, `log, `calm, `served
      ensures Valid() && old(trace) <= trace
      ensures pass == Some(old(pass).value.(
                stage := if created.Some?
                         then Written(old(pass).value.stage.plan, created.value.id, input.certificateId, true)
                         else Finished))
      ensures calm ==> old(calm) && created == Some(Found(old(nextId), Post(input, supported)))
                       && remote == old(remote)[old(nextId) := Post(input, supported)] && nextId == old(nextId) + 1
      ensures served ==> old(served) && kube == old(kube)
    {
      hide Init, Legal, Exec, Post, Put;
      created := CreateProxyHost(input);
      if created.None? {
        return;
      }
      assert TextsOf(map[]) == configs;
      var text := MergeNginxUpstreamConfigs(configs, map[]);
      EmptyMerge(text);
      FillCustomFields(created.value, input, text);
    }

    /** Enables the located host if it is disabled. */
    method EnableLocated(target: Option<Found>) returns (panicked: bool)
      requires Valid() && pass.Some? && pass.value.stage.Located? && pass.value.stage.target == target
      modifies `kube, `clock, `remote, `nextId, `trace, `pass, `log, `calm, `served
      ensures Valid() && old(trace) <= trace && pass == old(pass)
      ensures calm ==> old(calm) && nextId == old(nextId)
      ensures calm && target.Some? && target.value.id in old(remote) ==>
                (target.value.host == old(remote)[target.value.id] ==>
                   !panicked && remote == old(remote)[target.value.id := target.value.host.(enabled := true)])
      ensures calm && target.None? ==> !panicked && remote == old(remote)
      ensures served ==> old(served) && kube == old(kube)
    {
      hide Init, Legal, Exec;
      panicked := false;
      if target.Some? && !target.value.host.enabled {
        panicked := EnableProxyHost(target.value.id, false);
      }
    }

    /** Sends the body to the located host, or creates one. */
    method WriteBody(key: Key, ph: Resource, target: Option<Found>, input: RequestInput, configs: map<string, string>)
      returns (sent: bool, id: nat, online: bool)
      requires Valid() && pass.Some? && pass.value == Pass(key, ph, pass.value.stage)
      requires pass.value.stage.Located? && pass.value.stage.target == target
      requires pass.value.stage.plan.domains == input.domainNames
      requires target.None? ==> input.unscoped.None? && configs == map[]
      modifies `kube, `clock, `remote, `nextId, `trace, `pass, `log, `calm, `served
      ensures Valid() && old(trace) <= trace
      ensures pass == Some(Pass(key, ph, if sent
                                         then Written(old(pass).value.stage.plan, id, input.certificateId, online)
                                         else Finished))
      ensures calm ==> old(calm)
      ensures calm && target.Some? ==> id == target.value.id && sent == (id in old(remote)) && nextId == old(nextId)
      ensures calm && target.Some? && sent ==>
                id in old(remote) && remote == old(remote)[id := Put(old(remote)[id], input)]
      ensures calm && target.None? ==>
                sent && id == old(nextId) && nextId == old(nextId) + 1
                && remote == old(remote)[id := Post(input, supported)]
      ensures calm && sent ==> id in remote && online == remote[id].online
      ensures served ==> old(served) && kube == old(kube)
    {
      hide Init, Legal, Exec, Post, Put;
      forall h { WritesKeepOnline(h, input, supported); }
      sent, id, online := false, 0, false;
      if target.Some? {
        id := target.value.id;
        ghost var reply;
        sent, online, reply := UpdateProxyHost(id, input, ForTarget);
      } else {
        var created := CreateWithCustomFields(input, configs);
        if created.Some? {
          sent, id, online := true, created.value.id, true;
        }
      }
    }

    /** From the lookup to the answered PUT or POST. */
    method SendBody(key: Key, ph: Resource, around: Surroundings, target: Option<Found>)
      returns (work: Work, id: nat, certificateId: Option<int>, online: bool, ghost input: RequestInput)
      requires Valid() && pass.Some? && pass.value == Pass(key, ph, pass.value.stage)
      requires pass.value.stage.Located? && pass.value.stage.target == target
      requires pass.value.stage.plan.domains == ph.spec.domainNames
      modifies `kube, `clock, `remote, `nextId, `trace, `pass, `log, `calm, `served
      ensures Valid() && old(trace) <= trace
      ensures work.Crashed? ==> pass.None?
      ensures work.Errored? ==> pass == Some(Pass(key, ph, Finished))
      ensures work.Completed? ==>
                pass == Some(Pass(key, ph, Written(old(pass).value.stage.plan, id, certificateId, online)))
      ensures work.Completed? ==>
                certificateId == input.certificateId && IsBody(around, ph.spec, Supports(target), input)
      ensures work.Completed? ==> CertificateIs(around, ph.spec, certificateId)
      ensures calm ==> old(calm)
      ensures calm && work.Completed? ==> id in remote && online == remote[id].online
      ensures calm && work.Completed? && target.Some? && target.value.id in old(remote) ==>
                (target.value.host == old(remote)[target.value.id] ==>
                   && id == target.value.id && nextId == old(nextId)
                   && remote == old(remote)[id := Put(target.value.host.(enabled := true), input)])
      ensures calm
              && (target.Some? ==> target.value.id in old(remote) && target.value.host == old(remote)[target.value.id])
              ==> !work.Crashed? && (work.Completed? <==> Sendable(around, ph.spec, Supports(target)))
      ensures calm && work.Completed? && target.None? ==>
                id == old(nextId) && nextId == old(nextId) + 1 && remote == old(remote)[id := Post(input, supported)]
      ensures served ==> old(served) && kube == old(kube)
    {
      hide Init, Legal, Exec, Post, Put, IsMerge, CompileForwards, IsBody, Sendable, Can, Next;
      work, id, certificateId, online := Errored, 0, None, false;
      input := *;
      var panicked := EnableLocated(target);
      if panicked {
        End();
        return Crashed, id, certificateId, online, input;
      }
      var body, configs := PrepareBody(around, ph.spec, Supports(target));
      if body.Failure? {
        GiveUp();
        return;
      }
      input, certificateId := body.value, body.value.certificateId;
      BodyCertificate(around, ph.spec, Supports(target), input);
      var sent;
      sent, id, online := WriteBody(key, ph, target, body.value, configs);
      work := if sent then Completed else Errored;
    }

    /** The status write at the end: what the pass located and wrote becomes the claim. */
    method RecordClaim(key: Key, local: Resource, id: nat, certificateId: Option<int>, online: bool, bound: bool,
                       captured: Option<InitialConfiguration>)
      returns (saved: bool, ph: Resource)
      requires Valid() && pass.Some? && pass.value.key == key && pass.value.ph == local
      requires Fits(RecordHost(id, certificateId, online, bound, captured), pass.value.stage)
      modifies `kube, `clock, `remote, `nextId, `trace, `pass, `log, `calm, `served
      ensures Valid() && old(trace) <= trace
      ensures pass.Some? && pass.value == Pass(key, ph, pass.value.stage)
      ensures pass.value.stage.Written? || pass.value.stage.Finished?
      ensures calm ==> old(calm) && remote == old(remote) && nextId == old(nextId)
      ensures served ==> old(served)
      ensures served && key in old(kube) && old(kube)[key] == local ==>
                saved && kube == old(kube)[key := ph] && ph.spec == local.spec && ph.deleting == local.deleting
                && ph.status == local.status.(id := Some(id), certificateId := certificateId, online := online,
                                              bound := bound,
                                              snapshot := if captured.Some? then captured else local.status.snapshot)
    {
      hide Init, Legal, Exec, Committed, Ends, Attempts, Mutate;
      var m := RecordHost(id, certificateId, online, bound, captured);
      saved, ph := UpdateStatus(key, m, local);
      MutatedStatus(m, local.status);
    }

    /** createOrUpdateProxyHost. */
    method CreateOrUpdateProxyHost(key: Key, local: Resource, around: Surroundings) returns (work: Work, ph: Resource)
      requires Valid() && pass == Some(Pass(key, local, Unique))
      modifies `kube, `clock, `remote, `nextId, `trace, `pass, `log, `calm, `served
      ensures Valid() && old(trace) <= trace
      ensures work.Crashed? ==> pass.None?
      ensures !work.Crashed? ==>
                pass.Some? && pass.value == Pass(key, ph, pass.value.stage)
                && (pass.value.stage.Written? || pass.value.stage.Finished?)
      ensures calm ==> old(calm)
      ensures calm && key in old(kube) && old(kube)[key] == local ==>
                && !work.Crashed?
                && (work.Errored? ==>
                      ph == local && kube == old(kube) && Stuck(around, SceneOf(local, old(remote), old(nextId))))
      ensures calm && work.Completed? && key in old(kube) && old(kube)[key] == local ==>
                key in kube && kube[key] == ph && kube == old(kube)[key := ph] && ph.deleting == local.deleting
                && Passed(around, supported, SceneOf(local, old(remote), old(nextId)), SceneOf(ph, remote, nextId))
                && StatusTells(around, ph, remote)
      ensures served ==> old(served)
    {
      hide Init, Legal, Exec, Post, Put, IsBody, Sendable, Stuck, Capture, Locates, Passed, Adopts, CertificateIs;
      ph := local;
      var ok, bound, captured, target := LocateHost(key, ph);
      if !ok {
        return Errored, ph;
      }
      ghost var before := Scene(local.spec, ClaimOf(local.status), remote, nextId);
      var id, certificateId, online;
      ghost var input;
      work, id, certificateId, online, input := SendBody(key, ph, around, target);
      if !work.Completed? {
        if calm {
          StuckOn(around, before, target);
        }
        return;
      }
      var saved;
      saved, ph := RecordClaim(key, ph, id, certificateId, online, bound, captured);
      if !saved {
        work := Errored;
      }
      if calm && saved && key in old(kube) && old(kube)[key] == local {
        PassedBy(around, supported, before, Scene(ph.spec, ClaimOf(ph.status), remote, nextId), target, id, bound,
                 captured, input);
      }
    }

    // -------------------------------------------------------------- finalizers

    /** AddFinalizer: an update only when the finalizer is missing. A failure ends the pass. */
    method AddFinalizer(key: Key, local: Resource) returns (ok: bool, ph: Resource)
      requires Valid() && pass == Some(Pass(key, local, Fetched)) && !local.deleting
      modifies `kube, `clock, `remote, `nextId, `trace, `pass, `log, `calm, `served
      ensures Valid() && old(trace) <= trace
      ensures pass == if ok then Some(Pass(key, ph, Guarded)) else None
      ensures ok ==> ph.finalizer
      ensures calm ==> old(calm) && remote == old(remote) && nextId == old(nextId)
      ensures served ==> old(served)
      ensures served && key in old(kube) && old(kube)[key] == local ==>
                ok && ph == local.(finalizer := true, version := ph.version) && kube == old(kube)[key := ph]
    {
      hide Init, Legal, Exec, Can, Next;
      ok, ph := true, local;
      if local.finalizer {
        AlreadyGuarded(key, local);
        return;
      }
      Others();
      var reply := ApiCall();
      if key !in kube || kube[key].version != local.version {
        reply := Refused;
      }
      ghost var before := Now();
      LocalCopy();
      AddingFinalizer(before, reply);
      ok := reply.Ok?;
      if !reply.Refused? {
        ph := local.(finalizer := true, version := clock + 1);
        kube, clock := kube[key := ph], clock + 1;
      }
      Record(before, Action.AddFinalizer(reply));
    }

    ghost method AlreadyGuarded(key: Key, local: Resource)
      requires Valid() && pass == Some(Pass(key, local, Fetched)) && !local.deleting && local.finalizer
      modifies `trace, `pass, `log
      ensures Valid() && old(trace) <= trace && pass == Some(Pass(key, local, Guarded))
    {
      hide Init, Legal, Exec;
      Advance(Action.AddFinalizer(Ok));
    }

    /** The object being released still has its finalizer. */
    lemma StillGuarded()
      requires Valid() && pass.Some? && pass.value.stage.Releasing?
      ensures pass.value.key in kube && kube[pass.value.key].finalizer
    {
      hide Init, Legal, Exec;
      Sound();
      assert PassOk(Now(), pass.value);
    }

    ghost method Latest(key: Key)
      requires Valid() && pass.Some? && pass.value.key == key && pass.value.stage.Releasing? && key in kube
      modifies `trace, `pass, `log
      ensures Valid() && old(trace) <= trace
      ensures pass == Some(old(pass).value.(stage := Releasing(old(pass).value.stage.cause, Some(kube[key]))))
    {
      hide Init, Legal, Exec;
      Advance(FetchLatest);
    }

    /** RemoveFinalizer: an object without finalizers disappears. The update conflicts when the version moved. */
    method RemoveFinalizer(key: Key, latest: Resource) returns (removed: bool)
      requires Valid() && pass.Some? && pass.value.key == key && pass.value.stage.Releasing?
      requires pass.value.stage.latest == Some(latest) && latest.finalizer
      modifies `kube, `clock, `remote, `nextId, `trace, `pass, `log, `calm, `served
      ensures Valid() && old(trace) <= trace && pass == None
      ensures removed ==> key !in kube
      ensures calm ==> old(calm) && remote == old(remote) && nextId == old(nextId)
      ensures served ==> old(served) && (key in old(kube) && old(kube)[key].version == latest.version ==> removed)
      ensures served && removed ==> kube == old(kube) - {key}
    {
      hide Init, Legal, Exec;
      Others();
      var reply := ApiCall();
      if key !in kube || kube[key].version != latest.version {
        reply := Refused;
      }
      ServeRemoval(key, latest, reply);
      removed := reply.Ok?;
    }

    /** The server's side of removing the last finalizer of a deleted object. */
    method ServeRemoval(key: Key, latest: Resource, reply: Reply)
      requires Valid() && pass.Some? && pass.value.key == key && pass.value.stage.Releasing?
      requires pass.value.stage.latest == Some(latest) && latest.finalizer
      requires Took(reply) ==> key in kube && kube[key].version == latest.version
      modifies `kube, `trace, `pass, `log
      ensures Valid() && trace == old(trace) + [DropFinalizer(reply)] && pass == None
      ensures kube == if Took(reply) then old(kube) - {key} else old(kube)
    {
      hide Init, Legal, Exec, Can, Next;
      ghost var before := Now();
      DroppingFinalizer(before, reply);
      if !reply.Refused? {
        kube := kube - {key};
      }
      Record(before, DropFinalizer(reply));
    }

    /** Reads the latest version, which is still there, and removes the finalizer from it. */
    method Release(key: Key) returns (r: Removal)
      requires Valid() && pass.Some? && pass.value.key == key && pass.value.stage.Releasing?
      modifies `kube, `clock, `remote, `nextId, `trace, `pass, `log, `calm, `served
      ensures Valid() && old(trace) <= trace && pass == None
      ensures r.Gone? ==> key !in kube
      ensures calm ==> old(calm) && remote == old(remote) && nextId == old(nextId)
      ensures served ==> old(served) && r.Gone? && kube == old(kube) - {key}
    {
      hide Init, Legal, Exec, Can, Next;
      Others();
      var reply := ApiCall();
      StillGuarded();
      if !reply.Ok? {
        End();
        return ReadFailed;
      }
      var latest := kube[key];
      Latest(key);
      var removed := RemoveFinalizer(key, latest);
      r := if removed then Gone else UpdateFailed;
    }

    // -------------------------------------------------------------- deletion

    /** The deletion branch holds the finalizer, and a recorded claim is bound exactly with a snapshot. */
    lemma DeletionFacts()
      requires Valid() && pass.Some? && pass.value.stage.Guarded?
      ensures pass.value.ph.finalizer
      ensures pass.value.ph.status.bound <==> pass.value.ph.status.snapshot.Some?
      ensures pass.value.ph.status.bound ==> pass.value.ph.status.id.Some?
    {
      hide Init, Legal, Exec;
      Sound();
      assert PassOk(Now(), pass.value) && ResourceOk(Now(), pass.value.key);
    }

    /** Sends the snapshot, then enables the host if it was enabled once; other failures are only logged. */
    method RestoreHost(key: Key, ph: Resource, id: nat) returns (panicked: bool)
      requires Valid() && pass == Some(Pass(key, ph, Guarded)) && ph.deleting && ph.finalizer
      requires ph.status.id == Some(id) && ShouldRestoreInitialConfig(ph.status)
      modifies `kube, `clock, `remote, `nextId, `trace, `pass, `log, `calm, `served
      ensures Valid() && old(trace) <= trace
      ensures pass == Some(Pass(key, ph, if panicked then Restored else Releasing(CleanupAttempted, None)))
      ensures panicked ==> id !in remote && ph.status.snapshot.value.enabled
      ensures calm ==> old(calm) && nextId == old(nextId) && remote == CleanedUp(old(remote), ClaimOf(ph.status))
                       && (panicked <==> id !in old(remote) && ph.status.snapshot.value.enabled)
      ensures served ==> old(served) && kube == old(kube)
    {
      hide Init, Legal, Exec, Npm.Put, Npm.Restoration, Can, Next;
      var c := ph.status.snapshot.value;
      var input := BuildRestorationInput(c);
      var updated, online, reply := UpdateProxyHost(id, input, ForSnapshot);
      if c.enabled {
        panicked := EnableProxyHost(id, true);
      } else {
        SkipEnable();
        panicked := false;
      }
      RestoredIsGivenBack(old(remote), id, ClaimOf(ph.status));
    }

    ghost method SkipEnable()
      requires Valid() && pass.Some? && pass.value.stage == Restored
      modifies `trace, `pass, `log
      ensures Valid() && old(trace) <= trace
      ensures pass == Some(old(pass).value.(stage := Releasing(CleanupAttempted, None)))
    {
      hide Init, Legal, Exec;
      Advance(SkipReenable);
    }

    ghost method SkipTo(cause: Cause)
      requires Valid() && pass.Some? && Cleaning(pass.value)
      requires cause.NoClient? || (cause.NothingRemote? && pass.value.ph.status.id.None?)
      modifies `trace, `pass, `log
      ensures Valid() && old(trace) <= trace && pass == Some(old(pass).value.(stage := Releasing(cause, None)))
    {
      hide Init, Legal, Exec;
      Advance(SkipCleanup(cause));
    }

    /** The remote clean-up. The branch that disables a bound host without a snapshot cannot be taken. */
    method CleanUp(key: Key, ph: Resource) returns (panicked: bool)
      requires Valid() && pass == Some(Pass(key, ph, Guarded)) && ph.deleting && ph.finalizer
      modifies `kube, `clock, `remote, `nextId, `trace, `pass, `log, `calm, `served
      ensures Valid() && old(trace) <= trace
      ensures pass.Some? && pass.value == Pass(key, ph, pass.value.stage)
      ensures if panicked then pass.value.stage == Restored else pass.value.stage.Releasing?
      ensures panicked ==> RestoresEnabled(ClaimOf(ph.status)) && ph.status.id.value !in remote
      ensures calm ==> old(calm) && nextId == old(nextId) && remote == CleanedUp(old(remote), ClaimOf(ph.status))
                       && (panicked <==> RestoresEnabled(ClaimOf(ph.status)) && ph.status.id.value !in old(remote))
      ensures calm && ph.status.id.Some? && !ph.status.bound ==>
                !panicked && ph.status.id.value !in remote && remote == old(remote) - {ph.status.id.value}
      ensures calm && ph.status.bound && ph.status.id.Some? && ph.status.snapshot.Some? ==>
                (ph.status.id.value in old(remote) ==>
                   && !panicked && ph.status.id.value in remote
                   && IsGivenBack(old(remote), remote, ph.status.id.value, ph.status.snapshot.value))
      ensures served ==> old(served) && kube == old(kube)
    {
      hide Init, Legal, Exec, GivenBack, HasConfiguration, Can, Next;
      panicked := false;
      DeletionFacts();
      CleanedUpMeans(remote, ClaimOf(ph.status));
      if ph.status.id.None? {
        SkipTo(NothingRemote);
        return;
      }
      var id := ph.status.id.value;
      if ShouldRestoreInitialConfig(ph.status) {
        panicked := RestoreHost(key, ph, id);
      } else if ph.status.bound {
        assert false;
      } else {
        DeleteProxyHost(id);
      }
    }

    /** A deletion pass, from the finalizer check on. */
    method Finalize(key: Key, ph: Resource, client: bool) returns (r: Removal, panicked: bool)
      requires Valid() && pass == Some(Pass(key, ph, Guarded)) && ph.deleting
      modifies `kube, `clock, `remote, `nextId, `trace, `pass, `log, `calm, `served
      ensures Valid() && old(trace) <= trace && pass == None
      ensures panicked ==> client && RestoresEnabled(ClaimOf(ph.status)) && ph.status.id.value !in remote
      ensures panicked ==> ph.status.bound
      ensures !panicked && r.Gone? ==> key !in kube
      ensures served ==> old(served) && (!panicked ==> r.Gone? && kube == old(kube) - {key})
      ensures calm ==> old(calm) && nextId == old(nextId)
                       && (panicked <==>
                             client && RestoresEnabled(ClaimOf(ph.status)) && ph.status.id.value !in old(remote))
                       && remote == if client then CleanedUp(old(remote), ClaimOf(ph.status)) else old(remote)
    {
      hide Init, Legal, Exec, CleanedUp, Can, Next;
      DeletionFacts();
      panicked, r := false, ReadFailed;
      if client {
        panicked := CleanUp(key, ph);
      } else {
        SkipTo(NoClient);
      }
      if panicked {
        End();
        return;
      }
      r := Release(key);
    }

    // -------------------------------------------------------------- the pass

    /** Writes a condition; whether that succeeds is not looked at. */
    method MarkConditions(key: Key, local: Resource) returns (ph: Resource)
      requires Valid() && pass.Some? && pass.value == Pass(key, local, pass.value.stage)
      requires Fits(Mutation.MarkConditions, pass.value.stage)
      modifies `kube, `clock, `remote, `nextId, `trace, `pass, `log, `calm, `served
      ensures Valid() && old(trace) <= trace
      ensures pass == Some(Pass(key, ph, old(pass).value.stage))
      ensures local.deleting ==> ph.deleting
      ensures calm ==> old(calm) && remote == old(remote) && nextId == old(nextId)
      ensures served ==> old(served)
      ensures served && key in old(kube) ==> InHand(old(kube), kube, key, ph)
    {
      hide Init, Legal, Exec, Committed, Ends, Attempts;
      var saved;
      saved, ph := UpdateStatus(key, Mutation.MarkConditions, local);
    }

    /** Fetches the object and, unless it is being deleted, guards it with the finalizer. */
    method Fetch(key: Key) returns (r: Option<Resource>, marked: bool)
      requires Valid() && pass.None?
      modifies `kube, `clock, `remote, `nextId, `trace, `pass, `log, `calm, `served
      ensures Valid() && old(trace) <= trace
      ensures pass == if r.Some? then Some(Pass(key, r.value, Guarded)) else None
      ensures r.Some? && marked ==> r.value.deleting
      ensures calm ==> old(calm) && remote == old(remote) && nextId == old(nextId)
      ensures served ==> old(served)
      ensures served && key in old(kube) ==>
                r.Some? && marked == old(kube)[key].deleting && InHand(old(kube), kube, key, r.value)
      ensures served && key !in old(kube) ==> r.None? && key !in kube
    {
      hide Init, Legal, Exec, Can, Next;
      r, marked := None, false;
      Others();
      var reply := ApiCall();
      if !reply.Ok? || key !in kube {
        return;
      }
      var ph := kube[key];
      Start(key);
      marked := ph.deleting;
      var ok := true;
      if !marked {
        ok, ph := AddFinalizer(key, ph);
      } else {
        GoOnDeleting();
      }
      if ok {
        r := Some(ph);
      }
    }

    ghost method Start(key: Key)
      requires Valid() && pass.None? && key in kube
      modifies `trace, `pass, `log
      ensures Valid() && old(trace) <= trace && pass == Some(Pass(key, kube[key], Fetched))
    {
      hide Init, Legal, Exec;
      Advance(Begin(key));
    }

    ghost method GoOnDeleting()
      requires Valid() && pass.Some? && pass.value.stage.Fetched? && pass.value.ph.deleting
      modifies `trace, `pass, `log
      ensures Valid() && old(trace) <= trace && pass == Some(old(pass).value.(stage := Guarded))
    {
      hide Init, Legal, Exec;
      Advance(EnterDeletion);
    }

    /** The same, and a first condition for an object that has none. */
    method Prepare(key: Key) returns (r: Option<Resource>, marked: bool)
      requires Valid() && pass.None?
      modifies `kube, `clock, `remote, `nextId, `trace, `pass, `log, `calm, `served
      ensures Valid() && old(trace) <= trace
      ensures pass == if r.Some? then Some(Pass(key, r.value, Guarded)) else None
      ensures r.Some? && marked ==> r.value.deleting
      ensures calm ==> old(calm) && remote == old(remote) && nextId == old(nextId)
      ensures served ==> old(served)
      ensures served && key in old(kube) ==>
                r.Some? && marked == old(kube)[key].deleting && InHand(old(kube), kube, key, r.value)
      ensures served && key !in old(kube) ==> r.None? && key !in kube
    {
      hide Init, Legal, Exec;
      r, marked := Fetch(key);
      if r.Some? && !r.value.status.conditions {
        var ph := MarkConditions(key, r.value);
        r := Some(ph);
      }
    }

    /** Reports an error in the conditions and ends the pass. */
    method Report(key: Key, local: Resource)
      requires Valid() && pass.Some? && pass.value == Pass(key, local, pass.value.stage)
      requires Fits(Mutation.MarkConditions, pass.value.stage)
      modifies `kube, `clock, `remote, `nextId, `trace, `pass, `log, `calm, `served
      ensures Valid() && old(trace) <= trace && pass == None
      ensures calm ==> old(calm) && remote == old(remote) && nextId == old(nextId)
      ensures served ==> old(served)
      ensures served && key in old(kube) ==> key in kube && InHand(old(kube), kube, key, kube[key])
    {
      hide Init, Legal, Exec;
      var ph := MarkConditions(key, local);
      End();
    }

    /** domainsShouldBeUnique: a failed list counts as an error. */
    method DomainsShouldBeUnique(key: Key, ph: Resource) returns (unique: bool)
      requires Valid() && pass == Some(Pass(key, ph, Guarded))
      modifies `kube, `clock, `remote, `nextId, `trace, `pass, `log, `calm, `served
      ensures Valid() && old(trace) <= trace
      ensures pass == Some(Pass(key, ph, if unique then Unique else Guarded))
      ensures calm ==> old(calm) && Holds(old(Now()))
      ensures served ==> old(served) && kube == old(kube) && (unique <==> DomainsUnique(kube, key, ph.spec.domainNames))
      ensures unique ==>
                forall k, d :: k in kube && k != key && d in ph.spec.domainNames ==> d !in kube[k].spec.domainNames
    {
      hide Init, Legal, Exec, DomainsUnique;
      unique := false;
      Others();
      var reply := ApiCall();
      if reply.Ok? {
        unique := Unclaimed(kube, key, ph.spec.domainNames);
        if unique {
          Advance(CheckDomains);
        }
      }
    }

    /** A live pass, from the domain check on. */
    method Work(key: Key, local: Resource, around: Surroundings) returns (outcome: Outcome)
      requires Valid() && pass == Some(Pass(key, local, Guarded))
      modifies `kube, `clock, `remote, `nextId, `trace, `pass, `log, `calm, `served
      ensures Valid() && old(trace) <= trace && pass == None
      ensures outcome.Ready? || outcome.Requeued? || outcome.Panicked?
      ensures calm ==> old(calm)
      ensures served ==> old(served)
      ensures calm && key in old(kube) && old(kube)[key] == local ==>
                outcome.Ready?
                || (outcome.Requeued? && key in kube && InHand(old(kube), kube, key, kube[key])
                    && (!DomainsUnique(old(kube), key, local.spec.domainNames)
                        || Stuck(around, SceneOf(local, old(remote), old(nextId)))))
      ensures calm && outcome.Ready? && key in old(kube) && old(kube)[key] == local ==>
                key in kube && kube == old(kube)[key := kube[key]] && kube[key].deleting == local.deleting
                && Passed(around, supported, SceneOf(local, old(remote), old(nextId)),
                          SceneOf(kube[key], remote, nextId))
                && StatusTells(around, kube[key], remote)
    {
      hide Init, Legal, Exec, Passed, Stuck, DomainsUnique;
      var unique := DomainsShouldBeUnique(key, local);
      if !unique {
        Report(key, local);
        return Requeued;
      }
      var work, ph := CreateOrUpdateProxyHost(key, local, around);
      match work {
        case Crashed => outcome := Panicked;
        case Errored =>
          Report(key, ph);
          outcome := Requeued;
        case Completed =>
          Report(key, ph);
          outcome := Ready;
      }
    }

    /** Reconcile. Undisturbed, a pass over a live object is one step of Passed, unless there is no client, a domain
        is taken, or something the body needs does not resolve; a pass over a deleted one cleans up and removes it.
        Whatever Nginx Proxy Manager answers, a deletion pass whose API-server calls succeed removes the object,
        unless the process panics over a host that vanished. */
    method Reconcile(key: Key, around: Surroundings, client: bool) returns (outcome: Outcome)
      requires Valid() && pass.None?
      modifies `kube, `clock, `remote, `nextId, `trace, `pass, `log, `calm, `served
      ensures Valid() && old(trace) <= trace && pass == None
      ensures calm ==> old(calm)
      ensures calm && key in old(kube) && !old(kube)[key].deleting ==>
                outcome.Ready?
                || (outcome.Requeued? && key in kube && InHand(old(kube), kube, key, kube[key])
                    && (!client || !DomainsUnique(old(kube), key, old(kube)[key].spec.domainNames)
                        || Stuck(around, SceneOf(old(kube)[key], old(remote), old(nextId)))))
      ensures served && key !in old(kube) ==> outcome.Ignored?
      ensures calm && outcome.Ready? && key in old(kube) && !old(kube)[key].deleting ==>
                key in kube && kube == old(kube)[key := kube[key]] && !kube[key].deleting
                && Passed(around, supported, SceneOf(old(kube)[key], old(remote), old(nextId)),
                          SceneOf(kube[key], remote, nextId))
      ensures calm && outcome.Ready? && key in old(kube) && !old(kube)[key].deleting ==>
                && key in kube && kube[key].status.id.Some? && kube[key].status.id.value in remote
                && var spec, status := old(kube)[key].spec, kube[key].status;
                   var i := status.id.value;
                && remote - {i} == old(remote) - {i}
                && Configured(around, spec, i in old(remote) && old(remote)[i].unscoped.Some?, remote[i])
                && status.online == remote[i].online
                && (spec.ssl.None? ==> status.certificateId == None)
                && (spec.ssl.Some? ==> around.certificate == Success(status.certificateId))
      ensures served && key in old(kube) && old(kube)[key].deleting ==>
                (outcome.Removed? && kube == old(kube) - {key})
                || (outcome.Panicked? && client && RestoresEnabled(ClaimOf(old(kube)[key].status))
                    && old(kube)[key].status.id.value !in remote)
      ensures calm && key in old(kube) && old(kube)[key].deleting ==>
                && nextId == old(nextId)
                && (outcome.Panicked? <==>
                      && client && RestoresEnabled(ClaimOf(old(kube)[key].status))
                      && old(kube)[key].status.id.value !in old(remote))
                && remote == if client then CleanedUp(old(remote), ClaimOf(old(kube)[key].status)) else old(remote)
      ensures calm && key in old(kube) && old(kube)[key].deleting && (!client || old(kube)[key].status.id.None?) ==>
                outcome.Removed? && remote == old(remote)
      ensures calm && client && key in old(kube) && old(kube)[key].deleting && old(kube)[key].status.id.Some? ==>
                var status, i := old(kube)[key].status, old(kube)[key].status.id.value;
                && (!status.bound ==> outcome.Removed? && i !in remote && remote == old(remote) - {i})
                && (status.bound && i in old(remote) ==>
                      && outcome.Removed? && status.snapshot.Some? && i in remote
                      && IsGivenBack(old(remote), remote, i, status.snapshot.value))
    {
      hide Init, Legal, Exec, Passed, Stuck, CleanedUp, DomainsUnique, Configured, IsGivenBack, RestoresEnabled;
      if key in kube {
        ClaimsAreSound(key);
        CleanedUpMeans(remote, ClaimOf(kube[key].status));
      }
      NextIdIsFree();
      var r, marked := Prepare(key);
      if r.None? {
        return if key in kube then Requeued else Ignored;
      }
      var ph := r.value;
      if marked {
        var removal, panicked := Finalize(key, ph, client);
        return if panicked then Panicked else if removal.Gone? then Removed else Requeued;
      }
      if !client {
        Report(key, ph);
        return Requeued;
      }
      if calm && key in old(kube) {
        UniqueForOthers(old(kube), kube, key, ph, ph.spec.domainNames);
      }
      outcome := Work(key, ph, around);
      if calm && outcome.Ready? && key in old(kube) {
        PassConfigures(around, supported, SceneOf(old(kube)[key], old(remote), old(nextId)),
                       SceneOf(kube[key], remote, nextId));
      }
    }

    lemma NextIdIsFree()
      requires Valid()
      ensures nextId !in remote
    {
      hide Init, Legal, Exec;
      Sound();
    }

    /** What holds of all runs holds here: a claim of the API server at any point of this code. */
    lemma ClaimsAreSound(key: Key)
      requires Valid() && key in kube
      ensures var s := kube[key].status;
              && (s.bound <==> s.snapshot.Some?) && (s.bound ==> s.id.Some?)
              && (s.id.Some? ==> kube[key].finalizer)
              && (s.id.Some? && !s.bound ==> s.id.value in log.creator && log.creator[s.id.value] == key)
    {
      hide Init, Legal, Exec;
      Sound();
      assert ResourceOk(Now(), key);
    }

    /** So the clean-up of a deletion pass gives an adopted host back as it was before the controller started, if the
        snapshot was not taken late and nobody else edited the host while it was as it had been. */
    lemma CleanupGivesBack(key: Key, i: nat)
      requires Valid() && i in init.remote && Spared(init, trace, i)
      requires key in kube && key !in log.late && i in remote
      requires kube[key].status.snapshot.Some? && kube[key].status.id == Some(i)
      ensures Preserves(CleanedUp(remote, ClaimOf(kube[key].status))[i], init.remote[i])
    {
      hide Legal, Exec, Kept, GivenBack, Preserves, Shows, Spared;
      var original := Found(i, init.remote[i]);
      InitKept(init, i);
      hide Init;
      RunKeeps(original, init, trace);
      SnapshotIsOriginal(original, Now(), key);
      GivenBackIsOriginal(init.remote[i], remote[i], kube[key].status.snapshot.value);
    }
  }
}
