/** The LetsEncryptCertificate controller as it runs. Between any two calls others may act, and any call may fail
    or lose its answer; every method extends a legal run of module CertOwnership
    (internal/controller/letsencryptcertificate/letsencryptcertificate_controller.go). */
module CertController {
  import opened Text
  import opened Api
  import opened Domains
  import opened Certificates
  import opened CertOwnership

  /** retry.DefaultRetry. */
  const STATUS_ATTEMPTS := 5

  /** The mutations passed to UpdateStatus. */
  datatype Mutation = MarkConditions | RecordCertificate(id: nat, bound: bool)

  function Mutate(m: Mutation, r: Lec): Lec {
    match m
    case MarkConditions => r.(conditions := true)
    case RecordCertificate(id, bound) => r.(id := Some(id), bound := bound)
  }

  function SaveStep(m: Mutation, reply: Reply): Action {
    if m.MarkConditions? then SaveConditions(reply) else SaveRecord(reply)
  }

  predicate Fits(m: Mutation, st: Stage) {
    match m
    case MarkConditions => st.Guarded? || st.Chosen? || st.Finished?
    case RecordCertificate(id, bound) => st == Chosen(id, bound)
  }

  lemma SavingStep(w: World, m: Mutation, reply: Reply)
    requires w.pass.Some? && Fits(m, w.pass.value.stage)
    requires Took(reply) ==> Current(w, w.pass.value.key, w.pass.value.lec)
    ensures Can(w, SaveStep(m, reply))
    ensures var w', p := Next(w, SaveStep(m, reply)), w.pass.value;
            && w'.store == w.store
            && w'.kube == (if Took(reply) then w.kube[p.key := Mutate(m, p.lec).(version := w.clock + 1)] else w.kube)
            && w'.clock == (if Took(reply) then w.clock + 1 else w.clock)
            && w'.pass == Some(Pass(p.key, if reply.Ok? then w'.kube[p.key] else p.lec,
                                    if Took(reply) && m.RecordCertificate? then Finished else p.stage))
  {
  }

  lemma MutationKeepsMark(m: Mutation, r: Lec)
    ensures Mutate(m, r).deleting == r.deleting
  {
  }

  /** How an attempt at a status update ends. */
  datatype Attempt = Saved | Conflict | Failed

  /** How a pass ends. */
  datatype Outcome = Ignored | Requeued | Ready | Removed

  /** What the finalizer deletes. */
  function CleanedUp(certs: seq<Certificate>, r: Lec): seq<Certificate> {
    if r.id.Some? && !r.bound then Without(certs, r.id.value) else certs
  }

  /** Only the certificates of that id are gone; all others are there as often as before. */
  ghost predicate OnlyGone(certs: seq<Certificate>, certs': seq<Certificate>, id: nat) {
    forall c :: multiset(certs')[c] == if c.id == id then 0 else multiset(certs)[c]
  }

  /** An own certificate is deleted, a bound one or none at all leaves everything as it is. */
  lemma CleanedUpMeans(certs: seq<Certificate>, r: Lec)
    ensures r.id.Some? && !r.bound ==>
              && OnlyGone(certs, CleanedUp(certs, r), r.id.value)
              && forall c :: c in CleanedUp(certs, r) ==> c.id != r.id.value
    ensures r.id.None? || r.bound ==> CleanedUp(certs, r) == certs
  {
    if r.id.Some? && !r.bound {
      WithoutCounts(certs, r.id.value);
      WithoutIsSubset(certs, r.id.value);
    }
  }

  /** What an undisturbed creation leaves: nothing new when a certificate is reused, else one certificate for all
      domains. */
  ghost predicate Obtains(s: Store, s': Store, domains: seq<string>, id: nat, bound: bool) {
    var reused := Reused(LookupsOf(s.certs, domains));
    if reused.Some? then s' == s && id == reused.value.id && bound
    else id == s.nextId && !bound && exists position :: 0 <= position <= |s.certs| && s' == Added(s, domains, position)
  }

  /** A new certificate is for all domains and kept beside the earlier ones; a reused one was there before. */
  lemma ObtainsMeans(s: Store, s': Store, domains: seq<string>, id: nat, bound: bool)
    requires Below(s) && Obtains(s, s', domains, id, bound)
    ensures !bound ==> Issued(s.certs, s'.certs, domains, id)
    ensures bound ==> s' == s && exists c :: c in s.certs && c.id == id && c.provider == "letsencrypt"
  {
    hide Issued, Added;
    if bound {
      ReusedIsListed(s.certs, domains);
    } else {
      var position :| 0 <= position <= |s.certs| && s' == Added(s, domains, position);
      AddedIsIssued(s, domains, position);
    }
  }

  /** A certificate id with its bound flag. */
  datatype Obtained = Obtained(id: nat, bound: bool)

  /** From kube to kube' only bookkeeping of one object changed. */
  ghost predicate InHand(kube: map<Key, Lec>, kube': map<Key, Lec>, key: Key, lec: Lec) {
    && key in kube && kube' == kube[key := lec]
    && lec.domains == kube[key].domains && lec.id == kube[key].id
    && lec.bound == kube[key].bound && lec.deleting == kube[key].deleting
  }

  class LetsEncryptCertificateReconciler {
    // the API server and the certificates of Nginx Proxy Manager
    var kube: map<Key, Lec>
    var clock: nat
    var certs: seq<Certificate>
    var nextId: nat
    // history
    ghost const init: World
    ghost var trace: seq<Action>
    ghost var pass: Option<Pass>
    ghost var creator: map<nat, Key>
    /** Since it was last set: nobody else acted and no call failed. */
    ghost var calm: bool

    ghost function Contents(): Store
      reads this
    {
      Store(certs, nextId)
    }

    ghost function Now(): World
      reads this
    {
      World(kube, clock, Contents(), pass, creator)
    }

    ghost predicate Valid()
      reads this
    {
      Init(init) && Legal(init, trace) && Exec(init, trace) == Now()
    }

    constructor (kube: map<Key, Lec>, clock: nat, store: Store)
      requires Init(World(kube, clock, store, None, map[]))
      ensures Valid() && trace == [] && pass.None?
    {
      this.kube, this.clock, this.certs, this.nextId := kube, clock, store.certs, store.nextId;
      this.trace, this.pass, this.creator, this.calm := [], None, map[], true;
      this.init := World(kube, clock, store, None, map[]);
    }

    /** Takes note of a step whose effect on the stores is in place. */
    ghost method Record(before: World, a: Action)
      requires Init(init) && Legal(init, trace) && Exec(init, trace) == before && Can(before, a)
      requires var w := Next(before, a); kube == w.kube && clock == w.clock && Contents() == w.store
      modifies `trace, `pass, `creator
      ensures Valid() && Now() == Next(before, a) && trace == old(trace) + [a]
    {
      hide Can, Next, Init;
      assert [a][1..] == [] && Legal(Next(before, a), []);
      LegalConcat(init, trace, [a]);
      trace, pass, creator := trace + [a], Next(before, a).pass, Next(before, a).creator;
    }

    /** A step that changes only the pass. */
    ghost method Advance(a: Action)
      requires Valid() && Can(Now(), a)
      requires var w := Next(Now(), a); kube == w.kube && clock == w.clock && Contents() == w.store
      modifies `trace, `pass, `creator
      ensures Valid() && pass == Next(old(Now()), a).pass && trace == old(trace) + [a]
    {
      hide Init, Legal, Exec, Can, Next;
      Record(Now(), a);
    }

    ghost method End()
      requires Valid()
      modifies `trace, `pass, `creator
      ensures Valid() && old(trace) <= trace && pass == None
    {
      hide Init, Legal, Exec;
      Advance(Stop);
    }

    lemma Sound()
      requires Valid()
      ensures Inv(Now())
    {
      hide Init, Inv, Legal, Exec;
      Reaches(init, trace);
    }

    /** The pass holds its object: the local copy is current or outdated, and a deletion is never taken back. */
    lemma HoldsObject()
      requires Valid() && pass.Some?
      ensures var p := pass.value;
              && (p.key in kube && kube[p.key].version == p.lec.version ==> kube[p.key] == p.lec)
              && (!p.stage.Fetched? ==> p.key in kube && p.lec.finalizer && (p.lec.deleting ==> kube[p.key].deleting))
    {
      hide Init, Legal, Exec;
      Sound();
      assert PassOk(Now(), pass.value);
    }

    lemma ListedIsOld(c: Certificate)
      requires Valid() && c in certs
      ensures c.id < nextId
    {
      hide Init, Legal, Exec;
      Sound();
      assert Below(Now().store);
    }

    lemma IdsAreBelow()
      requires Valid()
      ensures Below(Contents())
    {
      hide Init, Legal, Exec;
      Sound();
    }

    // -------------------------------------------------------------- other actors

    method Other(a: Action)
      requires Valid()
      modifies `kube, `clock, `certs, `nextId, `trace, `pass, `creator
      ensures Valid() && pass == old(pass) && nextId >= old(nextId)
      ensures trace == old(trace) || (ByOthers(a) && trace == old(trace) + [a])
      ensures trace == old(trace) ==> Now() == old(Now())
    {
      hide Init, Legal, Exec;
      ghost var before := Now();
      match a {
        case UserCreates(key, domains) =>
          if key !in kube {
            kube, clock := kube[key := Lec(domains, None, false, false, false, false, clock + 1)], clock + 1;
            Record(before, a);
          }
        case UserEdits(key, domains) =>
          if key in kube {
            kube, clock := kube[key := kube[key].(domains := domains, version := clock + 1)], clock + 1;
            Record(before, a);
          }
        case UserDeletes(key) =>
          if key in kube {
            if kube[key].finalizer {
              kube, clock := kube[key := kube[key].(deleting := true, version := clock + 1)], clock + 1;
            } else {
              kube := kube - {key};
            }
            Record(before, a);
          }
        case OutsiderAdds(provider, domains, position) =>
          if position <= |certs| {
            certs, nextId :=
              certs[..position] + [Certificate(nextId, provider, domains)] + certs[position..], nextId + 1;
            Record(before, a);
          }
        case OutsiderRemoves(id) =>
          certs := Without(certs, id);
          Record(before, a);
        case _ =>
      }
    }

    /** Any number of actions of others. */
    method Others()
      requires Valid()
      modifies `kube, `clock, `certs, `nextId, `trace, `pass, `creator, `calm
      ensures Valid() && pass == old(pass) && old(trace) <= trace && nextId >= old(nextId)
      ensures calm ==> old(calm) && Now() == old(Now())
    {
      hide Init, Legal, Exec;
      var others: seq<Action> := *;
      for i := 0 to |others|
        invariant Valid() && pass == old(pass) && old(trace) <= trace && nextId >= old(nextId)
        invariant calm ==> old(calm) && Now() == old(Now())
      {
        ghost var before := trace;
        Other(others[i]);
        calm := calm && trace == before;
      }
    }

    method Call() returns (reply: Reply)
      modifies `calm
      ensures calm ==> old(calm) && reply.Ok?
    {
      reply := *;
      calm := calm && reply.Ok?;
    }

    // -------------------------------------------------------------- status and finalizer

    method Get(key: Key, local: Lec) returns (ok: bool, lec: Lec)
      requires Valid() && pass.Some? && pass.value == Pass(key, local, pass.value.stage)
      requires pass.value.stage.Guarded? || pass.value.stage.Chosen? || pass.value.stage.Finished?
      modifies `kube, `clock, `certs, `nextId, `trace, `pass, `creator, `calm
      ensures Valid() && old(trace) <= trace && pass == Some(Pass(key, lec, old(pass).value.stage))
      ensures ok ==> key in kube && kube[key] == lec
      ensures local.deleting ==> lec.deleting
      ensures calm ==> old(calm) && ok && kube == old(kube) && Contents() == old(Contents())
    {
      hide Init, Legal, Exec;
      lec := local;
      Others();
      var reply := Call();
      if !reply.Ok? {
        return false, lec;
      }
      HoldsObject();
      ghost var before := Now();
      lec := kube[key];
      Record(before, Reread);
      return true, lec;
    }

    /** The server's side of a status update: nothing, or the whole mutated copy. */
    method WriteStatus(key: Key, m: Mutation, local: Lec, reply: Reply) returns (lec: Lec)
      requires Valid() && pass.Some? && pass.value == Pass(key, local, pass.value.stage) && Fits(m, pass.value.stage)
      requires Took(reply) ==> key in kube && kube[key].version == local.version
      modifies `kube, `clock, `trace, `pass, `creator
      ensures Valid() && trace == old(trace) + [SaveStep(m, reply)]
      ensures pass == Some(Pass(key, lec,
                                if Took(reply) && m.RecordCertificate? then Finished else old(pass).value.stage))
      ensures kube == if Took(reply) then old(kube)[key := Mutate(m, local).(version := old(clock) + 1)] else old(kube)
      ensures reply.Ok? ==> kube[key] == lec
      ensures lec.deleting == local.deleting
    {
      hide Init, Legal, Exec, Mutate, Can, Next;
      ghost var before := Now();
      SavingStep(before, m, reply);
      MutationKeepsMark(m, local);
      lec := local;
      if !reply.Refused? {
        kube, clock := kube[key := Mutate(m, local).(version := clock + 1)], clock + 1;
      }
      if reply.Ok? {
        lec := kube[key];
      }
      Record(before, SaveStep(m, reply));
    }

    method TryStatus(key: Key, m: Mutation, local: Lec) returns (r: Attempt, lec: Lec)
      requires Valid() && pass.Some? && pass.value == Pass(key, local, pass.value.stage) && Fits(m, pass.value.stage)
      modifies `kube, `clock, `certs, `nextId, `trace, `pass, `creator, `calm
      ensures Valid() && old(trace) <= trace
      ensures pass.Some? && pass.value == Pass(key, lec, pass.value.stage)
      ensures pass.value.stage == old(pass).value.stage
              || (m.RecordCertificate? && !r.Conflict? && pass.value.stage == Finished)
      ensures r.Saved? ==> key in kube && kube[key] == lec
      ensures local.deleting ==> lec.deleting
      ensures calm ==> old(calm) && r.Saved? && Contents() == old(Contents()) && key in old(kube)
                       && kube == old(kube)[key := Mutate(m, old(kube)[key]).(version := kube[key].version)]
    {
      hide Init, Legal, Exec, Mutate, SaveStep;
      var ok;
      ok, lec := Get(key, local);
      if !ok {
        return Failed, lec;
      }
      Others();
      var reply := Call();
      if key !in kube {
        reply, r := Refused, Failed;
      } else if kube[key].version != lec.version {
        reply, r := Refused, Conflict;
      } else {
        r := if reply.Ok? then Saved else Failed;
      }
      lec := WriteStatus(key, m, lec, reply);
    }

    method UpdateStatus(key: Key, m: Mutation, local: Lec) returns (saved: bool, lec: Lec)
      requires Valid() && pass.Some? && pass.value == Pass(key, local, pass.value.stage) && Fits(m, pass.value.stage)
      modifies `kube, `clock, `certs, `nextId, `trace, `pass, `creator, `calm
      ensures Valid() && old(trace) <= trace
      ensures pass.Some? && pass.value == Pass(key, lec, pass.value.stage)
      ensures pass.value.stage == old(pass).value.stage || (m.RecordCertificate? && pass.value.stage == Finished)
      ensures saved ==> key in kube && kube[key] == lec
      ensures local.deleting ==> lec.deleting
      ensures calm ==> old(calm) && saved && Contents() == old(Contents()) && key in old(kube)
                       && kube == old(kube)[key := Mutate(m, old(kube)[key]).(version := kube[key].version)]
    {
      hide Init, Legal, Exec, Mutate;
      lec := local;
      for i := 0 to STATUS_ATTEMPTS
        invariant Valid() && old(trace) <= trace && pass == Some(Pass(key, lec, old(pass).value.stage))
        invariant local.deleting ==> lec.deleting
        invariant calm ==> i == 0
        invariant i == 0 ==> calm == old(calm) && Now() == old(Now())
      {
        var r;
        r, lec := TryStatus(key, m, lec);
        match r {
          case Saved => return true, lec;
          case Failed => return false, lec;
          case Conflict =>
        }
      }
      return false, lec;
    }

    lemma AddingFinalizer(key: Key, local: Lec, reply: Reply)
      requires pass == Some(Pass(key, local, Fetched)) && !local.deleting && !local.finalizer
      requires Took(reply) ==> key in kube && kube[key].version == local.version
      ensures Can(Now(), CertOwnership.AddFinalizer(reply))
      ensures var w', r := Next(Now(), CertOwnership.AddFinalizer(reply)),
              local.(finalizer := true, version := clock + 1);
              && w'.store == Contents()
              && w'.kube == (if Took(reply) then kube[key := r] else kube)
              && w'.clock == (if Took(reply) then clock + 1 else clock)
              && w'.pass == (if reply.Ok? then Some(Pass(key, r, Guarded)) else None)
    {
    }

    /** AddFinalizer: a failure ends the pass. */
    method AddFinalizer(key: Key, local: Lec) returns (ok: bool, lec: Lec)
      requires Valid() && pass == Some(Pass(key, local, Fetched)) && !local.deleting
      modifies `kube, `clock, `certs, `nextId, `trace, `pass, `creator, `calm
      ensures Valid() && old(trace) <= trace
      ensures pass == if ok then Some(Pass(key, lec, Guarded)) else None
      ensures calm ==> old(calm) && Contents() == old(Contents())
      ensures calm && key in old(kube) && old(kube)[key] == local ==>
                ok && lec == local.(finalizer := true, version := lec.version) && kube == old(kube)[key := lec]
    {
      hide Init, Legal, Exec, Can, Next;
      ok, lec := true, local;
      if local.finalizer {
        AlreadyGuarded(key, local);
        return;
      }
      Others();
      var reply := Call();
      if key !in kube || kube[key].version != local.version {
        reply := Refused;
      }
      ghost var before := Now();
      AddingFinalizer(key, local, reply);
      ok := reply.Ok?;
      if !reply.Refused? {
        lec := local.(finalizer := true, version := clock + 1);
        kube, clock := kube[key := lec], clock + 1;
      }
      Record(before, CertOwnership.AddFinalizer(reply));
    }

    ghost method AlreadyGuarded(key: Key, local: Lec)
      requires Valid() && pass == Some(Pass(key, local, Fetched)) && !local.deleting && local.finalizer
      modifies `trace, `pass, `creator
      ensures Valid() && old(trace) <= trace && pass == Some(Pass(key, local, Guarded))
    {
      hide Init, Legal, Exec;
      Advance(CertOwnership.AddFinalizer(Ok));
    }

    // -------------------------------------------------------------- deletion

    ghost method SkipDelete()
      requires Valid() && pass.Some? && Cleaning(pass.value)
      modifies `trace, `pass, `creator
      ensures Valid() && old(trace) <= trace && pass == Some(old(pass).value.(stage := Releasing))
    {
      hide Init, Legal, Exec;
      Advance(SkipDeletion);
    }

    /** DeleteCertificate: the finalizer's one remote call, made only for an unbound id. */
    method DeleteCertificate(id: nat)
      requires Valid() && pass.Some? && Cleaning(pass.value) && pass.value.lec.id == Some(id) && !pass.value.lec.bound
      modifies `kube, `clock, `certs, `nextId, `trace, `pass, `creator, `calm
      ensures Valid() && old(trace) <= trace && pass == Some(old(pass).value.(stage := Releasing))
      ensures calm ==> old(calm) && kube == old(kube) && nextId == old(nextId) && certs == Without(old(certs), id)
    {
      hide Init, Legal, Exec;
      Others();
      var reply := Call();
      ghost var before := Now();
      if !reply.Refused? {
        certs := Without(certs, id);
      }
      Record(before, CertOwnership.DeleteCertificate(reply));
    }

    /** RemoveFinalizer on the copy in hand: it is not read again, so any change meanwhile makes it fail. */
    method RemoveFinalizer(key: Key, local: Lec) returns (removed: bool)
      requires Valid() && pass == Some(Pass(key, local, Releasing)) && local.finalizer
      modifies `kube, `clock, `certs, `nextId, `trace, `pass, `creator, `calm
      ensures Valid() && old(trace) <= trace && pass == None
      ensures removed ==> key !in kube
      ensures calm ==> old(calm) && Contents() == old(Contents())
      ensures calm && key in old(kube) && old(kube)[key].version == local.version ==>
                removed && kube == old(kube) - {key}
    {
      hide Init, Legal, Exec;
      Others();
      var reply := Call();
      if key !in kube || kube[key].version != local.version {
        reply := Refused;
      }
      ghost var before := Now();
      if !reply.Refused? {
        kube := kube - {key};
      }
      Record(before, DropFinalizer(reply));
      removed := reply.Ok?;
    }

    /** The deletion branch. */
    method Finalize(key: Key, lec: Lec, client: bool) returns (removed: bool)
      requires Valid() && pass == Some(Pass(key, lec, Guarded)) && lec.deleting
      modifies `kube, `clock, `certs, `nextId, `trace, `pass, `creator, `calm
      ensures Valid() && old(trace) <= trace && pass == None
      ensures removed ==> key !in kube
      ensures calm ==>
                old(calm) && nextId == old(nextId)
                && certs == if client then CleanedUp(old(certs), lec) else old(certs)
      ensures calm && key in old(kube) && old(kube)[key] == lec ==> removed && kube == old(kube) - {key}
      ensures calm && client && lec.id.Some? && !lec.bound ==>
                OnlyGone(old(certs), certs, lec.id.value) && forall c :: c in certs ==> c.id != lec.id.value
      ensures calm && (!client || lec.id.None? || lec.bound) ==> certs == old(certs)
    {
      hide Init, Legal, Exec, OnlyGone;
      CleanedUpMeans(certs, lec);
      HoldsObject();
      if client && lec.id.Some? && !lec.bound {
        DeleteCertificate(lec.id.value);
      } else {
        SkipDelete();
      }
      removed := RemoveFinalizer(key, lec);
    }

    // -------------------------------------------------------------- creation

    method FindLetEncryptCertificate(domain: string) returns (r: Result<Option<Certificate>>)
      requires Valid()
      modifies `kube, `clock, `certs, `nextId, `trace, `pass, `creator, `calm
      ensures Valid() && old(trace) <= trace && pass == old(pass) && nextId >= old(nextId)
      ensures r.Success? && r.value.Some? ==> r.value.value.id < nextId
      ensures calm ==> old(calm) && Now() == old(Now()) && r == Success(FirstEligible(certs, domain, false))
    {
      hide Init, Legal, Exec, FirstEligible;
      Others();
      var reply := Call();
      if !reply.Ok? {
        return Failure;
      }
      QueryHidesNothing(certs, domain, false);
      var found := Search(Queried(certs, ExtractRootDomain(domain)), domain, false);
      if found.Some? {
        FoundServes(certs, domain);
        ListedIsOld(found.value);
      }
      return Success(found);
    }

    /** The reuse loop, with the certificates changing under it. */
    method FindReusable(domains: seq<string>) returns (r: Result<Option<Certificate>>)
      requires Valid()
      modifies `kube, `clock, `certs, `nextId, `trace, `pass, `creator, `calm
      ensures Valid() && old(trace) <= trace && pass == old(pass)
      ensures r.Success? && r.value.Some? ==> r.value.value.id < nextId
      ensures calm ==> old(calm) && Now() == old(Now()) && r == Success(Reused(LookupsOf(certs, domains)))
    {
      hide Init, Legal, Exec, FirstEligible, Reused, Clash, LookupsOf;
      ghost var lookups := LookupsOf(certs, domains);
      ghost var clash := false;
      var existing: Option<Certificate> := None;
      for i := 0 to |domains|
        invariant Valid() && old(trace) <= trace && pass == old(pass) && !clash
        invariant existing.Some? ==> existing.value.id < nextId
        invariant calm ==> old(calm) && Now() == old(Now()) && existing == (if i == 0 then None else lookups[i - 1])
                           && forall j :: 0 < j < i ==> !ClashAt(lookups, j)
      {
        var cert := FindLetEncryptCertificate(domains[i]);
        if cert.Failure? {
          return Failure;
        }
        if calm {
          LookupAt(certs, domains, i);
        }
        if cert.value.Some? && existing.Some? && existing.value.id != cert.value.value.id && i > 0 {
          clash := true;
          if calm {
            ClashForbids(lookups, i);
          }
          existing := None;
          break;
        }
        existing := cert.value;
      }
      if calm && !clash {
        NoClashReuses(lookups);
      }
      return Success(existing);
    }

    /** The server's side of a creation. */
    method ServePost(key: Key, lec: Lec, reply: Reply) returns (id: nat)
      requires Valid() && pass == Some(Pass(key, lec, Guarded)) && lec.id.None?
      modifies `certs, `nextId, `trace, `pass, `creator
      ensures Valid() && old(trace) <= trace
      ensures id == old(nextId) && pass == Some(Pass(key, lec, if reply.Ok? then Chosen(id, false) else Finished))
      ensures Took(reply) ==>
                exists position ::
                  0 <= position <= |old(certs)| && Contents() == Added(old(Contents()), lec.domains, position)
      ensures Took(reply) ==> Issued(old(certs), certs, lec.domains, id)
    {
      hide Init, Legal, Exec, Issued;
      IdsAreBelow();
      var place: nat := *;
      var position := if 0 <= place <= |certs| then place else |certs|;
      ghost var before := Now();
      id := nextId;
      if !reply.Refused? {
        certs, nextId :=
          certs[..position] + [Certificate(nextId, LETSENCRYPT_PROVIDER, lec.domains)] + certs[position..], nextId + 1;
        assert Contents() == Added(old(Contents()), lec.domains, position);
        AddedIsIssued(old(Contents()), lec.domains, position);
      }
      Record(before, PostNew(position, reply));
    }

    ghost method TakeExisting(key: Key, lec: Lec, id: nat)
      requires Valid() && pass == Some(Pass(key, lec, Guarded)) && lec.id.None? && id < nextId
      modifies `trace, `pass, `creator
      ensures Valid() && old(trace) <= trace && pass == Some(Pass(key, lec, Chosen(id, true)))
    {
      hide Init, Legal, Exec;
      Advance(Action.Reuse(id));
    }

    /** CreateLetEncryptCertificate. */
    method CreateLetEncryptCertificate(key: Key, lec: Lec) returns (r: Option<Obtained>)
      requires Valid() && pass == Some(Pass(key, lec, Guarded)) && lec.id.None?
      modifies `kube, `clock, `certs, `nextId, `trace, `pass, `creator, `calm
      ensures Valid() && old(trace) <= trace
      ensures pass.Some? && pass.value == Pass(key, lec, pass.value.stage)
      ensures pass.value.stage == if r.Some? then Chosen(r.value.id, r.value.bound) else pass.value.stage
      ensures r.None? ==> pass.value.stage.Guarded? || pass.value.stage.Finished?
      ensures calm ==>
                old(calm) && kube == old(kube) && r.Some?
                && Obtains(old(Contents()), Contents(), lec.domains, r.value.id, r.value.bound)
      ensures r.Some? && !r.value.bound ==>
                exists earlier :: Issued(earlier, certs, lec.domains, r.value.id)
      ensures calm && !r.value.bound ==> Issued(old(certs), certs, lec.domains, r.value.id)
    {
      hide Init, Legal, Exec, Reused, LookupsOf, Added, Issued;
      var existing := FindReusable(lec.domains);
      if existing.Failure? {
        return None;
      }
      if existing.value.Some? {
        TakeExisting(key, lec, existing.value.value.id);
        return Some(Obtained(existing.value.value.id, true));
      }
      Others();
      var reply := Call();
      var id := ServePost(key, lec, reply);
      return if reply.Ok? then Some(Obtained(id, false)) else None;
    }

    /** createCertificate. A recorded id is only looked up. A creation that failed is not an error here, so the pass
        goes on to report success. */
    method CreateCertificate(key: Key, local: Lec, credentials: bool) returns (ok: bool, lec: Lec)
      requires Valid() && pass == Some(Pass(key, local, Guarded))
      modifies `kube, `clock, `certs, `nextId, `trace, `pass, `creator, `calm
      ensures Valid() && old(trace) <= trace
      ensures pass.Some? && pass.value == Pass(key, lec, pass.value.stage)
      ensures Fits(Mutation.MarkConditions, pass.value.stage)
      ensures calm ==> old(calm)
      ensures calm && key in old(kube) && old(kube)[key] == local ==> (ok <==> local.id.Some? || credentials)
      ensures calm && (local.id.Some? || !credentials) ==> kube == old(kube) && Contents() == old(Contents())
      ensures calm && local.id.None? && ok && key in old(kube) && old(kube)[key] == local ==>
                key in kube && kube == old(kube)[key := kube[key]] && kube[key] == lec && kube[key].id.Some?
                && kube[key].domains == local.domains && kube[key].deleting == local.deleting
                && Obtains(old(Contents()), Contents(), local.domains, kube[key].id.value, kube[key].bound)
    {
      hide Init, Legal, Exec, Obtains;
      ok, lec := true, local;
      if local.id.Some? {
        Others();
        var reply := Call();
        return reply.Ok?, lec;
      }
      if !credentials {
        return false, lec;
      }
      var obtained := CreateLetEncryptCertificate(key, lec);
      if obtained.None? {
        return true, lec;
      }
      ok, lec := UpdateStatus(key, RecordCertificate(obtained.value.id, obtained.value.bound), lec);
    }

    // -------------------------------------------------------------- the pass

    /** Writes a condition; whether that succeeds is not looked at. */
    method Mark(key: Key, local: Lec) returns (lec: Lec)
      requires Valid() && pass.Some? && pass.value == Pass(key, local, pass.value.stage)
      requires Fits(Mutation.MarkConditions, pass.value.stage)
      modifies `kube, `clock, `certs, `nextId, `trace, `pass, `creator, `calm
      ensures Valid() && old(trace) <= trace && pass == Some(Pass(key, lec, old(pass).value.stage))
      ensures local.deleting ==> lec.deleting
      ensures calm ==> old(calm) && Contents() == old(Contents()) && InHand(old(kube), kube, key, lec)
    {
      hide Init, Legal, Exec;
      var saved;
      saved, lec := UpdateStatus(key, Mutation.MarkConditions, local);
    }

    method Report(key: Key, local: Lec)
      requires Valid() && pass.Some? && pass.value == Pass(key, local, pass.value.stage)
      requires Fits(Mutation.MarkConditions, pass.value.stage)
      modifies `kube, `clock, `certs, `nextId, `trace, `pass, `creator, `calm
      ensures Valid() && old(trace) <= trace && pass == None
      ensures calm ==>
                old(calm) && Contents() == old(Contents()) && key in kube && InHand(old(kube), kube, key, kube[key])
    {
      hide Init, Legal, Exec;
      var lec := Mark(key, local);
      End();
    }

    ghost method Start(key: Key)
      requires Valid() && pass.None? && key in kube
      modifies `trace, `pass, `creator
      ensures Valid() && old(trace) <= trace && pass == Some(Pass(key, kube[key], Fetched))
    {
      hide Init, Legal, Exec;
      Advance(Begin(key));
    }

    ghost method GoOnDeleting()
      requires Valid() && pass.Some? && pass.value.stage.Fetched? && pass.value.lec.deleting
      modifies `trace, `pass, `creator
      ensures Valid() && old(trace) <= trace && pass == Some(old(pass).value.(stage := Guarded))
    {
      hide Init, Legal, Exec;
      Advance(EnterDeletion);
    }

    /** Fetches the object and, unless it is being deleted, guards it with the finalizer. */
    method Fetch(key: Key) returns (r: Option<Lec>, marked: bool)
      requires Valid() && pass.None?
      modifies `kube, `clock, `certs, `nextId, `trace, `pass, `creator, `calm
      ensures Valid() && old(trace) <= trace
      ensures pass == if r.Some? then Some(Pass(key, r.value, Guarded)) else None
      ensures r.Some? && marked ==> r.value.deleting
      ensures calm ==> old(calm) && Contents() == old(Contents())
      ensures calm && key in old(kube) ==>
                r.Some? && marked == old(kube)[key].deleting && InHand(old(kube), kube, key, r.value)
    {
      hide Init, Legal, Exec;
      r, marked := None, false;
      Others();
      var reply := Call();
      if !reply.Ok? || key !in kube {
        return;
      }
      var lec := kube[key];
      Start(key);
      marked := lec.deleting;
      var ok := true;
      if !marked {
        ok, lec := AddFinalizer(key, lec);
      } else {
        GoOnDeleting();
      }
      if ok {
        r := Some(lec);
      }
    }

    /** The same, and a first condition for an object that has none. */
    method Prepare(key: Key) returns (r: Option<Lec>, marked: bool)
      requires Valid() && pass.None?
      modifies `kube, `clock, `certs, `nextId, `trace, `pass, `creator, `calm
      ensures Valid() && old(trace) <= trace
      ensures pass == if r.Some? then Some(Pass(key, r.value, Guarded)) else None
      ensures r.Some? && marked ==> r.value.deleting
      ensures calm ==> old(calm) && Contents() == old(Contents())
      ensures calm && key in old(kube) ==>
                r.Some? && marked == old(kube)[key].deleting && InHand(old(kube), kube, key, r.value)
    {
      hide Init, Legal, Exec;
      r, marked := Fetch(key);
      if r.Some? && !r.value.conditions {
        var lec := Mark(key, r.value);
        r := Some(lec);
      }
    }

    /** Reconcile. Undisturbed, a pass over a live object without a certificate records one that it reused or created, a
        pass over one that has a certificate leaves both stores' claims alone, and a pass over a deleted object
        deletes its own certificate, if it has one, and removes it. */
    method Reconcile(key: Key, client: bool, credentials: bool) returns (outcome: Outcome)
      requires Valid() && pass.None?
      modifies `kube, `clock, `certs, `nextId, `trace, `pass, `creator, `calm
      ensures Valid() && old(trace) <= trace && pass == None
      ensures calm ==> old(calm)
      ensures calm && key in old(kube) && !old(kube)[key].deleting ==>
                if client && (old(kube)[key].id.Some? || credentials) then outcome.Ready?
                else outcome.Requeued? && Contents() == old(Contents())
      ensures calm && outcome.Ready? && key in old(kube) && !old(kube)[key].deleting ==>
                var before := old(kube)[key];
                && key in kube && kube == old(kube)[key := kube[key]] && !kube[key].deleting
                && kube[key].domains == before.domains
                && kube[key].id.Some?
                && (before.id.Some? ==>
                      kube[key].id == before.id && kube[key].bound == before.bound && Contents() == old(Contents()))
                && (before.id.None? ==>
                      Obtains(old(Contents()), Contents(), before.domains, kube[key].id.value, kube[key].bound))
                && (before.id.None? && !kube[key].bound ==>
                      Issued(old(certs), certs, before.domains, kube[key].id.value))
                && (before.id.None? && kube[key].bound ==>
                      && Contents() == old(Contents())
                      && exists c :: c in certs && c.id == kube[key].id.value && c.provider == "letsencrypt")
      ensures calm && key in old(kube) && old(kube)[key].deleting ==>
                && outcome.Removed? && kube == old(kube) - {key} && nextId == old(nextId)
                && certs == if client then CleanedUp(old(certs), old(kube)[key]) else old(certs)
      ensures calm && key in old(kube) && old(kube)[key].deleting ==>
                var before := old(kube)[key];
                if client && before.id.Some? && !before.bound
                then OnlyGone(old(certs), certs, before.id.value) && forall c :: c in certs ==> c.id != before.id.value
                else certs == old(certs)
    {
      hide Init, Legal, Exec, Obtains, Issued, OnlyGone;
      IdsAreBelow();
      if key in kube {
        CleanedUpMeans(certs, kube[key]);
      }
      var r, marked := Prepare(key);
      if r.None? {
        return if key in kube then Requeued else Ignored;
      }
      var lec := r.value;
      if marked {
        var removed := Finalize(key, lec, client);
        return if removed then Removed else Requeued;
      }
      if !client {
        Report(key, lec);
        return Requeued;
      }
      var ok;
      ok, lec := CreateCertificate(key, lec, credentials);
      Report(key, lec);
      outcome := if ok then Ready else Requeued;
      if calm && ok && key in old(kube) && old(kube)[key].id.None? {
        ObtainsMeans(old(Contents()), Contents(), old(kube)[key].domains, kube[key].id.value, kube[key].bound);
      }
    }
  }
}
