/** Choosing a certificate: searches, the reuse loop, precedence of references, and find-or-create
    (pkg/nginxpm/certificate.go, pkg/nginxpm/letsencrypt_certificate.go, internal/controller/certificate.go,
    internal/controller/proxyhost/proxyhost_controller.go:679-770). */
module Certificates {
  import opened Text
  import opened Domains

  const LETSENCRYPT_PROVIDER := "letsencrypt"

  datatype Certificate = Certificate(id: nat, provider: string, domainNames: seq<string>)

  /** The certificates in the order the server lists them. */
  datatype Store = Store(certs: seq<Certificate>, nextId: nat)

  predicate IdsFresh(s: Store) {
    forall i, j :: 0 <= i < j < |s.certs| ==> s.certs[i].id != s.certs[j].id
  }

  predicate Below(s: Store) {
    forall c :: c in s.certs ==> c.id < s.nextId
  }

  predicate WellFormed(s: Store) { IdsFresh(s) && Below(s) }

  // ---------------------------------------------------------------- searches

  /** One of the certificate's names is the domain or its wildcard. */
  predicate Serves(c: Certificate, domain: string) {
    exists n :: n in c.domainNames && NameMatches(n, domain)
  }

  predicate Eligible(c: Certificate, domain: string, anyProvider: bool) {
    Serves(c, domain) && (anyProvider || c.provider == LETSENCRYPT_PROVIDER)
  }

  function FirstEligible(certs: seq<Certificate>, domain: string, anyProvider: bool): (r: Option<Certificate>)
    ensures r.Some? ==> r.value in certs && Eligible(r.value, domain, anyProvider)
    ensures r.None? ==> forall c :: c in certs ==> !Eligible(c, domain, anyProvider)
  {
    if certs == [] then None
    else if Eligible(certs[0], domain, anyProvider) then Some(certs[0])
    else FirstEligible(certs[1..], domain, anyProvider)
  }

  lemma {:induction false} FirstEligibleSkips(certs: seq<Certificate>, i: nat, domain: string, anyProvider: bool)
    requires i <= |certs| && forall j :: 0 <= j < i ==> !Eligible(certs[j], domain, anyProvider)
    ensures FirstEligible(certs, domain, anyProvider) == FirstEligible(certs[i..], domain, anyProvider)
  {
    hide Eligible;
    if i == 0 {
      assert certs[0..] == certs;
    } else {
      FirstEligibleSkips(certs[1..], i - 1, domain, anyProvider);
      assert certs[1..][i - 1..] == certs[i..];
    }
  }

  lemma FoundTells(certs: seq<Certificate>, domain: string, anyProvider: bool)
    ensures match FirstEligible(certs, domain, anyProvider)
            case Some(c) => c in certs && Serves(c, domain) && (anyProvider || c.provider == "letsencrypt")
            case None => forall c :: c in certs && Serves(c, domain) ==> !anyProvider && c.provider != "letsencrypt"
  {
    hide Serves, FirstEligible;
  }

  /** The nested loops of both searches: the first certificate with a fitting name, and provider if asked for. */
  method Search(certs: seq<Certificate>, domain: string, anyProvider: bool) returns (r: Option<Certificate>)
    ensures r == FirstEligible(certs, domain, anyProvider)
    ensures r.Some? ==>
              r.value in certs && Serves(r.value, domain) && (anyProvider || r.value.provider == "letsencrypt")
    ensures r.None? ==> forall c :: c in certs && Serves(c, domain) ==> !anyProvider && c.provider != "letsencrypt"
  {
    hide NameMatches, LETSENCRYPT_PROVIDER;
    FoundTells(certs, domain, anyProvider);
    for i := 0 to |certs|
      invariant forall j :: 0 <= j < i ==> !Eligible(certs[j], domain, anyProvider)
    {
      for j := 0 to |certs[i].domainNames|
        invariant forall k :: 0 <= k < j ==>
                    !(NameMatches(certs[i].domainNames[k], domain)
                      && (anyProvider || certs[i].provider == LETSENCRYPT_PROVIDER))
      {
        if NameMatches(certs[i].domainNames[j], domain) && (anyProvider || certs[i].provider == LETSENCRYPT_PROVIDER) {
          FirstEligibleSkips(certs, i, domain, anyProvider);
          assert certs[i..][0] == certs[i];
          return Some(certs[i]);
        }
      }
    }
    FirstEligibleSkips(certs, |certs|, domain, anyProvider);
    return None;
  }

  /** What a server returns for a query: the certificates with a name that contains it. */
  function Queried(certs: seq<Certificate>, query: string): seq<Certificate> {
    if certs == [] then []
    else
      var rest := Queried(certs[1..], query);
      if exists n :: n in certs[0].domainNames && Contains(n, query) then [certs[0]] + rest else rest
  }

  /** Searching the answer to the root-domain query is searching the whole list. */
  lemma {:induction false} QueryHidesNothing(certs: seq<Certificate>, domain: string, anyProvider: bool)
    ensures FirstEligible(Queried(certs, ExtractRootDomain(domain)), domain, anyProvider)
            == FirstEligible(certs, domain, anyProvider)
  {
    hide NameMatches, Contains, ExtractRootDomain;
    if certs != [] {
      QueryHidesNothing(certs[1..], domain, anyProvider);
      if Eligible(certs[0], domain, anyProvider) {
        var n :| n in certs[0].domainNames && NameMatches(n, domain);
        MatchContainsRoot(n, domain);
      }
      var rest := Queried(certs[1..], ExtractRootDomain(domain));
      assert ([certs[0]] + rest)[1..] == rest;
    }
  }

  // ---------------------------------------------------------------- the reuse loop

  /** Two neighbouring lookups that both succeeded disagree. */
  predicate Clash(lookups: seq<Option<Certificate>>) {
    exists i :: 0 < i < |lookups| && ClashAt(lookups, i)
  }

  predicate ClashAt(lookups: seq<Option<Certificate>>, i: nat)
    requires 0 < i < |lookups|
  {
    lookups[i - 1].Some? && lookups[i].Some? && lookups[i - 1].value.id != lookups[i].value.id
  }

  /** The closed form: the last lookup, unless it failed or two neighbours disagree. */
  function Reused(lookups: seq<Option<Certificate>>): Option<Certificate> {
    if lookups == [] || Clash(lookups) then None else lookups[|lookups| - 1]
  }

  lemma NoClashReuses(lookups: seq<Option<Certificate>>)
    requires forall i :: 0 < i < |lookups| ==> !ClashAt(lookups, i)
    ensures Reused(lookups) == if lookups == [] then None else lookups[|lookups| - 1]
  {
  }

  lemma ClashForbids(lookups: seq<Option<Certificate>>, i: nat)
    requires 0 < i < |lookups| && ClashAt(lookups, i)
    ensures Reused(lookups) == None
  {
  }

  function LookupsOf(certs: seq<Certificate>, domains: seq<string>): (ls: seq<Option<Certificate>>)
    ensures |ls| == |domains|
  {
    seq(|domains|, i requires 0 <= i < |domains| => FirstEligible(certs, domains[i], false))
  }

  lemma LookupAt(certs: seq<Certificate>, domains: seq<string>, i: nat)
    requires i < |domains|
    ensures LookupsOf(certs, domains)[i] == FirstEligible(certs, domains[i], false)
  {
  }

  /** If every domain has a match, reuse happens exactly when all matches are one certificate, and that one serves
      every domain. */
  lemma AllMatched(s: Store, domains: seq<string>)
    requires WellFormed(s) && domains != []
    requires forall i :: 0 <= i < |domains| ==> LookupsOf(s.certs, domains)[i].Some?
    ensures var ls := LookupsOf(s.certs, domains);
            Reused(ls).Some? <==> forall i :: 0 <= i < |ls| ==> ls[i] == ls[0]
    ensures var r := Reused(LookupsOf(s.certs, domains));
            r.Some? ==> forall d :: d in domains ==> Serves(r.value, d)
  {
    hide Eligible, Serves, FirstEligible;
    var ls := LookupsOf(s.certs, domains);
    if Reused(ls).Some? {
      SameToTheLeft(s, domains, |ls| - 1);
      forall d | d in domains ensures Serves(ls[|ls| - 1].value, d) {
        var i :| 0 <= i < |domains| && domains[i] == d;
        assert ls[i] == ls[|ls| - 1];
        FoundServes(s.certs, d);
      }
    }
  }

  lemma FoundServes(certs: seq<Certificate>, domain: string)
    ensures var r := FirstEligible(certs, domain, false); r.Some? ==> r.value in certs && Serves(r.value, domain)
  {
  }

  lemma SameId(s: Store, a: Certificate, b: Certificate)
    requires WellFormed(s) && a in s.certs && b in s.certs && a.id == b.id
    ensures a == b
  {
  }

  /** Without a clash, all lookups that succeeded up to k are the one at k. */
  lemma {:induction false} SameToTheLeft(s: Store, domains: seq<string>, k: nat)
    requires WellFormed(s) && k < |domains|
    requires var ls := LookupsOf(s.certs, domains); !Clash(ls) && forall i :: 0 <= i <= k ==> ls[i].Some?
    ensures var ls := LookupsOf(s.certs, domains); forall i :: 0 <= i <= k ==> ls[i] == ls[k]
  {
    hide FirstEligible, Serves, WellFormed;
    if k > 0 {
      SameToTheLeft(s, domains, k - 1);
      var ls := LookupsOf(s.certs, domains);
      assert !ClashAt(ls, k);
      FoundServes(s.certs, domains[k - 1]);
      FoundServes(s.certs, domains[k]);
      SameId(s, ls[k - 1].value, ls[k].value);
    }
  }

  /** A reused certificate serves all the domains if and only if every lookup succeeded. */
  lemma ReuseServesAll(s: Store, domains: seq<string>)
    requires WellFormed(s) && Reused(LookupsOf(s.certs, domains)).Some?
    ensures var ls := LookupsOf(s.certs, domains);
            (forall d :: d in domains ==> Serves(Reused(ls).value, d)) <==> (forall i :: 0 <= i < |ls| ==> ls[i].Some?)
  {
    hide NameMatches;
    var ls := LookupsOf(s.certs, domains);
    if forall i :: 0 <= i < |ls| ==> ls[i].Some? {
      AllMatched(s, domains);
    }
    if forall d :: d in domains ==> Serves(Reused(ls).value, d) {
      forall i | 0 <= i < |ls| ensures ls[i].Some? {
        assert domains[i] in domains;
        assert Eligible(Reused(ls).value, domains[i], false);
      }
    }
  }

  /** A failed lookup does not prevent reuse: a certificate that serves only the second of two domains is reused for
      both. */
  lemma ReuseMayMissTheFirst(c: Certificate, first: string, second: string)
    requires c.provider == LETSENCRYPT_PROVIDER && !Serves(c, first) && Serves(c, second)
    ensures Reused(LookupsOf([c], [first, second])) == Some(c) && !Serves(c, first)
  {
    hide Serves, LETSENCRYPT_PROVIDER;
    var ls := LookupsOf([c], [first, second]);
    assert ls[0] == FirstEligible([c], first, false) && ls[1] == FirstEligible([c], second, false);
    assert [c][1..] == [];
    NoClashReuses(ls);
  }

  /** A reused certificate is a listed one of Let's Encrypt that serves the last domain. */
  lemma ReusedIsListed(certs: seq<Certificate>, domains: seq<string>)
    requires Reused(LookupsOf(certs, domains)).Some?
    ensures domains != []
    ensures var c := Reused(LookupsOf(certs, domains)).value;
            c in certs && c.provider == "letsencrypt" && Serves(c, domains[|domains| - 1])
  {
    hide Serves;
    var ls := LookupsOf(certs, domains);
    assert |ls| == |domains|;
    assert ls[|ls| - 1] == FirstEligible(certs, domains[|ls| - 1], false);
  }

  // ---------------------------------------------------------------- find or create

  /** What findOrCreateCertificate does when every call is answered. */
  datatype Decision = Existing(id: nat) | Reuse(id: nat) | Create

  function Decide(s: Store, domains: seq<string>): Decision
    requires domains != []
  {
    var found := FirstEligible(s.certs, domains[0], true);
    if found.Some? then Existing(found.value.id)
    else
      var reused := Reused(LookupsOf(s.certs, domains));
      if reused.Some? then Reuse(reused.value.id) else Create
  }

  /** The server lists a new certificate somewhere. */
  function Added(s: Store, domains: seq<string>, position: nat): Store
    requires position <= |s.certs|
  {
    Store(s.certs[..position] + [Certificate(s.nextId, LETSENCRYPT_PROVIDER, domains)] + s.certs[position..],
          s.nextId + 1)
  }

  /** One pass: it may fail at any call, with or without the creation having taken effect. */
  ghost predicate Chooses(s: Store, s': Store, domains: seq<string>, r: Option<nat>) {
    || (s' == s && r.None?)
    || (domains != [] && s' == s && !Decide(s, domains).Create? && r == Some(Decide(s, domains).id))
    || (domains != [] && Decide(s, domains).Create?
        && (exists position :: 0 <= position <= |s.certs| && s' == Added(s, domains, position))
        && (r.None? || r == Some(s.nextId)))
  }

  lemma OwnNameServes(c: Certificate, domain: string)
    requires domain in c.domainNames
    ensures Serves(c, domain)
  {
    assert NameMatches(domain, domain);
  }

  lemma {:induction false} FirstAfterInsertion(front: seq<Certificate>, c: Certificate, back: seq<Certificate>,
                                               domain: string)
    requires forall d :: d in front ==> !Eligible(d, domain, true)
    requires Eligible(c, domain, true)
    ensures FirstEligible(front + [c] + back, domain, true) == Some(c)
  {
    hide Eligible;
    if front == [] {
      assert front + [c] + back == [c] + back;
    } else {
      assert (front + [c] + back)[1..] == front[1..] + [c] + back;
      assert front[0] in front;
      FirstAfterInsertion(front[1..], c, back, domain);
    }
  }

  /** One certificate came on top of the earlier ones: it has this id, which no other has, and names and serves every
      domain of the list. */
  ghost predicate Issued(certs: seq<Certificate>, certs': seq<Certificate>, domains: seq<string>, id: nat) {
    exists c ::
      && c in certs' && c.id == id && c.provider == "letsencrypt" && c.domainNames == domains
      && (forall d :: d in domains ==> Serves(c, d))
      && (forall e :: e in certs' && e.id == id ==> e == c)
      && multiset(certs') == multiset(certs) + multiset{c}
  }

  lemma AddedIsIssued(s: Store, domains: seq<string>, position: nat)
    requires Below(s) && position <= |s.certs|
    ensures Issued(s.certs, Added(s, domains, position).certs, domains, s.nextId)
  {
    hide Serves;
    var c := Certificate(s.nextId, LETSENCRYPT_PROVIDER, domains);
    var certs' := Added(s, domains, position).certs;
    forall d | d in domains ensures Serves(c, d) {
      OwnNameServes(c, d);
    }
    assert s.certs == s.certs[..position] + s.certs[position..];
    assert c == certs'[position];
    assert forall e :: e in certs' ==> e == c || e in s.certs;
  }

  lemma NewCertificate(s: Store, domains: seq<string>, position: nat, c: Certificate)
    requires position <= |s.certs| && c == Certificate(s.nextId, LETSENCRYPT_PROVIDER, domains)
    ensures forall d :: d in domains ==> Serves(c, d)
    ensures multiset(Added(s, domains, position).certs) == multiset(s.certs) + multiset{c}
    ensures Below(s) ==> Issued(s.certs, Added(s, domains, position).certs, domains, c.id)
  {
    hide Serves, Issued;
    forall d | d in domains ensures Serves(c, d) {
      OwnNameServes(c, d);
    }
    assert s.certs == s.certs[..position] + s.certs[position..];
    if Below(s) {
      AddedIsIssued(s, domains, position);
    }
  }

  /** A creation settles the decision on the new certificate. */
  lemma CreationSettles(s: Store, domains: seq<string>, position: nat)
    requires domains != [] && Decide(s, domains).Create? && position <= |s.certs|
    ensures Decide(Added(s, domains, position), domains) == Existing(s.nextId)
  {
    hide Eligible, Reused;
    var c := Certificate(s.nextId, LETSENCRYPT_PROVIDER, domains);
    OwnNameServes(c, domains[0]);
    EligibleToAny(c, domains[0]);
    assert forall d :: d in s.certs[..position] ==> d in s.certs;
    FirstAfterInsertion(s.certs[..position], c, s.certs[position..], domains[0]);
  }

  lemma EligibleToAny(c: Certificate, domain: string)
    ensures Eligible(c, domain, true) <==> Serves(c, domain)
  {
  }

  /** A pass changes the store at most by settling it, and answers only with what the store is settled on. */
  lemma PassSettles(s: Store, s': Store, domains: seq<string>, r: Option<nat>)
    requires domains != [] && Chooses(s, s', domains, r)
    ensures s' == s
            || (Decide(s, domains).Create? && Decide(s', domains) == Existing(s.nextId)
                && |s'.certs| == |s.certs| + 1)
    ensures r.Some? ==> !Decide(s', domains).Create? && Decide(s', domains).id == r.value
  {
    hide Decide;
    if s' != s {
      var position :| 0 <= position <= |s.certs| && s' == Added(s, domains, position);
      CreationSettles(s, domains, position);
    }
  }

  /** Passes over one list of domains; `stores[i]` is what pass i finds, `answers[i]` what it returns. */
  ghost predicate Passes(stores: seq<Store>, answers: seq<Option<nat>>, domains: seq<string>) {
    && |stores| == |answers| + 1
    && forall i :: 0 <= i < |answers| ==> Chooses(stores[i], stores[i + 1], domains, answers[i])
  }

  lemma {:induction false} SettledStays(stores: seq<Store>, answers: seq<Option<nat>>, domains: seq<string>,
                                        i: nat, j: nat)
    requires domains != [] && Passes(stores, answers, domains) && i <= j < |stores|
    requires !Decide(stores[i], domains).Create?
    ensures stores[j] == stores[i]
    decreases j - i
  {
    hide Decide, Chooses;
    if i < j {
      assert Chooses(stores[i], stores[i + 1], domains, answers[i]);
      PassSettles(stores[i], stores[i + 1], domains, answers[i]);
      SettledStays(stores, answers, domains, i + 1, j);
    }
  }

  /** Over any number of passes, with any failures, every answer names the same certificate. */
  lemma AnswersAgree(stores: seq<Store>, answers: seq<Option<nat>>, domains: seq<string>, i: nat, j: nat)
    requires domains != [] && Passes(stores, answers, domains) && i <= j < |answers|
    requires answers[i].Some? && answers[j].Some?
    ensures answers[i] == answers[j]
  {
    hide Decide, Chooses;
    assert Chooses(stores[i], stores[i + 1], domains, answers[i])
      && Chooses(stores[j], stores[j + 1], domains, answers[j]);
    PassSettles(stores[i], stores[i + 1], domains, answers[i]);
    PassSettles(stores[j], stores[j + 1], domains, answers[j]);
    SettledStays(stores, answers, domains, i + 1, j + 1);
  }

  /** At most one certificate is ever created, counting requests whose answer was lost. */
  lemma {:induction false} AtMostOneCreation(stores: seq<Store>, answers: seq<Option<nat>>, domains: seq<string>,
                                             i: nat)
    requires domains != [] && Passes(stores, answers, domains) && i < |stores|
    ensures stores[i] == stores[0]
            || (|stores[i].certs| == |stores[0].certs| + 1 && !Decide(stores[i], domains).Create?)
  {
    hide Decide, Chooses;
    if i > 0 {
      AtMostOneCreation(stores, answers, domains, i - 1);
      assert Chooses(stores[i - 1], stores[i], domains, answers[i - 1]);
      PassSettles(stores[i - 1], stores[i], domains, answers[i - 1]);
    }
  }

  /** The certificate a pass answers with serves the first domain, except on the reuse branch, where it never does. */
  lemma AnswerServesFirst(s: Store, s': Store, domains: seq<string>, id: nat, c: Certificate)
    requires WellFormed(s) && domains != [] && Chooses(s, s', domains, Some(id))
    requires c in s'.certs && c.id == id
    ensures Serves(c, domains[0]) <==> !Decide(s, domains).Reuse?
  {
    hide NameMatches, Reused;
    if s' == s {
      if Decide(s, domains).Existing? {
        SameId(s, c, FirstEligible(s.certs, domains[0], true).value);
      } else if Decide(s, domains).Reuse? {
        EligibleToAny(c, domains[0]);
      }
    } else {
      OwnNameServes(Certificate(s.nextId, LETSENCRYPT_PROVIDER, domains), domains[0]);
      assert c.id < s.nextId ==> c.id != id;
    }
  }

  // ---------------------------------------------------------------- references

  /** What a referenced certificate resource tells: it is absent, it has no certificate yet, or it names one. */
  datatype Reference = Missing | WithoutId | Holding(id: nat)

  function ById(certs: seq<Certificate>, id: nat): Option<Certificate> {
    if certs == [] then None else if certs[0].id == id then Some(certs[0]) else ById(certs[1..], id)
  }

  /** A listed certificate with this id, or nothing if there is none. */
  predicate IsWithId(certs: seq<Certificate>, id: nat, r: Option<Certificate>) {
    match r
    case Some(c) => c in certs && c.id == id
    case None => forall c :: c in certs ==> c.id != id
  }

  lemma {:induction false} ByIdMeans(certs: seq<Certificate>, id: nat)
    ensures IsWithId(certs, id, ById(certs, id))
  {
    if certs != [] {
      ByIdMeans(certs[1..], id);
      assert certs == [certs[0]] + certs[1..];
    }
  }

  predicate Resolvable(r: Option<Reference>) {
    r.None? || r.value.Holding?
  }

  /** The last source that is given decides alone, even when its certificate does not exist. */
  function Referenced(certs: seq<Certificate>, letsEncrypt: Option<Reference>, custom: Option<Reference>,
                      certificateId: Option<nat>): Option<Certificate>
    requires Resolvable(letsEncrypt) && Resolvable(custom)
  {
    if certificateId.Some? then ById(certs, certificateId.value)
    else if custom.Some? then ById(certs, custom.value.id)
    else if letsEncrypt.Some? then ById(certs, letsEncrypt.value.id)
    else None
  }

  /** The certificates of Nginx Proxy Manager and the calls made on them. Any call may fail; a creation may
      take effect although its answer is lost. Nobody else changes the certificates. */
  class CertificateClient {
    var certs: seq<Certificate>
    var nextId: nat
    /** Since it was last set: no call failed. */
    ghost var calm: bool

    ghost function Contents(): Store
      reads this
    {
      Store(certs, nextId)
    }

    constructor (s: Store)
      ensures Contents() == s
    {
      certs, nextId, calm := s.certs, s.nextId, true;
    }

    /** Is the next call answered? */
    method Call() returns (answered: bool)
      modifies `calm
      ensures calm ==> old(calm) && answered
    {
      answered := *;
      calm := calm && answered;
    }

    method FindLetEncryptCertificate(domain: string) returns (r: Result<Option<Certificate>>)
      modifies `calm
      ensures r.Success? ==> r.value == FirstEligible(certs, domain, false)
      ensures calm ==> old(calm) && r.Success?
    {
      var answered := Call();
      if !answered {
        return Failure;
      }
      QueryHidesNothing(certs, domain, false);
      var found := Search(Queried(certs, ExtractRootDomain(domain)), domain, false);
      return Success(found);
    }

    /** The reuse loop: one variable that always holds the previous lookup, and a break on a disagreement. */
    method FindReusable(domains: seq<string>) returns (r: Result<Option<Certificate>>)
      modifies `calm
      ensures r.Success? ==> r.value == Reused(LookupsOf(certs, domains))
      ensures calm ==> old(calm) && r.Success?
    {
      hide FirstEligible;
      ghost var lookups := LookupsOf(certs, domains);
      var existing: Option<Certificate> := None;
      for i := 0 to |domains|
        invariant existing == if i == 0 then None else lookups[i - 1]
        invariant forall j :: 0 < j < i ==> !ClashAt(lookups, j)
        invariant calm ==> old(calm)
      {
        var cert := FindLetEncryptCertificate(domains[i]);
        if cert.Failure? {
          return Failure;
        }
        if cert.value.Some? && existing.Some? && existing.value.id != cert.value.value.id && i > 0 {
          assert ClashAt(lookups, i);
          existing := None;
          break;
        }
        existing := cert.value;
      }
      return Success(existing);
    }

    /** CreateLetEncryptCertificate: `bound` tells a reused certificate from a new one. */
    method CreateLetEncryptCertificate(domains: seq<string>) returns (r: Result<Certificate>, bound: bool)
      modifies this
      ensures r.Success? && bound ==>
                Contents() == old(Contents()) && Reused(LookupsOf(certs, domains)) == Some(r.value)
      ensures r.Success? && !bound ==>
                Reused(LookupsOf(old(certs), domains)) == None
                && r.value == Certificate(old(nextId), LETSENCRYPT_PROVIDER, domains)
                && exists position ::
                     0 <= position <= |old(certs)| && Contents() == Added(old(Contents()), domains, position)
      ensures r.Success? && !bound ==>
                && r.value.domainNames == domains && (forall d :: d in domains ==> Serves(r.value, d))
                && multiset(certs) == multiset(old(certs)) + multiset{r.value}
                && (Below(old(Contents())) ==> Issued(old(certs), certs, domains, r.value.id))
      ensures r.Failure? ==>
                Contents() == old(Contents())
                || (Reused(LookupsOf(old(certs), domains)) == None
                    && exists position ::
                         0 <= position <= |old(certs)| && Contents() == Added(old(Contents()), domains, position))
      ensures calm ==> old(calm) && r.Success?
    {
      hide FirstEligible, Reused, LookupsOf, LETSENCRYPT_PROVIDER, Serves, Issued;
      var existing := FindReusable(domains);
      if existing.Failure? {
        return Failure, false;
      }
      if existing.value.Some? {
        return Success(existing.value.value), true;
      }
      var accepted := Call();
      if !accepted {
        return Failure, false;
      }
      var place: nat := *;
      var position := if 0 <= place <= |certs| then place else |certs|;
      var created := Certificate(nextId, LETSENCRYPT_PROVIDER, domains);
      certs, nextId := certs[..position] + [created] + certs[position..], nextId + 1;
      assert Contents() == Added(old(Contents()), domains, position);
      NewCertificate(old(Contents()), domains, position, created);
      var answered := Call();
      r, bound := if answered then Success(created) else Failure, false;
    }

    /** findOrCreateCertificate, for the domains without ports. */
    method FindOrCreateCertificate(domains: seq<string>) returns (r: Result<nat>)
      modifies this
      ensures Chooses(old(Contents()), Contents(), domains, if r.Success? then Some(r.value) else None)
      ensures r.Success? && (exists c :: c in old(certs) && Serves(c, domains[0])) ==>
                && Contents() == old(Contents())
                && exists c :: c in certs && c.id == r.value && Serves(c, domains[0])
      ensures r.Success? && (forall c :: c in old(certs) ==> !Serves(c, domains[0])) && Below(old(Contents())) ==>
                || Issued(old(certs), certs, domains, r.value)
                || (certs == old(certs) && exists c :: c in certs && c.id == r.value && c.provider == "letsencrypt")
      ensures calm ==> old(calm) && (r.Success? <==> domains != [])
    {
      hide FirstEligible, Reused, LookupsOf, Added, Serves, Issued;
      var answered := Call();
      if |domains| == 0 || !answered {
        return Failure;
      }
      var found := Search(certs, domains[0], true);
      if found.Some? {
        return Success(found.value.id);
      }
      var created, bound := CreateLetEncryptCertificate(domains);
      if created.Success? && bound {
        ReusedIsListed(certs, domains);
      }
      return if created.Success? then Success(created.value.id) else Failure;
    }

    method FindCertificateByID(id: nat) returns (r: Result<Option<Certificate>>)
      modifies `calm
      ensures r.Success? ==> r.value == ById(certs, id)
      ensures calm ==> old(calm) && r.Success?
    {
      var answered := Call();
      if !answered {
        return Failure;
      }
      for i := 0 to |certs|
        invariant ById(certs, id) == ById(certs[i..], id)
      {
        if certs[i].id == id {
          return Success(Some(certs[i]));
        }
        assert certs[i..][1..] == certs[i + 1..];
      }
      return Success(None);
    }

    /** A reference must lead to a certificate id before its certificate is looked up. */
    method Follow(reference: Reference) returns (r: Result<Option<Certificate>>)
      modifies `calm
      ensures r.Success? ==> reference.Holding? && r.value == ById(certs, reference.id)
      ensures calm ==> old(calm) && (r.Success? <==> reference.Holding?)
    {
      if !reference.Holding? {
        return Failure;
      }
      r := FindCertificateByID(reference.id);
    }

    /** RetrieveCertificate: every given source is followed and must resolve; the last one overwrites the others. */
    method RetrieveCertificate(letsEncrypt: Option<Reference>, custom: Option<Reference>, certificateId: Option<nat>)
      returns (r: Result<Option<Certificate>>)
      modifies `calm
      ensures !Resolvable(letsEncrypt) || !Resolvable(custom) ==> r.Failure?
      ensures r.Success? ==> r.value == Referenced(certs, letsEncrypt, custom, certificateId)
      ensures r.Success? && certificateId.Some? ==> IsWithId(certs, certificateId.value, r.value)
      ensures r.Success? && certificateId.None? && custom.Some? ==>
                custom.value.Holding? && IsWithId(certs, custom.value.id, r.value)
      ensures r.Success? && certificateId.None? && custom.None? && letsEncrypt.Some? ==>
                letsEncrypt.value.Holding? && IsWithId(certs, letsEncrypt.value.id, r.value)
      ensures r.Success? && certificateId.None? && custom.None? && letsEncrypt.None? ==> r.value == None
      ensures calm ==> old(calm) && (r.Success? <==> Resolvable(letsEncrypt) && Resolvable(custom))
    {
      forall id { ByIdMeans(certs, id); }
      r := Success(None);
      if letsEncrypt.Some? {
        r := Follow(letsEncrypt.value);
        if r.Failure? {
          return;
        }
      }
      if custom.Some? {
        r := Follow(custom.value);
        if r.Failure? {
          return;
        }
      }
      if certificateId.Some? {
        r := FindCertificateByID(certificateId.value);
      }
    }

    /** makeCertificate: the automatic request is made only when no reference gave a certificate. */
    method MakeCertificate(letsEncrypt: Option<Reference>, custom: Option<Reference>, certificateId: Option<nat>,
                           automatic: bool, domains: seq<string>)
      returns (r: Result<Option<nat>>)
      modifies this
      ensures !Resolvable(letsEncrypt) || !Resolvable(custom) ==> r.Failure? && Contents() == old(Contents())
      ensures r.Success? ==>
                var given := Referenced(old(certs), letsEncrypt, custom, certificateId);
                if given.Some? || !automatic
                then Contents() == old(Contents()) && r.value == if given.Some? then Some(given.value.id) else None
                else r.value.Some? && Chooses(old(Contents()), Contents(), domains, r.value)
      ensures calm && domains != [] ==> old(calm) && (r.Success? <==> Resolvable(letsEncrypt) && Resolvable(custom))
    {
      hide Chooses, IsWithId;
      var given := RetrieveCertificate(letsEncrypt, custom, certificateId);
      if given.Failure? {
        return Failure;
      }
      if given.value.None? && automatic {
        var chosen := FindOrCreateCertificate(domains);
        return if chosen.Success? then Success(Some(chosen.value)) else Failure;
      }
      return Success(if given.value.Some? then Some(given.value.value.id) else None);
    }
  }
}
