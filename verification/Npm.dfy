/** Proxy hosts as Nginx Proxy Manager stores them (pkg/nginxpm/proxy_host.go)
    and the snapshot of an adopted host (internal/controller/proxyhost/initial_config.go). */
module Npm {
  import opened Text

  datatype Location = Location(
    path: string, advancedConfig: string, forwardScheme: string, forwardHost: string, forwardPort: int)

  /** `unscoped` is the optional `unscoped_config` field: present exactly when the server supports it. */
  datatype Host = Host(
    domainNames: seq<string>,
    forwardHost: string, forwardPort: int, forwardScheme: string,
    accessListId: int, certificateId: int,
    sslForced: bool, cachingEnabled: bool, blockExploits: bool, allowWebsocketUpgrade: bool,
    http2Support: bool, hstsEnabled: bool, hstsSubdomains: bool,
    advancedConfig: string, locations: seq<Location>,
    unscoped: Option<string>, enabled: bool, online: bool)

  /** ProxyHostRequestInput; `unscoped` is the one custom field, `Some` when it is allowed. */
  datatype RequestInput = RequestInput(
    domainNames: seq<string>,
    forwardHost: string, forwardPort: int, forwardScheme: string,
    accessListId: int, certificateId: Option<int>,
    sslForced: bool, cachingEnabled: bool, blockExploits: bool, allowWebsocketUpgrade: bool,
    http2Support: bool, hstsEnabled: bool, hstsSubdomains: bool,
    advancedConfig: string, locations: seq<Location>,
    unscoped: Option<string>)

  /** InitialConfiguration: the snapshot kept in the resource status. */
  datatype InitialConfiguration = InitialConfiguration(
    domainNames: seq<string>,
    forwardHost: string, forwardPort: int, forwardScheme: string,
    accessListId: int, certificateId: Option<int>,
    sslForced: bool, cachingEnabled: bool, blockExploits: bool, allowWebsocketUpgrade: bool,
    http2Support: bool, hstsEnabled: bool, hstsSubdomains: bool,
    advancedConfig: string, locations: seq<Location>, enabled: bool)

  // ---------------------------------------------------------------- requests

  function CertificateKey(id: Option<int>): int {
    match id case None => 0 case Some(c) => c
  }

  /** A PUT overwrites exactly the keys of its body: every configuration field,
      `unscoped_config` only when the body carries it, never the enabled flag. */
  function Put(h: Host, input: RequestInput): Host {
    h.(domainNames := input.domainNames,
       forwardHost := input.forwardHost, forwardPort := input.forwardPort, forwardScheme := input.forwardScheme,
       accessListId := input.accessListId, certificateId := CertificateKey(input.certificateId),
       sslForced := input.sslForced, cachingEnabled := input.cachingEnabled,
       blockExploits := input.blockExploits, allowWebsocketUpgrade := input.allowWebsocketUpgrade,
       http2Support := input.http2Support, hstsEnabled := input.hstsEnabled, hstsSubdomains := input.hstsSubdomains,
       advancedConfig := input.advancedConfig, locations := input.locations,
       unscoped := if input.unscoped.Some? then input.unscoped else h.unscoped)
  }

  /** A POST makes an enabled host; the optional field exists exactly when the server supports it. */
  function Post(input: RequestInput, supported: bool): Host {
    Put(Host([], "", 0, "", 0, 0, false, false, false, false, false, false, false, "", [],
             if supported then Some("") else None, true, true),
        if supported then input else input.(unscoped := None))
  }

  // ---------------------------------------------------------------- snapshot

  /** The loop that copies locations field by field. */
  method CaptureInitialConfiguration(h: Host) returns (c: InitialConfiguration)
    ensures c == Capture(h)
  {
    var certificateId := None;
    if h.certificateId != 0 {
      certificateId := Some(h.certificateId);
    }
    var locations := CopyLocations(h.locations);
    c := InitialConfiguration(
      h.domainNames, h.forwardHost, h.forwardPort, h.forwardScheme, h.accessListId, certificateId,
      h.sslForced, h.cachingEnabled, h.blockExploits, h.allowWebsocketUpgrade,
      h.http2Support, h.hstsEnabled, h.hstsSubdomains, h.advancedConfig, locations, h.enabled);
  }

  method CopyLocations(from: seq<Location>) returns (to: seq<Location>)
    ensures to == from
  {
    to := [];
    for i := 0 to |from|
      invariant to == from[..i]
    {
      to := to + [Location(from[i].path, from[i].advancedConfig,
                           from[i].forwardScheme, from[i].forwardHost, from[i].forwardPort)];
    }
  }

  method BuildRestorationInput(c: InitialConfiguration) returns (input: RequestInput)
    ensures input == Restoration(c)
  {
    var locations := CopyLocations(c.locations);
    input := RequestInput(
      c.domainNames, c.forwardHost, c.forwardPort, c.forwardScheme, c.accessListId, c.certificateId,
      c.sslForced, c.cachingEnabled, c.blockExploits, c.allowWebsocketUpgrade,
      c.http2Support, c.hstsEnabled, c.hstsSubdomains, c.advancedConfig, locations, None);
  }

  function Capture(h: Host): InitialConfiguration {
    InitialConfiguration(
      h.domainNames, h.forwardHost, h.forwardPort, h.forwardScheme, h.accessListId,
      if h.certificateId == 0 then None else Some(h.certificateId),
      h.sslForced, h.cachingEnabled, h.blockExploits, h.allowWebsocketUpgrade,
      h.http2Support, h.hstsEnabled, h.hstsSubdomains, h.advancedConfig, h.locations, h.enabled)
  }

  function Restoration(c: InitialConfiguration): RequestInput {
    RequestInput(
      c.domainNames, c.forwardHost, c.forwardPort, c.forwardScheme, c.accessListId, c.certificateId,
      c.sslForced, c.cachingEnabled, c.blockExploits, c.allowWebsocketUpgrade,
      c.http2Support, c.hstsEnabled, c.hstsSubdomains, c.advancedConfig, c.locations, None)
  }

  /** Equal in every field a request body can set, apart from `unscoped_config`. */
  predicate SameConfiguration(a: Host, b: Host) {
    a == b.(unscoped := a.unscoped, enabled := a.enabled, online := a.online)
  }

  /** Each configuration field of the host is that of the snapshot. */
  predicate HasConfiguration(h: Host, c: InitialConfiguration) {
    && h.domainNames == c.domainNames
    && h.forwardHost == c.forwardHost && h.forwardPort == c.forwardPort && h.forwardScheme == c.forwardScheme
    && h.accessListId == c.accessListId
    && h.certificateId == (match c.certificateId { case None => 0 case Some(id) => id })
    && h.sslForced == c.sslForced && h.cachingEnabled == c.cachingEnabled
    && h.blockExploits == c.blockExploits && h.allowWebsocketUpgrade == c.allowWebsocketUpgrade
    && h.http2Support == c.http2Support && h.hstsEnabled == c.hstsEnabled && h.hstsSubdomains == c.hstsSubdomains
    && h.advancedConfig == c.advancedConfig && h.locations == c.locations
  }

  /** A host has the configuration of a snapshot exactly when it is configured like the host that was captured. */
  lemma CapturedConfiguration(h: Host, original: Host)
    ensures HasConfiguration(h, Capture(original)) <==> SameConfiguration(h, original)
  {
  }

  /** Whatever was written to a host meanwhile, restoring its snapshot brings every configuration
      field back; the enabled flag and `unscoped_config` stay as they were before the restoration. */
  lemma RestorationUndoesWrites(original: Host, current: Host)
    ensures var restored := Put(current, Restoration(Capture(original)));
            SameConfiguration(restored, original)
            && restored.enabled == current.enabled && restored.unscoped == current.unscoped
            && restored.online == current.online
  {
  }

  // ---------------------------------------------------------------- domain lists

  /** What the two nested loops decide. */
  predicate DomainsMatch(host: seq<string>, search: seq<string>) {
    |host| == |search| && forall d :: d in search ==> d in host
  }

  method DomainsMatchLoop(host: seq<string>, search: seq<string>) returns (matched: bool)
    ensures matched == DomainsMatch(host, search)
  {
    if |host| != |search| {
      return false;
    }
    for i := 0 to |search|
      invariant forall k :: 0 <= k < i ==> search[k] in host
    {
      var found := false;
      for j := 0 to |host|
        invariant !found && search[i] !in host[..j]
      {
        if host[j] == search[i] {
          found := true;
          break;
        }
      }
      if !found {
        assert host[..|host|] == host;
        assert search[i] in search;
        return false;
      }
    }
    return true;
  }

  predicate Permutation(a: seq<string>, b: seq<string>) {
    multiset(a) == multiset(b)
  }

  function Elements(s: seq<string>): set<string> {
    set d | d in s
  }

  lemma {:induction false} ElementsCount(s: seq<string>)
    ensures |Elements(s)| <= |s|
    ensures NoDuplicates(s) ==> |Elements(s)| == |s|
    ensures |Elements(s)| == |s| ==> NoDuplicates(s)
  {
    if s != [] {
      var t := s[..|s| - 1];
      var last := s[|s| - 1];
      ElementsCount(t);
      assert s == t + [last];
      assert Elements(s) == Elements(t) + {last};
      if NoDuplicates(s) {
        assert forall i, j :: 0 <= i < j < |t| ==> t[i] == s[i] && t[j] == s[j];
        assert last !in t by {
          forall i | 0 <= i < |t| ensures t[i] != last { assert s[i] != s[|s| - 1]; }
        }
      }
      if |Elements(s)| == |s| {
        assert |Elements(t)| == |t| && last !in Elements(t);
        assert forall i :: 0 <= i < |t| ==> t[i] in Elements(t);
      }
    }
  }

  lemma {:induction false} MultiplicityOne(s: seq<string>, d: string)
    requires NoDuplicates(s)
    ensures multiset(s)[d] == if d in s then 1 else 0
  {
    if s != [] {
      var t := s[1..];
      assert s == [s[0]] + t;
      assert forall i, j :: 0 <= i < j < |t| ==> t[i] == s[i + 1] && t[j] == s[j + 1];
      MultiplicityOne(t, d);
      assert forall i :: 0 <= i < |t| ==> t[i] == s[i + 1];
    }
  }

  /** Pigeonhole: for a search list without duplicates, matching means being a permutation. */
  lemma MatchIsPermutation(host: seq<string>, search: seq<string>)
    requires NoDuplicates(search)
    ensures DomainsMatch(host, search) <==> Permutation(host, search)
  {
    if DomainsMatch(host, search) {
      ElementsCount(host);
      ElementsCount(search);
      SubsetOfSameSize(Elements(search), Elements(host));
      forall d ensures multiset(host)[d] == multiset(search)[d] {
        assert d in host <==> d in Elements(host);
        assert d in search <==> d in Elements(search);
        MultiplicityOne(host, d);
        MultiplicityOne(search, d);
      }
    }
    if Permutation(host, search) {
      assert |host| == |multiset(host)| == |search|;
      forall d | d in search ensures d in host { assert d in multiset(search); }
    }
  }

  lemma SubsetOfSameSize(a: set<string>, b: set<string>)
    requires a <= b && |b| <= |a|
    ensures a == b
  {
    assert |b| == |a| + |b - a| by { assert b == a + (b - a); }
  }

  /** Hence matching is symmetric between lists without duplicates. */
  lemma MatchIsSymmetric(a: seq<string>, b: seq<string>)
    requires NoDuplicates(a) && NoDuplicates(b)
    ensures DomainsMatch(a, b) <==> DomainsMatch(b, a)
  {
    MatchIsPermutation(a, b);
    MatchIsPermutation(b, a);
  }

  function Longer(s: seq<string>): (d: string)
    ensures forall e :: e in s ==> |e| < |d|
  {
    if s == [] then "x"
    else
      var rest := Longer(s[1..]);
      assert forall e :: e in s ==> e == s[0] || e in s[1..];
      rest + s[0]
  }

  /** A search list with a duplicate always matches some host list that is not a permutation of it. */
  lemma DuplicateBreaksMatch(search: seq<string>) returns (host: seq<string>)
    requires !NoDuplicates(search)
    ensures DomainsMatch(host, search) && !Permutation(host, search)
  {
    var i, j :| 0 <= i < j < |search| && search[i] == search[j];
    var unused := Longer(search);
    host := search[i := unused];
    forall d | d in search ensures d in host {
      var k :| 0 <= k < |search| && search[k] == d;
      if k == i {
        assert host[j] == d;
      } else {
        assert host[k] == d;
      }
    }
    assert host[i] == unused;
    assert unused in multiset(host) && unused !in multiset(search);
  }

  /** The exact limit: `domainsMatch` decides permutation for a search list if and only if it has no duplicate. */
  lemma MatchDecidesPermutation(search: seq<string>)
    ensures (forall host :: DomainsMatch(host, search) <==> Permutation(host, search)) <==> NoDuplicates(search)
  {
    if NoDuplicates(search) {
      forall host ensures DomainsMatch(host, search) <==> Permutation(host, search) {
        MatchIsPermutation(host, search);
      }
    } else {
      var host := DuplicateBreaksMatch(search);
    }
  }
}
