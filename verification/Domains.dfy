/** Root domains and the certificate names they select (pkg/util/util.go, pkg/nginxpm/certificate.go:84-109,
    pkg/nginxpm/letsencrypt_certificate.go:53-88). */
module Domains {
  import opened Text

  /** The labels of a domain; a final dot is dropped. */
  function Labels(domain: string): (labels: seq<string>)
    ensures |labels| >= 1
  {
    Split(TrimSuffix(domain, '.'), '.')
  }

  /** A domain of at most two labels is its own root; otherwise the first label goes. */
  function ExtractRootDomain(domain: string): string {
    var trimmed := TrimSuffix(domain, '.');
    var parts := Split(trimmed, '.');
    if |parts| <= 2 then trimmed else Join(parts[1..], ".")
  }

  /** The wildcard name that both searches accept besides the domain itself. */
  function Wildcard(domain: string): string {
    "*." + ExtractRootDomain(domain)
  }

  predicate NameMatches(name: string, domain: string) {
    name == domain || name == Wildcard(domain)
  }

  /** Section 6.4.3 of RFC 6125: a wildcard stands for exactly the left-most label. */
  predicate Covers(name: string, domain: string) {
    name == domain
    || (var presented, wanted := Split(name, '.'), Labels(domain);
        |presented| == |wanted| && presented[0] == "*" && presented[1..] == wanted[1..])
  }

  lemma RootOfMany(domain: string)
    requires |Labels(domain)| >= 3
    ensures Split(ExtractRootDomain(domain), '.') == Labels(domain)[1..]
  {
    var parts := Labels(domain);
    SplitPartsAreClean(TrimSuffix(domain, '.'), '.');
    forall p | p in parts[1..] ensures '.' !in p { assert p in parts; }
    SplitJoin(parts[1..], '.');
  }

  lemma WildcardLabels(domain: string)
    ensures Split(Wildcard(domain), '.') == ["*"] + Split(ExtractRootDomain(domain), '.')
  {
    SplitOfConcat("*", '.', ExtractRootDomain(domain));
    assert Wildcard(domain) == "*" + ['.'] + ExtractRootDomain(domain);
  }

  /** The wildcard name covers the domain exactly when the domain has three or more labels. */
  lemma WildcardCovers(domain: string)
    ensures Covers(Wildcard(domain), domain) <==> |Labels(domain)| >= 3
  {
    WildcardLabels(domain);
    if |Labels(domain)| >= 3 {
      RootOfMany(domain);
    } else {
      assert |Wildcard(domain)| > |domain|;
    }
  }

  /** A name found for a domain covers it if and only if it is the domain itself or the domain has at least three
      labels. */
  lemma FoundNameCovers(name: string, domain: string)
    requires NameMatches(name, domain)
    ensures Covers(name, domain) <==> name == domain || |Labels(domain)| >= 3
  {
    WildcardCovers(domain);
  }

  /** A two-label domain is matched by the wildcard below it, which does not cover it. */
  lemma TwoLabelsAreNotCovered()
    ensures NameMatches("*.example.com", "example.com") && !Covers("*.example.com", "example.com")
  {
    var domain := "example" + ['.'] + "com";
    SplitWithoutSeparator("com", '.');
    SplitOfConcat("example", '.', "com");
    assert domain == "example.com";
    assert TrimSuffix(domain, '.') == domain;
    assert |Labels(domain)| == 2;
    WildcardCovers(domain);
    assert Wildcard(domain) == "*.example.com";
  }

  /** Every accepted name contains the root domain, so a server that keeps the names containing the query loses none. */
  lemma MatchContainsRoot(name: string, domain: string)
    requires NameMatches(name, domain)
    ensures Contains(name, ExtractRootDomain(domain))
  {
    var root := ExtractRootDomain(domain);
    if name == Wildcard(domain) {
      assert name[2..] == root;
      assert StartsAt(name, 2, root);
    } else {
      var trimmed := TrimSuffix(domain, '.');
      var parts := Split(trimmed, '.');
      JoinSplit(trimmed, '.');
      var k := if |parts| <= 2 then 0 else |parts[0]| + 1;
      assert trimmed[k..] == root;
      assert domain[k..][..|root|] == root;
      assert StartsAt(domain, k, root);
    }
  }
}
