/** The body of a proxy host request as a map of fields (pkg/nginxpm/proxy_host.go:307-353), and what a PUT of such a
    map does to a stored host: it overwrites exactly the fields that the map has. */
module RequestBody {
  import opened Text
  import opened Npm

  /** The keys of the body; `meta` carries nothing the host model keeps. */
  datatype Field =
    | DomainNames | ForwardHost | ForwardScheme | ForwardPort | BlockExploits | AllowWebsocketUpgrade
    | AccessListId | CertificateId | SslForced | Http2Support | HstsEnabled | HstsSubdomains
    | AdvancedConfig | Locations | CachingEnabled | UnscopedConfig

  datatype Value =
    | Word(text: string) | Number(number: int) | Flag(flag: bool)
    | Words(texts: seq<string>) | Places(places: seq<Location>)

  type Body = map<Field, Value>

  /** A custom field, sent only when it is allowed. */
  datatype Custom = Custom(field: Field, value: Value, allowed: bool)

  // ---------------------------------------------------------------- reading a body

  function WordOf(v: Value, otherwise: string): string { if v.Word? then v.text else otherwise }

  /** A number may also be sent as its text. */
  function NumberOf(v: Value, otherwise: int): int {
    if v.Number? then v.number else if v.Word? && AllDigits(v.text) then ParseDecimal(v.text) else otherwise
  }

  function FlagOf(v: Value, otherwise: bool): bool { if v.Flag? then v.flag else otherwise }

  function WordAt(b: Body, f: Field, kept: string): string { if f in b then WordOf(b[f], kept) else kept }
  function NumberAt(b: Body, f: Field, kept: int): int { if f in b then NumberOf(b[f], kept) else kept }
  function FlagAt(b: Body, f: Field, kept: bool): bool { if f in b then FlagOf(b[f], kept) else kept }

  function OverwriteSslFlags(h: Host, b: Body): Host {
    h.(sslForced := FlagAt(b, SslForced, h.sslForced),
       http2Support := FlagAt(b, Http2Support, h.http2Support))
  }

  function OverwriteHstsFlags(h: Host, b: Body): Host {
    h.(hstsEnabled := FlagAt(b, HstsEnabled, h.hstsEnabled),
       hstsSubdomains := FlagAt(b, HstsSubdomains, h.hstsSubdomains))
  }

  function OverwriteHostFlags(h: Host, b: Body): Host {
    h.(cachingEnabled := FlagAt(b, CachingEnabled, h.cachingEnabled),
       blockExploits := FlagAt(b, BlockExploits, h.blockExploits),
       allowWebsocketUpgrade := FlagAt(b, AllowWebsocketUpgrade, h.allowWebsocketUpgrade))
  }

  function OverwriteScalars(h: Host, b: Body): Host {
    h.(forwardHost := WordAt(b, ForwardHost, h.forwardHost),
       forwardPort := NumberAt(b, ForwardPort, h.forwardPort),
       forwardScheme := WordAt(b, ForwardScheme, h.forwardScheme),
       accessListId := NumberAt(b, AccessListId, h.accessListId),
       certificateId := NumberAt(b, CertificateId, h.certificateId),
       advancedConfig := WordAt(b, AdvancedConfig, h.advancedConfig))
  }

  function OverwriteLists(h: Host, b: Body): Host {
    h.(domainNames := if DomainNames in b && b[DomainNames].Words? then b[DomainNames].texts else h.domainNames,
       locations := if Locations in b && b[Locations].Places? then b[Locations].places else h.locations,
       unscoped := if UnscopedConfig in b && b[UnscopedConfig].Word? then Some(b[UnscopedConfig].text) else h.unscoped)
  }

  /** The server's side: fields of the body replace fields of the host, all others stay. */
  function Overwrite(h: Host, b: Body): Host {
    OverwriteHstsFlags(OverwriteSslFlags(OverwriteHostFlags(OverwriteScalars(OverwriteLists(h, b), b), b), b), b)
  }

  // ---------------------------------------------------------------- building a body

  /** The entry every body has for a field other than the custom one. */
  function Entry(input: RequestInput, f: Field): Value
    requires f != UnscopedConfig
  {
    match f
    case DomainNames => Words(input.domainNames)
    case ForwardHost => Word(input.forwardHost)
    case ForwardScheme => Word(input.forwardScheme)
    case ForwardPort => Number(input.forwardPort)
    case BlockExploits => Flag(input.blockExploits)
    case AllowWebsocketUpgrade => Flag(input.allowWebsocketUpgrade)
    case AccessListId => Word("0")
    case CertificateId => Number(CertificateKey(input.certificateId))
    case SslForced => Flag(input.sslForced)
    case Http2Support => Flag(input.http2Support)
    case HstsEnabled => Flag(input.hstsEnabled)
    case AdvancedConfig => Word(input.advancedConfig)
    case Locations => Places(input.locations)
    case CachingEnabled => Flag(input.cachingEnabled)
    case HstsSubdomains => Flag(input.hstsSubdomains)
  }

  function Fixed(input: RequestInput): Body {
    map f: Field | f != UnscopedConfig :: Entry(input, f)
  }

  /** The one custom field, allowed exactly when the input carries it. */
  function Customs(input: RequestInput, unused: string): seq<Custom> {
    [Custom(UnscopedConfig, Word(if input.unscoped.Some? then input.unscoped.value else unused), input.unscoped.Some?)]
  }

  /** buildProxyHostRequestBody: fixed entries, the access list unless it is 0, and the allowed custom fields. A PUT
      of the result does to a host exactly what module Npm says. */
  method BuildProxyHostRequestBody(input: RequestInput, unused: string) returns (body: Body)
    ensures forall h: Host :: Overwrite(h, body) == Put(h, input)
    ensures UnscopedConfig in body <==> input.unscoped.Some?
  {
    hide Overwrite, Put;
    body := Fixed(input);
    if input.accessListId != 0 {
      body := body[AccessListId := Number(input.accessListId)];
    }
    var customs := Customs(input, unused);
    for i := 0 to |customs|
      invariant body == (if i == 1 && customs[0].allowed then WithAccess(input)[UnscopedConfig := customs[0].value]
                         else WithAccess(input))
    {
      if customs[i].allowed {
        body := body[customs[i].field := customs[i].value];
      }
    }
    CustomEntry(input);
    forall h: Host ensures Overwrite(h, body) == Put(h, input) {
      PutIsOverwrite(h, input);
    }
  }

  function WithAccess(input: RequestInput): Body {
    if input.accessListId != 0 then Fixed(input)[AccessListId := Number(input.accessListId)] else Fixed(input)
  }

  /** The body of an input, custom field included. */
  function BodyOf(input: RequestInput): Body {
    if input.unscoped.Some? then WithAccess(input)[UnscopedConfig := Word(input.unscoped.value)] else WithAccess(input)
  }

  lemma Entries(input: RequestInput, f: Field)
    requires f != UnscopedConfig && f != AccessListId
    ensures f in BodyOf(input) && BodyOf(input)[f] == Entry(input, f)
  {
    hide Entry;
  }

  lemma AccessEntry(input: RequestInput, kept: int)
    ensures NumberAt(BodyOf(input), AccessListId, kept) == input.accessListId
  {
    assert AllDigits("0") && ParseDecimal("0") == 0 by { assert "0"[..0] == ""; }
  }

  lemma CustomEntry(input: RequestInput)
    ensures UnscopedConfig in BodyOf(input) <==> input.unscoped.Some?
    ensures input.unscoped.Some? ==> BodyOf(input)[UnscopedConfig] == Word(input.unscoped.value)
  {
    hide Entry;
  }

  lemma WordEntry(input: RequestInput, f: Field, kept: string)
    requires f != UnscopedConfig && f != AccessListId && Entry(input, f).Word?
    ensures WordAt(BodyOf(input), f, kept) == Entry(input, f).text
  {
    Entries(input, f);
    hide BodyOf, Entry;
  }

  lemma NumberEntry(input: RequestInput, f: Field, kept: int)
    requires f != UnscopedConfig && f != AccessListId && Entry(input, f).Number?
    ensures NumberAt(BodyOf(input), f, kept) == Entry(input, f).number
  {
    Entries(input, f);
    hide BodyOf, Entry;
  }

  lemma FlagEntry(input: RequestInput, f: Field, kept: bool, flag: bool)
    requires f != UnscopedConfig && f != AccessListId && Entry(input, f) == Flag(flag)
    ensures FlagAt(BodyOf(input), f, kept) == flag
  {
    Entries(input, f);
    hide BodyOf, Entry;
  }

  lemma SslFlagsOverwritten(h: Host, input: RequestInput)
    ensures OverwriteSslFlags(h, BodyOf(input))
         == h.(sslForced := input.sslForced, http2Support := input.http2Support)
  {
    hide BodyOf, FlagAt;
    FlagEntry(input, SslForced, h.sslForced, input.sslForced);
    FlagEntry(input, Http2Support, h.http2Support, input.http2Support);
  }

  lemma HstsFlagsOverwritten(h: Host, input: RequestInput)
    ensures OverwriteHstsFlags(h, BodyOf(input))
            == h.(hstsEnabled := input.hstsEnabled, hstsSubdomains := input.hstsSubdomains)
  {
    hide BodyOf, FlagAt;
    FlagEntry(input, HstsEnabled, h.hstsEnabled, input.hstsEnabled);
    FlagEntry(input, HstsSubdomains, h.hstsSubdomains, input.hstsSubdomains);
  }

  lemma HostFlagsOverwritten(h: Host, input: RequestInput)
    ensures OverwriteHostFlags(h, BodyOf(input))
         == h.(cachingEnabled := input.cachingEnabled, blockExploits := input.blockExploits,
               allowWebsocketUpgrade := input.allowWebsocketUpgrade)
  {
    hide BodyOf, FlagAt;
    FlagEntry(input, CachingEnabled, h.cachingEnabled, input.cachingEnabled);
    FlagEntry(input, BlockExploits, h.blockExploits, input.blockExploits);
    FlagEntry(input, AllowWebsocketUpgrade, h.allowWebsocketUpgrade, input.allowWebsocketUpgrade);
  }

  lemma ScalarsOverwritten(h: Host, input: RequestInput)
    ensures OverwriteScalars(h, BodyOf(input))
         == h.(forwardHost := input.forwardHost, forwardPort := input.forwardPort, forwardScheme := input.forwardScheme,
               accessListId := input.accessListId, certificateId := CertificateKey(input.certificateId),
               advancedConfig := input.advancedConfig)
  {
    hide BodyOf, WordAt, NumberAt;
    AccessEntry(input, h.accessListId);
    WordEntry(input, ForwardHost, h.forwardHost);
    WordEntry(input, ForwardScheme, h.forwardScheme);
    WordEntry(input, AdvancedConfig, h.advancedConfig);
    NumberEntry(input, ForwardPort, h.forwardPort);
    NumberEntry(input, CertificateId, h.certificateId);
  }

  lemma ListsOverwritten(h: Host, input: RequestInput)
    ensures OverwriteLists(h, BodyOf(input))
         == h.(domainNames := input.domainNames, locations := input.locations,
               unscoped := if input.unscoped.Some? then input.unscoped else h.unscoped)
  {
    hide BodyOf;
    Entries(input, DomainNames);
    Entries(input, Locations);
    CustomEntry(input);
  }

  /** Sending the body of an input does to a host what module Npm says a PUT does. */
  lemma PutIsOverwrite(h: Host, input: RequestInput)
    ensures Overwrite(h, BodyOf(input)) == Put(h, input)
  {
    hide BodyOf, OverwriteSslFlags, OverwriteHstsFlags, OverwriteHostFlags, OverwriteScalars, OverwriteLists;
    hide CertificateKey;
    ListsOverwritten(h, input);
    var lists := OverwriteLists(h, BodyOf(input));
    ScalarsOverwritten(lists, input);
    var scalars := OverwriteScalars(lists, BodyOf(input));
    HostFlagsOverwritten(scalars, input);
    var flags := OverwriteHostFlags(scalars, BodyOf(input));
    SslFlagsOverwritten(flags, input);
    HstsFlagsOverwritten(OverwriteSslFlags(flags, BodyOf(input)), input);
  }
}
