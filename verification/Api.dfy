/** The Kubernetes objects the ProxyHost controller reads and writes (api/v1/proxyhost_types.go). */
module Api {
  import opened Text
  import opened Npm
  import opened UpstreamText

  datatype Key = Key(namespace: string, name: string)

  datatype ForwardService = ForwardService(
    name: string, namespace: Option<string>, port: Option<nat>, portName: Option<string>)

  datatype ForwardSpec = ForwardSpec(
    scheme: string, service: Option<ForwardService>, nginxKeepalive: bool, nginxVariable: string,
    hosts: seq<UpstreamHost>, path: string, advancedConfig: string)

  datatype CustomLocation = CustomLocation(locationPath: string, forward: ForwardSpec)

  datatype SslSpec = SslSpec(sslForced: bool, http2Support: bool, hstsEnabled: bool, hstsSubdomains: bool)

  datatype ProxyHostSpec = ProxyHostSpec(
    domainNames: seq<string>, bindExisting: bool,
    cachingEnabled: bool, blockExploits: bool, websocketSupport: bool,
    ssl: Option<SslSpec>, forward: ForwardSpec, customLocations: seq<CustomLocation>)

  datatype Status = Status(
    id: Option<nat>, certificateId: Option<int>, bound: bool, online: bool,
    snapshot: Option<InitialConfiguration>, conditions: bool)

  const EMPTY_STATUS := Status(None, None, false, false, None, false)

  /** `version` is the resource version that optimistic updates compare. */
  datatype Resource = Resource(
    spec: ProxyHostSpec, status: Status, finalizer: bool, deleting: bool, version: nat)

  /** The part of a status that decides what later passes do. */
  datatype Claim = Claim(id: Option<nat>, bound: bool, snapshot: Option<InitialConfiguration>)

  function ClaimOf(s: Status): Claim {
    Claim(s.id, s.bound, s.snapshot)
  }

  /** ShouldCaptureInitialConfig, once a host was found. */
  predicate ShouldCaptureInitialConfig(r: Resource) {
    r.spec.bindExisting && r.status.snapshot.None?
  }

  predicate ShouldRestoreInitialConfig(s: Status) {
    s.bound && s.snapshot.Some?
  }
}
