# Verified model of the Nginx Proxy Manager operator

The operator keeps Kubernetes resources and the hosts and certificates of an Nginx Proxy Manager (NPM) in agreement. This
project models its three hardest parts in Dafny and proves what they guarantee:

* **The ProxyHost lifecycle.** A pass of the controller adopts a remote host by its domains (taking a snapshot of it first),
  creates one, or rewrites the one it has; on deletion it restores, disables or deletes the host and removes the finalizer.
  `Lifecycle` is a state machine over both stores, cut at every remote call and every write to the API server. Any call may be
  refused, may take effect with its answer lost, and the manager may crash between any two steps; users edit resources
  and outsiders edit NPM at any time. `Safety`, `Restoration`, `Ownership` and `Limits` hold the theorems about all its runs.
  `Controller` is the same pass as imperative code: a class over the two stores whose methods are the methods of the source.
  Every method extends a legal run of the state machine, whatever others do between its calls and however they end.
  `Convergence` says what repeating an undisturbed pass does.
* **The forward compiler.** `Cluster`, `Forward`, `Compiler` and `RequestBody` turn a spec and the state of the cluster into a request body;
  `UpstreamText` prints and reads back the nginx upstream blocks in it. `Watch` relates what the compiler reads to the events that
  trigger a pass.
* **Certificates.** `Domains` and `Certificates` model the searches, the reuse loop and the choice of a certificate;
  `CertOwnership` (a state machine) and `CertController` (the code) say who may delete which certificate.

`dafny verify dfyconfig.toml` checks the whole project.

## How to read the contracts

Methods of the source that write to a store are methods with a `modifies` clause. Calls into NPM and the API server end
nondeterministically. Two ghost flags let contracts speak about undisturbed executions: `calm` stays true as long as nobody
else acts and no call fails, `served` as long as no user acts and no call to the API server fails. Safety contracts do
not mention them.

The restoration theorems follow one host that the operator did not make. Its run is `Spared` when nobody else edits this host while
it counts as never written to by the operator: before the first write, and again after a clean-up gave it back. In between, and on
all other hosts, outsiders may add, edit and remove as they like; the resource may be reconciled, crash, leave and come back.

Several natural expectations are false of the code. Each is proved in its limited form, with the exact limit or a
counterexample beside it:

* `domainsMatch` decides permutation only for search lists without duplicates.
* The text hashed into an upstream name determines a list among all lists exactly when the list is empty, or is one target whose
  host name has no `-` directly before a digit. Among lists with one shared port and no `-` in host names it determines every list.
* A wildcard certificate found for a two-label domain does not cover that domain.
* A reused certificate need not serve every domain: a failed lookup does not prevent reuse.
* Two resources may come to own one host when the domains of one are edited before its next pass, or when domain lists have duplicates.
* A snapshot is not the original when an earlier adopting pass died before its status write. The model calls it late: the operator
  had written to the host, and not given it back since, before the lookup of the pass that stored the snapshot.
* A resource whose creating pass died may later adopt the host it made, and then no longer deletes it.
* A bound resource whose host vanished gets a new host but stays bound, so deleting the resource leaves that host behind.
* Deleting a bound resource whose host was enabled when adopted, and has vanished since, panics.
* A pod event reaches a ProxyHost only if its services are named in its own namespace and the main forward names one of them.

Where code and comments disagree the model follows the code: `CertificateId` is documented to override the other certificate
sources, but a reference of lower priority that does not resolve is still an error; the snapshot is documented as taken before
any mutation, but after a crashed adoption it is not; a comment announces a search by domain when the recorded id matches no
host, but the code creates a host instead; a failed creation of a Let's Encrypt certificate is reported as success.

## Assumptions

* NPM never reuses an id, a PUT overwrites exactly the fields in its body (a number may be sent as text), and a POST makes an enabled host.
* There is one active manager with one worker per controller, and reads are current.
* Users create, edit and delete resources; an edit changes the spec, not the status or the finalizers.
* The answer to a search with a query lacks no entry with a name that contains the query; it may hold others.
* The API server rejects an update of an outdated version, keeps a deleted object while it has its finalizer, and lists each object once.
* The xxhash digest is an arbitrary function of its text.

## Model

| member | source | states |
|---|---|---|
| Domains.WildcardCovers | pkg/util/util.go:12-20 | the wildcard over the root domain covers a domain, in the sense of section 6.4.3 of RFC 6125, exactly when the domain has three or more labels |
| Domains.FoundNameCovers | pkg/nginxpm/certificate.go:97-106 | a name both searches accept covers the domain if and only if it is the domain or the domain has at least three labels |
| Domains.TwoLabelsAreNotCovered | pkg/nginxpm/letsencrypt_certificate.go:76-80 | `*.example.com` is accepted for `example.com` and does not cover it |
| Domains.MatchContainsRoot | pkg/nginxpm/letsencrypt_certificate.go:54-59 | every accepted name contains the root domain that is sent as query |
| Npm.CaptureInitialConfiguration | internal/controller/proxyhost/initial_config.go:26-69 | the snapshot holds every configuration field of the host, locations in order, certificate id 0 as absent |
| Npm.BuildRestorationInput | internal/controller/proxyhost/initial_config.go:73-112 | the restoration body is that of the snapshot, without custom fields |
| Npm.RestorationUndoesWrites | internal/controller/proxyhost/initial_config.go:26-112 | restoring a snapshot over any later state of the host brings every configuration field back; the enabled flag and `unscoped_config` stay |
| Npm.CapturedConfiguration | internal/controller/proxyhost/initial_config.go:26-69 | a host has each field of a snapshot exactly when it is configured like the host that was captured |
| Npm.DomainsMatchLoop | pkg/nginxpm/proxy_host.go:285-305 | the nested loops decide: equal lengths and every search domain present |
| Npm.MatchIsPermutation | pkg/nginxpm/proxy_host.go:284-305 | for a search list without duplicates a match is exactly a permutation |
| Npm.MatchIsSymmetric | pkg/nginxpm/proxy_host.go:284-305 | matching is symmetric between duplicate-free lists |
| Npm.MatchDecidesPermutation | pkg/nginxpm/proxy_host.go:284-305 | the match decides permutation for all host lists if and only if the search list has no duplicate |
| RequestBody.BuildProxyHostRequestBody | pkg/nginxpm/proxy_host.go:307-353 | sending the body it builds overwrites exactly the fields of the input, on every host; the custom field is in it exactly when allowed |
| UpstreamText.GenerateNginxUpstreamName | internal/controller/proxy_helpers.go:25-42 | prefix, resource name, namespace and the digest of the concatenated targets, joined by `-` |
| UpstreamText.NamesSeparate | internal/controller/proxy_helpers.go:25-42 | if the digest separates two texts, two target lists of one resource have one name exactly when they have one hashed text |
| UpstreamText.NamesTellTargets | internal/controller/proxy_helpers.go:25-42 | then two lists with one shared port each and no `-` in host names have one name exactly when they are equal |
| UpstreamText.GenerateNginxUpstreamConfig | internal/controller/proxy_helpers.go:57-96 | no hosts give empty results; otherwise the block text of exactly these servers and this keepalive choice |
| UpstreamText.BlockTextIs | internal/controller/proxy_helpers.go:57-96 | the text of every block, character by character: balancing lines by the keepalive choice, one server line for each target in order |
| UpstreamText.PrintParse | internal/controller/proxy_helpers.go:57-96 | printed blocks joined by newlines read back as exactly the same blocks in order: name, keepalive flag and server list |
| UpstreamText.HashTextInjective | internal/controller/proxy_helpers.go:29-32 | among lists with one shared port and no `-` in host names the hashed text determines the list, port included |
| UpstreamText.HashTextCollides | internal/controller/proxy_helpers.go:29-32 | two different general target lists with the same hashed text |
| UpstreamText.HashTextDetermines | internal/controller/proxy_helpers.go:29-32 | the exact limit: the hashed text determines a list among all lists if and only if the list is empty or one target whose host name has no `-` directly before a digit |
| Cluster.MatchPort | internal/controller/proxyhost/proxy_forward.go:215-230 | the first port whose lower-cased name contains the scheme, where http does not accept https |
| Cluster.ChoosePort | internal/controller/proxyhost/proxy_forward.go:232-253 | the named port's number if it is found and not 0, then the given number, then the port of the scheme (https for an https forward, else http before https), then the first port; the numbers are `port` fields for a plain service and `nodePort` fields for a NodePort one |
| Cluster.ChosenPortMeans | internal/controller/proxyhost/proxy_forward.go:232-253 | what that order promises a caller, for every service and forward |
| Cluster.ServicePortMeans | internal/controller/proxyhost/proxy_forward.go:203-256 | a plain service gives the given number or the `port` field of one of its ports: that of the first port with the asked name, and that of its only port when nothing is given |
| Cluster.NodePortNumberMeans | internal/controller/proxyhost/proxy_forward.go:285-321 | the same for a NodePort service and the `nodePort` field |
| Cluster.SchemeNames | internal/controller/proxyhost/proxy_forward.go:215-230 | which port names fit http and https, by the pieces of the lower-cased name |
| Cluster.GetPodsHostIPs | internal/controller/proxy_helpers.go:98-133 | the loop computes the node addresses of running pods on known nodes |
| Cluster.HostIps | internal/controller/proxy_helpers.go:98-133 | these addresses are distinct and are exactly the first internal addresses of nodes that run a pod |
| Cluster.FirstInternalMeans | internal/controller/proxy_helpers.go:98-133 | the address of a node is its first internal one, or empty if it has none |
| Compiler.ForwardWhenNodePortType | internal/controller/proxyhost/proxy_forward.go:265-345 | node port, first node address or cluster address, and the block over all node addresses |
| Compiler.ForwardWhenNotNodePortType | internal/controller/proxyhost/proxy_forward.go:203-256 | empty for a NodePort service; otherwise the address and port to which the forward resolves in every cluster that holds the service, the address being the cluster address or a load balancer ingress and the port a good choice |
| Compiler.MakeForward | internal/controller/proxyhost/proxy_forward.go:29-201 | succeeds exactly when the target resolves to a usable address; writes variable and block into the main forward for a location, into itself otherwise |
| Compiler.ConstructCustomLocation | internal/controller/proxyhost/proxyhost_controller.go:590-629 | the in-place loop computes the fold of all locations over the main forward, or fails exactly when that fails |
| Compiler.MergeNginxUpstreamConfigs | internal/controller/proxyhost/proxy_forward.go:361-368 | the text joins every block once, in some order |
| Forward.MergedTextParses | internal/controller/proxyhost/proxy_forward.go:361-368 | in whatever order the map was walked, the text reads back as exactly its blocks, each once |
| Forward.ClosedReferences | internal/controller/proxyhost/proxy_forward.go:80-94 | every generated name a body uses has a block in it; it is this forward's block if and only if the last forward of that name generates the same one |
| Forward.BlocksAreOwn | internal/controller/proxyhost/proxy_forward.go:80-94 | where digests do not collide, every forward keeps its own block if and only if forwards with one hashed text have one target list and one keepalive choice |
| Forward.NodeBlocksAreOwn | internal/controller/proxyhost/proxy_forward.go:80-94 | so it is when every generated list has one port and no `-` in host names and keepalive agrees |
| Forward.OnlyGeneratedBlocks | internal/controller/proxyhost/proxy_forward.go:155-170 | a body holds no block that no forward generated |
| Forward.ReferencesAreDefined | internal/controller/proxyhost/proxyhost_controller.go:472-512 | a generated name used in a body is defined by the body's `unscoped_config` text as a reader sees it |
| Forward.UnsupportedIsPlain | internal/controller/proxyhost/proxy_forward.go:80-94 | without support there is no block and every forward names its plain host |
| Forward.CompilesExactly | internal/controller/proxyhost/proxyhost_controller.go:416-483 | a spec compiles exactly when each of its forwards resolves to a usable target |
| Forward.CompiledServes | internal/controller/proxyhost/proxyhost_controller.go:472-512 | field by field: scheme, host and port of the main target, each custom location with its own path, host, port and text, and one `set` line for each named variable before the text of the spec |
| Forward.SupportOnlyHelps | internal/controller/proxyhost/proxyhost_controller.go:414-434 | what compiles without support compiles with it; the converse holds exactly when every service gives an address by itself |
| Forward.ExplicitHostsMean | internal/controller/proxyhost/proxy_forward.go:141-196 | explicit hosts decide a forward alone: the first is the plain target, two or more make a block of all of them in order |
| Forward.PlainServiceMeans | internal/controller/proxyhost/proxy_forward.go:203-256 | a service of another type than NodePort decides its forward alone: the same target in every cluster, the cluster address or the first load balancer ingress, a `port` field or the given number, no block, usable with and without support alike |
| Forward.NodePortMeans | internal/controller/proxyhost/proxy_forward.go:265-345 | the block of a NodePort service lists exactly the nodes that run a pod selected in the service's namespace, each once, on one `nodePort` field or the given number; without such a node there is no block and the cluster address is used |
| Lifecycle.RunKeepsInv | internal/controller/proxyhost/proxyhost_controller.go:110-586 | claims, finalizers, local copies and plans stay consistent through every run with crashes, failed calls, spec edits and outside edits |
| Lifecycle.RemoteStepEffect | internal/controller/proxyhost/proxyhost_controller.go:203-250 | a remote step changes one host, makes one, or removes one, and touches no resource |
| Safety.UnboundIdIsOwnPost | internal/controller/proxyhost/proxyhost_controller.go:538-585 | in every run an id with Bound = false was returned by the operator's own POST for that resource |
| Safety.UnboundIdIsExclusive | internal/controller/proxyhost/proxyhost_controller.go:241-249 | at most one resource holds an id unbound |
| Safety.DeleteHitsOwnHost | internal/controller/proxyhost/proxyhost_controller.go:241-249 | a DELETE only ever names a host made for the resource being deleted |
| Safety.ForeignHostsSurvive | internal/controller/proxyhost/proxyhost_controller.go:369-406 | in every run in which no outsider removes that very host, a host the operator did not make stays, although the lookup error is dropped |
| Safety.BoundMeansSnapshot | internal/controller/proxyhost/initial_config.go:116-131 | Bound holds exactly when a snapshot is stored, and implies an id |
| Safety.DisableUnreachable | internal/controller/proxyhost/proxyhost_controller.go:233-240 | the branch that disables a bound host without a snapshot is never taken |
| Safety.SnapshotNeverChanges | internal/controller/proxyhost/proxyhost_controller.go:576-585 | a stored snapshot never changes and Bound never reverts while the resource lives |
| Safety.RemoteWritesAreGuarded | internal/controller/proxyhost/proxyhost_controller.go:131-137 | every remote write happens while the resource is in the cluster with its finalizer |
| Safety.LeavesAfterCleanup | internal/controller/proxyhost/proxyhost_controller.go:153-180 | a resource with an id leaves the cluster only after a clean-up attempt or a failed client initialisation |
| Restoration.RunKeeps | internal/controller/proxyhost/proxyhost_controller.go:393-412 | in every run that spares a host, every snapshot of it that was not taken late shows the host as it was, whatever others do to it while it is bound and to other hosts at any time |
| Restoration.LateIsDecidedAtAdoption | internal/controller/proxyhost/proxyhost_controller.go:393-406 | a snapshot is late exactly when the pass that stored it had looked up a host marked as already written to; no other action decides it |
| Restoration.LookupMarksTouchedHosts | internal/controller/proxyhost/proxyhost_controller.go:393-406 | that mark is set exactly when the operator had made the host, or had written to it since it was last given back |
| Restoration.DeletionRestoresOriginal | internal/controller/proxyhost/proxyhost_controller.go:211-232 | adopt, reconcile any number of times, delete, with others editing the host while it is bound: every configuration field is the original and an enabled host is enabled; full equality exactly when enabled flag, `unscoped_config` and online report agree; the host counts as never written to again, so a later adoption is covered too |
| Restoration.DeletionRestoresUnheld | internal/controller/proxyhost/proxyhost_controller.go:211-232 | the same from any point of any run at which the operator has no hold on the host: deletion gives back the host of that point, whoever added or edited it before |
| Ownership.LiveResourcesShareNothing | internal/controller/proxyhost/proxyhost_controller.go:322-406 | with duplicate-free domains that are never edited and no outsiders, live resources with ids have distinct ids and disjoint domains, across crashes |
| Limits.EditedDomainsShareAHost | internal/controller/proxyhost/proxyhost_controller.go:322-361 | for any two different domains, a run without outsiders in which edited domains let two resources own one host |
| Limits.DuplicateDomainsShareAHost | internal/controller/proxyhost/proxyhost_controller.go:322-361 | for any two different domains, a run without outsiders or edits in which domain lists with duplicates let two resources own one host |
| Limits.CrashedAdoptionIsLate | internal/controller/proxyhost/proxyhost_controller.go:400-412 | a run in which a crash before the status write makes the snapshot differ from the original |
| Limits.CrashedCreationIsAdopted | internal/controller/proxyhost/proxyhost_controller.go:553-585 | a run in which a crash after a creation makes the resource bind its own host |
| StatusWrites.RejectedAttemptsWriteNothing | internal/controller/helpers.go:158-183 | status attempts that were all rejected leave both stores as the others alone would have left them |
| PassSteps.Unclaimed | internal/controller/proxyhost/proxyhost_controller.go:338-360 | the loops decide whether no other resource has one of the domains |
| PassSteps.FirstWithDomains | pkg/nginxpm/proxy_host.go:180-188 | the loop returns a listed host with matching domains, and nothing only when there is none |
| PassSteps.MatchAnswersQuery | pkg/nginxpm/proxy_host.go:167-189 | the query for the first domain loses no host that matches all of them |
| PassSteps.BuildBody | internal/controller/proxyhost/proxyhost_controller.go:414-536 | succeeds exactly when forwards, certificate and access list resolve; writing the body to any enabled host then gives it each field the spec asks for |
| PassSteps.RecreatedHostIsLeftBehind | internal/controller/proxyhost/proxyhost_controller.go:377-391 | a bound resource that had to create a new host stays bound, so its clean-up rewrites that host and leaves it |
| PassSteps.CleanedUpMeans | internal/controller/proxyhost/proxyhost_controller.go:211-250 | a clean-up takes an own host away, gives an adopted one each field of its snapshot and enables it if it was, and touches nothing else |
| Controller.ProxyHostReconciler.UpdateStatus | internal/controller/helpers.go:155-183 | on success the mutation was applied once to the version the server had just before, on failure without a lost answer nothing was written, at most five updates are sent |
| Controller.ProxyHostReconciler.AddFinalizer | internal/controller/helpers.go:137-150 | the finalizer is stored unless present; a failure ends the pass |
| Controller.ProxyHostReconciler.RemoveFinalizer | internal/controller/helpers.go:121-134 | the object disappears, or the update failed; an unchanged version and answered calls always remove it |
| Controller.ProxyHostReconciler.FindProxyHostByID | pkg/nginxpm/proxy_host.go:192-205 | the host with that id, or nothing exactly when there is none |
| Controller.ProxyHostReconciler.FindProxyHostByDomain | pkg/nginxpm/proxy_host.go:167-189 | sends the first domain as query and still finds a host with matching domains, or nothing exactly when the whole store has none; an error for no domains |
| Controller.ProxyHostReconciler.EnableProxyHost | pkg/nginxpm/proxy_host.go:142-164 | undisturbed, it panics exactly when the host is gone and otherwise enables it |
| Controller.ProxyHostReconciler.UpdateProxyHost | pkg/nginxpm/proxy_host.go:235-260 | one PUT step of the run; undisturbed it succeeds exactly when the host exists and overwrites it |
| Controller.ProxyHostReconciler.CreateProxyHost | pkg/nginxpm/proxy_host.go:208-232 | one POST step of the run; undisturbed it adds the host under the next id |
| Controller.ProxyHostReconciler.DeleteProxyHost | pkg/nginxpm/proxy_host.go:92-114 | undisturbed, exactly this host is gone |
| Controller.ProxyHostReconciler.LocateHost | internal/controller/proxyhost/proxyhost_controller.go:369-406 | lookup by id or by domain, binding and capture as the plan of the pass records them |
| Controller.ProxyHostReconciler.CreateOrUpdateProxyHost | internal/controller/proxyhost/proxyhost_controller.go:363-586 | undisturbed, one step of `Passed`, or an error exactly for a body that does not resolve, with the resource unchanged |
| Controller.ProxyHostReconciler.DomainsShouldBeUnique | internal/controller/proxyhost/proxyhost_controller.go:322-361 | succeeds exactly when no other resource uses one of the domains |
| Controller.ProxyHostReconciler.CleanUp | internal/controller/proxyhost/proxyhost_controller.go:208-250 | undisturbed, a recorded host with Bound = false is gone and all others are untouched; a bound one has each field of its snapshot again; panics exactly when a host to re-enable has vanished |
| Controller.ProxyHostReconciler.Finalize | internal/controller/proxyhost/proxyhost_controller.go:203-273 | whatever NPM answers, if the API server serves the pass the object is removed, unless it panics over a vanished host |
| Controller.ProxyHostReconciler.Reconcile | internal/controller/proxyhost/proxyhost_controller.go:110-320 | refines the state machine; undisturbed, a live pass leaves its host configured field by field as the spec asks, the status naming host, certificate and online report, and every other host untouched; a deletion pass deletes an own host, gives an adopted one back and removes the object |
| Controller.ProxyHostReconciler.ClaimsAreSound | internal/controller/proxyhost/proxyhost_controller.go:110-320 | at every point of the code the stored claims are sound: bound with a snapshot, guarded by the finalizer, unbound ids own |
| Controller.ProxyHostReconciler.CleanupGivesBack | internal/controller/proxyhost/proxyhost_controller.go:211-232 | at any point of code that spared an adopted host, the clean-up gives it back with the configuration it had before the controller started, if its snapshot was not taken late |
| Convergence.BodyIsDetermined | internal/controller/proxyhost/proxyhost_controller.go:485-536 | spec, surroundings and support determine the body up to the order of upstream blocks |
| Convergence.PassConfigures | internal/controller/proxyhost/proxyhost_controller.go:485-552 | the host a pass leaves has the domains, flags, ssl settings, certificate or 0, access list and forwards of the spec and is enabled; every other host is untouched |
| Convergence.PassDefinesNames | internal/controller/proxyhost/proxyhost_controller.go:500-528 | a host rewritten with blocks defines, for a reader of its `unscoped_config`, every name its forwards use |
| Convergence.PassTakesHost | internal/controller/proxyhost/proxyhost_controller.go:369-406 | a recorded host that exists is kept; only a binding resource without an id takes an existing host, one with its domains, and records its configuration; otherwise a new host is made |
| Convergence.NextPassIsSteady | internal/controller/proxyhost/proxyhost_controller.go:538-552 | a pass that found a host is followed by one that sends the same body and changes at most the order of blocks |
| Convergence.PassesConverge | internal/controller/proxyhost/proxyhost_controller.go:363-586 | after at most two successful passes every later one sends the same body, creates nothing and leaves host and claim as they are |
| Convergence.CreationIsPlain | internal/controller/proxyhost/proxyhost_controller.go:414-425 | a creation sends no blocks and the plain host of the main forward, because support is not yet known |
| Convergence.CreationCanBeRepeated | internal/controller/proxyhost/proxyhost_controller.go:500-528 | what could be sent without support can also be sent with it |
| Certificates.Search | pkg/nginxpm/certificate.go:97-108 | the nested loops return the first certificate that serves the domain, from Let's Encrypt unless any provider will do, and nothing only if there is none |
| Certificates.QueryHidesNothing | pkg/nginxpm/letsencrypt_certificate.go:53-88 | searching the answer to the root-domain query is searching the whole list |
| Certificates.AllMatched | pkg/nginxpm/letsencrypt_certificate.go:122-140 | if every domain has a match, reuse happens exactly when all matches are one certificate, which then serves all domains |
| Certificates.ReuseServesAll | pkg/nginxpm/letsencrypt_certificate.go:122-140 | a reused certificate serves all domains if and only if every lookup succeeded |
| Certificates.ReuseMayMissTheFirst | pkg/nginxpm/letsencrypt_certificate.go:122-140 | a certificate that serves only the second of two domains is reused for both |
| Certificates.AnswersAgree | internal/controller/proxyhost/proxyhost_controller.go:716-770 | over any number of passes with any failures every answer names the same certificate |
| Certificates.AtMostOneCreation | internal/controller/proxyhost/proxyhost_controller.go:742-756 | at most one certificate is ever created, lost answers included |
| Certificates.AnswerServesFirst | internal/controller/proxyhost/proxyhost_controller.go:732-756 | the chosen certificate serves the first domain, except on the reuse branch, where it never does |
| Certificates.CertificateClient.FindReusable | pkg/nginxpm/letsencrypt_certificate.go:120-140 | the loop returns the last lookup unless it failed or two neighbouring lookups disagree |
| Certificates.CertificateClient.CreateLetEncryptCertificate | pkg/nginxpm/letsencrypt_certificate.go:119-179 | a reused certificate changes nothing and is bound; otherwise one certificate comes on top of the earlier ones, with a new id of its own, that names and serves every domain, even if its answer is lost |
| Certificates.CertificateClient.FindOrCreateCertificate | internal/controller/proxyhost/proxyhost_controller.go:716-770 | one step of the choice relation: nothing changes if some certificate of any provider serves the first domain, otherwise a listed one is reused or a new one is issued for all domains; it succeeds whenever all calls are answered and a domain is given |
| Certificates.CertificateClient.RetrieveCertificate | internal/controller/certificate.go:27-61 | the id of the last given source decides alone, giving the listed certificate with that id or nothing if there is none, but every given source must resolve |
| Certificates.CertificateClient.MakeCertificate | internal/controller/proxyhost/proxyhost_controller.go:679-712 | the automatic request is made only when no reference gave a certificate |
| CertOwnership.RunKeepsInv | internal/controller/letsencryptcertificate/letsencryptcertificate_controller.go:79-307 | claims and finalizers stay consistent through every run with crashes and failed calls; ids are never given twice and the record of who made a certificate never changes |
| CertOwnership.UnboundIdIsOwnPost | internal/controller/letsencryptcertificate/letsencryptcertificate_controller.go:262-298 | an id with Bound = false was returned by the operator's own POST for that resource |
| CertOwnership.UnboundIdIsExclusive | internal/controller/letsencryptcertificate/letsencryptcertificate_controller.go:293-298 | at most one resource holds a certificate unbound |
| CertOwnership.DeletionHitsOwnCertificate | internal/controller/letsencryptcertificate/letsencryptcertificate_controller.go:159-181 | a finalizer deletes only a certificate made for its own resource |
| CertOwnership.ForeignCertificatesSurvive | internal/controller/letsencryptcertificate/letsencryptcertificate_controller.go:163-172 | in every run in which no outsider removes that very certificate, a certificate the operator did not make stays |
| CertController.ObtainsMeans | internal/controller/letsencryptcertificate/letsencryptcertificate_controller.go:262-298 | a new certificate names and serves all domains and stands beside the earlier ones; a reused one was listed before |
| CertController.LetsEncryptCertificateReconciler.FindReusable | pkg/nginxpm/letsencrypt_certificate.go:120-140 | the reuse loop with certificates changing under it; undisturbed its closed form |
| CertController.LetsEncryptCertificateReconciler.CreateCertificate | internal/controller/letsencryptcertificate/letsencryptcertificate_controller.go:214-307 | undisturbed, a resource without an id records a reused certificate as bound or a new one as its own; a recorded id is only looked up |
| CertController.LetsEncryptCertificateReconciler.Finalize | internal/controller/letsencryptcertificate/letsencryptcertificate_controller.go:157-181 | undisturbed, exactly the certificates of an unbound id are gone, each other one is kept, and the object is gone |
| CertController.LetsEncryptCertificateReconciler.Reconcile | internal/controller/letsencryptcertificate/letsencryptcertificate_controller.go:79-212 | refines the state machine; undisturbed, a resource without an id records a reused certificate as bound or one issued for all its domains as its own, and a deletion pass deletes exactly its own |
| Watch.LocationIndex | internal/controller/proxyhost/proxyhost_controller.go:910-934 | the service names of the custom locations, each once |
| Watch.FindServicesForProxyHost | internal/controller/proxyhost/proxyhost_controller.go:1006-1033 | a Service event enqueues, each exactly once, precisely the ProxyHosts that name a service of that name |
| Watch.ServiceWatchIsComplete | internal/controller/proxyhost/proxy_forward.go:49-64 | a Service that does not enqueue a ProxyHost has no influence on what that ProxyHost compiles to |
| Watch.FindProxyHostsForPod | internal/controller/proxyhost/proxyhost_controller.go:1035-1111 | the loops enqueue, each once, the ProxyHosts whose main forward names an existing service of their namespace when it or a location's service selects the pod |
| Watch.PodWatchIsCompleteExactly | internal/controller/proxyhost/proxyhost_controller.go:1049-1107 | every pod that concerns a ProxyHost enqueues it, for any services, if and only if all services it reads are named in its namespace and the main forward names one of them |
| Watch.DeletedPodIsIgnored | internal/controller/proxy_helpers.go:136-147 | a pod being deleted enqueues nothing |
| Watch.BadlyWatched | internal/controller/proxyhost/proxyhost_controller.go:1050-1063 | a service in another namespace, or only in a location, leaves a ProxyHost unwatched |

## Left out

- HTTP, JSON and headers of the NPM client: its operations are methods over the remote store that may fail; the `meta` entry of a request is not modelled.
- controller-runtime, caches, leader election and requeue times: replaced by the assumptions above; stale reads are not modelled.
- Conditions, events, logging and transition times: one flag says whether an object has conditions, nothing else depends on them.
- Token lookup and client initialisation: a parameter says whether there is a client.
- Certificate and access list of a ProxyHost pass: parameters of the pass; the certificate choice is proved in `Certificates`, and extractDomainsWithoutPorts is not part of this model.
- Finalizers of other controllers on the same object: an object whose finalizer is removed disappears.
- Read errors of the API server while resolving services, pods and nodes: a failed read there is modelled as an absent object.
- DNS challenge credentials: a parameter says whether they could be read.
- Stream, AccessList, CustomCertificate and Token controllers: they create, update and delete without adoption or snapshot, which would only repeat weaker claims.
- nginx's own reading of the configuration beyond blocks, directives and words: comments, quotes and IPv6 brackets are not part of this model.
- Lifecycle.RunKeepsInv: starts from resources without status, so resources written by older releases, bound without a snapshot, are not covered.
- Convergence.PassesConverge: speaks of undisturbed successful passes; between them anything but the resource and its own host may change.
- Watch.FindServicesForProxyHost: index lookups compare the service name in all namespaces, as the source does, so some enqueued ProxyHosts name a service of that name elsewhere.
