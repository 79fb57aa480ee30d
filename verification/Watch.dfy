/** Which ProxyHosts an event on a Service or a Pod enqueues, and which ones it concerns
    (internal/controller/proxyhost/proxyhost_controller.go:884-936, 979-1111). */
module Watch {
  import opened Text
  import opened Api
  import opened UpstreamText
  import opened Cluster
  import opened Forward

  /** A ProxyHost as the event mappings see it. */
  datatype Watched = Watched(key: Key, spec: ProxyHostSpec)

  predicate KeysDiffer(objects: seq<Watched>) {
    forall i, j :: 0 <= i < j < |objects| ==> objects[i].key != objects[j].key
  }

  lemma KeyIsNew(objects: seq<Watched>, i: nat)
    requires KeysDiffer(objects) && i < |objects|
    ensures forall o :: o in objects[..i] ==> o.key != objects[i].key
  {
  }

  // ---------------------------------------------------------------- index functions

  /** The forward names a service by a non-empty name; explicit hosts make no difference here. */
  predicate NamesService(f: ForwardSpec, name: string) {
    f.service.Some? && f.service.value.name != "" && f.service.value.name == name
  }

  function ForwardIndex(spec: ProxyHostSpec): seq<string> {
    if spec.forward.service.None? || spec.forward.service.value.name == "" then []
    else [spec.forward.service.value.name]
  }

  /** The service names of the custom locations, each once. */
  method LocationIndex(spec: ProxyHostSpec) returns (names: seq<string>)
    ensures NoDuplicates(names)
    ensures forall n :: n in names <==> exists l :: l in spec.customLocations && NamesService(l.forward, n)
  {
    names := [];
    for i := 0 to |spec.customLocations|
      invariant NoDuplicates(names)
      invariant forall n :: n in names <==> exists l :: l in spec.customLocations[..i] && NamesService(l.forward, n)
    {
      var l := spec.customLocations[i];
      assert spec.customLocations[..i + 1] == spec.customLocations[..i] + [l];
      if l.forward.service.None? || l.forward.service.value.name == "" {
        continue;
      }
      if l.forward.service.value.name !in names {
        names := names + [l.forward.service.value.name];
      }
    }
    assert spec.customLocations[..|spec.customLocations|] == spec.customLocations;
  }

  predicate MainNames(o: Watched, name: string) { NamesService(o.spec.forward, name) }

  predicate LocationNames(o: Watched, name: string) {
    exists l :: l in o.spec.customLocations && NamesService(l.forward, name)
  }

  // ---------------------------------------------------------------- the service mapping

  /** Lists by field: the objects whose index values contain the name, in any namespace. */
  method ListByForward(objects: seq<Watched>, name: string) returns (keys: seq<Key>)
    requires KeysDiffer(objects)
    ensures NoDuplicates(keys)
    ensures forall k :: k in keys <==> exists o :: o in objects && o.key == k && MainNames(o, name)
  {
    keys := [];
    for i := 0 to |objects|
      invariant NoDuplicates(keys)
      invariant forall k :: k in keys <==> exists o :: o in objects[..i] && o.key == k && MainNames(o, name)
    {
      assert objects[..i + 1] == objects[..i] + [objects[i]];
      KeyIsNew(objects, i);
      assert objects[i].key !in keys;
      var values := ForwardIndex(objects[i].spec);
      if name in values {
        keys := keys + [objects[i].key];
      }
    }
    assert objects[..|objects|] == objects;
  }

  method ListByLocations(objects: seq<Watched>, name: string) returns (keys: seq<Key>)
    ensures forall k :: k in keys <==> exists o :: o in objects && o.key == k && LocationNames(o, name)
  {
    keys := [];
    for i := 0 to |objects|
      invariant forall k :: k in keys <==> exists o :: o in objects[..i] && o.key == k && LocationNames(o, name)
    {
      assert objects[..i + 1] == objects[..i] + [objects[i]];
      var values := LocationIndex(objects[i].spec);
      if name in values {
        keys := keys + [objects[i].key];
      }
    }
    assert objects[..|objects|] == objects;
  }

  predicate Names(o: Watched, name: string) { MainNames(o, name) || LocationNames(o, name) }

  /** findServicesForProxyHost: exactly the objects that name a service of that name, each once. */
  method FindServicesForProxyHost(objects: seq<Watched>, name: string) returns (requests: seq<Key>)
    requires KeysDiffer(objects)
    ensures NoDuplicates(requests)
    ensures forall k :: k in requests <==> exists o :: o in objects && o.key == k && Names(o, name)
  {
    hide MainNames, LocationNames;
    requests := ListByForward(objects, name);
    var more := ListByLocations(objects, name);
    ghost var first := requests;
    for i := 0 to |more|
      invariant NoDuplicates(requests)
      invariant forall k :: k in requests <==> k in first || k in more[..i]
    {
      var isDuplicate := false;
      for j := 0 to |requests|
        invariant !isDuplicate && more[i] !in requests[..j]
      {
        if requests[j] == more[i] {
          isDuplicate := true;
          break;
        }
      }
      assert isDuplicate || requests[..|requests|] == requests;
      if !isDuplicate {
        requests := requests + [more[i]];
      }
    }
    assert more[..|more|] == more;
  }

  // ---------------------------------------------------------------- completeness of the service mapping

  /** The service a forward refers to. */
  function ReadKey(owner: Key, f: ForwardSpec): Key
    requires f.service.Some?
  {
    Key(if f.service.value.namespace.Some? then f.service.value.namespace.value else owner.namespace,
        f.service.value.name)
  }

  /** makeForward reads this service: no explicit hosts, and the reference leads to it. */
  predicate Reads(owner: Key, f: ForwardSpec, service: Key) {
    f.hosts == [] && f.service.Some? && service == ReadKey(owner, f)
  }

  /** Two views that differ at most in one service. */
  predicate SameBut(v: View, v': View, service: Key) {
    v.pods == v'.pods && v.nodes == v'.nodes && v.services - {service} == v'.services - {service}
  }

  lemma UnreadService(c: Context, view: View, f: ForwardSpec, service: Key)
    requires SameBut(c.view, view, service) && !Reads(c.key, f, service)
    ensures Resolve(c, f) == Resolve(c.(view := view), f)
  {
    hide UpstreamName, HostIps, Backing, ChosenPort;
    if f.hosts == [] && f.service.Some? {
      var k := ServiceKey(c, f.service.value);
      assert k in c.view.services <==> k in c.view.services - {service};
      assert k in view.services <==> k in view.services - {service};
      assert k in c.view.services ==> c.view.services[k] == (c.view.services - {service})[k];
      assert k in view.services ==> view.services[k] == (view.services - {service})[k];
    }
  }

  lemma {:induction false} UnreadLocations(c: Context, view: View, ls: seq<CustomLocation>, supported: bool,
                                           main: Compiled, service: Key)
    requires SameBut(c.view, view, service) && forall l :: l in ls ==> !Reads(c.key, l.forward, service)
    ensures CompileLocations(c, ls, supported, main) == CompileLocations(c.(view := view), ls, supported, main)
  {
    hide Resolve, Usable, Absorb, CompiledLocation, Reads, SameBut;
    if ls != [] {
      UnreadLocations(c, view, ls[..|ls| - 1], supported, main, service);
      UnreadService(c, view, ls[|ls| - 1].forward, service);
    }
  }

  /** If an event on a Service does not enqueue a ProxyHost, the Service has no influence on what that ProxyHost
      compiles to. */
  lemma ServiceWatchIsComplete(o: Watched, c: Context, view: View, service: Key, supported: bool)
    requires c.key == o.key && service.name != "" && !Names(o, service.name) && SameBut(c.view, view, service)
    ensures CompileForwards(c, o.spec, supported) == CompileForwards(c.(view := view), o.spec, supported)
  {
    hide Resolve, Usable, AssignVariable, CompileLocations, SameBut;
    forall l | l in o.spec.customLocations ensures !Reads(c.key, l.forward, service) {
      assert !NamesService(l.forward, service.name);
    }
    assert !Reads(c.key, o.spec.forward, service);
    UnreadService(c, view, o.spec.forward, service);
    if CompileMain(c, o.spec.forward, supported).Success? {
      UnreadLocations(c, view, o.spec.customLocations, supported, CompileMain(c, o.spec.forward, supported).value,
                      service);
    }
  }

  // ---------------------------------------------------------------- the pod mapping

  predicate PodMatchesServiceSelector(pod: Pod, s: Service) {
    !pod.deleting && Selects(s.selector, pod.labels)
  }

  /** A forward's service, looked up by name in the ProxyHost's own namespace, selects the pod. */
  predicate NamedServiceSelects(o: Watched, services: map<Key, Service>, f: ForwardSpec, pod: Pod) {
    f.service.Some? && f.service.value.name != ""
    && Key(o.key.namespace, f.service.value.name) in services
    && PodMatchesServiceSelector(pod, services[Key(o.key.namespace, f.service.value.name)])
  }

  /** The main forward names a service that exists in the ProxyHost's namespace, and it or a location's service selects
      the pod. */
  predicate Enqueued(o: Watched, services: map<Key, Service>, pod: Pod) {
    var f := o.spec.forward;
    && f.service.Some? && f.service.value.name != "" && Key(o.key.namespace, f.service.value.name) in services
    && (NamedServiceSelects(o, services, f, pod)
        || exists l :: l in o.spec.customLocations && NamedServiceSelects(o, services, l.forward, pod))
  }

  method LocationSelects(o: Watched, services: map<Key, Service>, pod: Pod) returns (selects: bool)
    ensures selects <==> exists l :: l in o.spec.customLocations && NamedServiceSelects(o, services, l.forward, pod)
  {
    hide PodMatchesServiceSelector;
    for i := 0 to |o.spec.customLocations|
      invariant forall l :: l in o.spec.customLocations[..i] ==> !NamedServiceSelects(o, services, l.forward, pod)
    {
      var f := o.spec.customLocations[i].forward;
      if f.service.None? || f.service.value.name == "" {
        continue;
      }
      var k := Key(o.key.namespace, f.service.value.name);
      if k !in services {
        continue;
      }
      if PodMatchesServiceSelector(pod, services[k]) {
        assert o.spec.customLocations[i] in o.spec.customLocations;
        return true;
      }
    }
    assert o.spec.customLocations[..|o.spec.customLocations|] == o.spec.customLocations;
    return false;
  }

  /** findProxyHostsForPod. */
  method FindProxyHostsForPod(objects: seq<Watched>, services: map<Key, Service>, pod: Pod) returns (requests: seq<Key>)
    requires KeysDiffer(objects)
    ensures NoDuplicates(requests)
    ensures forall k :: k in requests <==> exists o :: o in objects && o.key == k && Enqueued(o, services, pod)
  {
    hide PodMatchesServiceSelector;
    requests := [];
    for i := 0 to |objects|
      invariant NoDuplicates(requests)
      invariant forall k :: k in requests <==> exists o :: o in objects[..i] && o.key == k && Enqueued(o, services, pod)
    {
      var o := objects[i];
      assert objects[..i + 1] == objects[..i] + [o];
      KeyIsNew(objects, i);
      assert o.key !in requests;
      var f := o.spec.forward;
      if f.service.None? || f.service.value.name == "" {
        continue;
      }
      var k := Key(o.key.namespace, f.service.value.name);
      if k !in services {
        continue;
      }
      if PodMatchesServiceSelector(pod, services[k]) {
        assert Enqueued(o, services, pod);
        requests := requests + [o.key];
        continue;
      }
      var selects := LocationSelects(o, services, pod);
      if selects {
        requests := requests + [o.key];
      }
    }
    assert objects[..|objects|] == objects;
  }

  // ---------------------------------------------------------------- where the pod mapping is complete

  /** The services the i-th forward reads: at most one. */
  predicate Uses(o: Watched, i: nat, k: Key)
    requires i <= |o.spec.customLocations|
  {
    Reads(o.key, ForwardAt(o.spec, i), k)
  }

  /** The services a ProxyHost reads. */
  function UsedKeys(o: Watched): set<Key> {
    set i | 0 <= i <= |o.spec.customLocations| && ForwardAt(o.spec, i).hosts == [] && ForwardAt(o.spec, i).service.Some?
      :: ReadKey(o.key, ForwardAt(o.spec, i))
  }

  lemma UsedKeysAreRead(o: Watched, k: Key)
    ensures k in UsedKeys(o) <==> exists i :: 0 <= i <= |o.spec.customLocations| && Uses(o, i, k)
  {
    forall i | 0 <= i <= |o.spec.customLocations| && Uses(o, i, k) ensures k in UsedKeys(o) {
      assert ReadKey(o.key, ForwardAt(o.spec, i)) in UsedKeys(o);
    }
    if k in UsedKeys(o) {
      var i :| 0 <= i <= |o.spec.customLocations|
               && ForwardAt(o.spec, i).hosts == [] && ForwardAt(o.spec, i).service.Some?
               && ReadKey(o.key, ForwardAt(o.spec, i)) == k;
      assert Uses(o, i, k);
    }
  }

  /** Every service the ProxyHost reads exists, and one of them, a NodePort service, is backed by the pod. */
  predicate Concerns(o: Watched, services: map<Key, Service>, pod: Pod) {
    && (forall k :: k in UsedKeys(o) ==> k in services)
    && exists k :: && k in UsedKeys(o) && services[k].serviceType == NodePort
                   && pod.namespace == k.namespace && Selects(services[k].selector, pod.labels)
  }

  /** Every service it reads is named in its own namespace, and if it reads any, the main forward names one of them. */
  predicate WellWatched(o: Watched) {
    var f := o.spec.forward;
    && (forall k :: k in UsedKeys(o) ==> k.namespace == o.key.namespace && k.name != "")
    && (UsedKeys(o) != {} ==> f.service.Some? && Key(o.key.namespace, f.service.value.name) in UsedKeys(o))
  }

  lemma WatchedPodEnqueues(o: Watched, services: map<Key, Service>, pod: Pod)
    requires WellWatched(o) && Concerns(o, services, pod) && !pod.deleting
    ensures Enqueued(o, services, pod)
  {
    hide Selects, UsedKeys;
    var k :| k in UsedKeys(o) && services[k].serviceType == NodePort
             && pod.namespace == k.namespace && Selects(services[k].selector, pod.labels);
    UsedKeysAreRead(o, k);
    var i :| 0 <= i <= |o.spec.customLocations| && Uses(o, i, k);
    assert NamedServiceSelects(o, services, ForwardAt(o.spec, i), pod);
    if i > 0 {
      assert o.spec.customLocations[i - 1] in o.spec.customLocations;
    }
  }

  /** Services in which only `chosen` selects an unlabelled pod. */
  function OnlySelecting(keys: set<Key>, chosen: Key): map<Key, Service> {
    map k | k in keys :: Service(NodePort, "", [], [], if k == chosen then map[] else map["app" := "other"])
  }

  lemma SelectsUnlabelled(keys: set<Key>, chosen: Key, k: Key)
    requires k in keys
    ensures Selects(OnlySelecting(keys, chosen)[k].selector, map[]) <==> k == chosen
  {
    assert "app" in map["app" := "other"];
  }

  /** Outside that condition some pod that concerns the ProxyHost does not enqueue it. */
  lemma UnwatchedPod(o: Watched) returns (services: map<Key, Service>, pod: Pod)
    requires !WellWatched(o)
    ensures Concerns(o, services, pod) && !pod.deleting && !Enqueued(o, services, pod)
  {
    var f := o.spec.forward;
    var k: Key;
    if stray :| stray in UsedKeys(o) && !(stray.namespace == o.key.namespace && stray.name != "") {
      k := stray;
    } else {
      k :| k in UsedKeys(o);
    }
    services := OnlySelecting(UsedKeys(o), k);
    pod := Pod(k.namespace, map[], true, false, "");
    SelectsUnlabelled(UsedKeys(o), k, k);
    hide Selects, UsedKeys;
    forall m | m in services ensures PodMatchesServiceSelector(pod, services[m]) <==> m == k {
      SelectsUnlabelled(UsedKeys(o), k, m);
    }
    hide PodMatchesServiceSelector, OnlySelecting;
    assert Concerns(o, services, pod);
  }

  /** The exact limit: every pod that concerns a ProxyHost enqueues it, for any services, if and only if the
      ProxyHost is well watched. A pod that is being deleted never does. */
  lemma PodWatchIsCompleteExactly(o: Watched)
    ensures (forall services, pod :: Concerns(o, services, pod) && !pod.deleting ==> Enqueued(o, services, pod))
            <==> WellWatched(o)
  {
    hide Concerns, Enqueued, WellWatched;
    if WellWatched(o) {
      forall services, pod | Concerns(o, services, pod) && !pod.deleting ensures Enqueued(o, services, pod) {
        WatchedPodEnqueues(o, services, pod);
      }
    } else {
      var services, pod := UnwatchedPod(o);
    }
  }

  lemma DeletedPodIsIgnored(o: Watched, services: map<Key, Service>, pod: Pod)
    requires pod.deleting
    ensures !Enqueued(o, services, pod)
  {
  }

  function Plain(service: string, namespace: Option<string>, hosts: seq<UpstreamHost>): ForwardSpec {
    ForwardSpec("http", if service == "" then None else Some(ForwardService(service, namespace, None, None)),
                false, "", hosts, "", "")
  }

  function Host(owner: Key, main: ForwardSpec, locations: seq<CustomLocation>): Watched {
    Watched(owner, ProxyHostSpec(["a.com"], false, false, false, false, None, main, locations))
  }

  /** Two ProxyHosts that are not: one whose service lives in another namespace, one that uses a service only in a
      location. */
  lemma BadlyWatched(ns: string, other: string)
    requires ns != other
    ensures !WellWatched(Host(Key(ns, "a"), Plain("web", Some(other), []), []))
    ensures !WellWatched(Host(Key(ns, "a"), Plain("", None, [UpstreamHost("h", 80)]),
                              [CustomLocation("/", Plain("web", None, []))]))
  {
    assert "web" != "";
    var far := Host(Key(ns, "a"), Plain("web", Some(other), []), []);
    assert Uses(far, 0, Key(other, "web"));
    UsedKeysAreRead(far, Key(other, "web"));
    var located := Host(Key(ns, "a"), Plain("", None, [UpstreamHost("h", 80)]),
                        [CustomLocation("/", Plain("web", None, []))]);
    assert Uses(located, 1, Key(ns, "web"));
    UsedKeysAreRead(located, Key(ns, "web"));
  }
}
