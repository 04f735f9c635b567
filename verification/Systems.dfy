/** The whole controller at work: restarts, users and reconciles in any order. */
module Systems {
  import opened Common
  import opened Apis
  import opened ClusterModel
  import opened Interference
  import opened Runs
  import opened ApiServers
  import opened Targets
  import opened Upserts
  import opened Lookups
  import opened SourceReconciles
  import opened Registries
  import ObjectSyncControllers

  /** What holds whenever no reconcile is running: every registered ObjectSync is finalized. */
  ghost predicate Steady(server: ApiServer, registry: Registry)
    reads server, registry
  {
    server.Valid() && registry.AtRest() && AllHeld(server.cluster, registry.instances.Keys)
  }

  /** An index lists only what is in the table of instances. */
  lemma IndexedIsRegistered(registry: Registry, gvk: Gvk, namespaces: Option<set<string>>, place: NamespacedName)
    requires registry.AtRest()
    ensures Registered(registry.Sources(gvk), namespaces, place) <= registry.instances.Keys
  {
    forall ref | ref in Registered(registry.Sources(gvk), namespaces, place) ensures ref in registry.instances {
      IndexBetweenChecks(registry.Content(), registry.registrations, registry.erased, registry.instances, registry.next, gvk, place, ref, 0);
      OrderMeans(registry.Content(), registry.registrations, registry.erased, registry.instances, registry.next);
    }
  }

  lemma StillAtRest(before: map<Holder, Binding>, after: map<Holder, Binding>, x: Holder)
    requires after - {x} == before - {x} && !x.clone
    requires forall y | y in before :: !y.clone
    ensures forall y | y in after :: !y.clone
  {
    forall y | y in after && y != x ensures !y.clone {
      assert y in after - {x};
    }
  }

  /** A point between two events: the past of the server, and what is registered, under
      which binding, and of that what has been lost from the indexes. */
  datatype Point = Point(trace: Trace, registrations: map<Holder, Binding>, erased: set<Holder>)

  /** Nobody else acted and nothing failed in between. */
  predicate CalmBetween(a: Trace, b: Trace) {
    b.meddling == a.meddling && b.faults == a.faults
  }

  /** The namespaces to look at; no list, an empty one and a wildcard admit them all. */
  predicate Admits(namespaces: Option<set<string>>, namespace: string) {
    match namespaces
    case None => true
    case Some(listed) => listed == {} || namespace in listed || "*" in listed
  }

  /** What reconciling an ObjectSync did: nothing to one that does not exist or is in no
      namespace to watch; one being deleted is deregistered, and undisturbed nothing live is
      left of it; any other one ends, undisturbed, registered for the resource discovered
      and the source it names. */
  ghost predicate SyncReconciled(a: Point, b: Point, ref: NamespacedName, namespaces: Option<set<string>>,
                                 discovery: Result<Gvk>) {
    var c, x, calm := Replay(a.trace.run), Holder(ref, false), CalmBetween(a.trace, b.trace);
    && a.trace.run <= b.trace.run && a.trace.log <= b.trace.log
    && b.registrations - {x} == a.registrations - {x} && b.erased - {x} == a.erased - {x}
    && if ref !in c.syncs || !Admits(namespaces, ref.namespace) then b == a
       else if c.syncs[ref].terminating then
         && x !in b.registrations
         && (calm && discovery.Success? ==>
               forall k | k in Replay(b.trace.run).objects :: !LiveFor(Replay(b.trace.run), ref, k))
       else
         calm && discovery.Success? ==>
           var source := match c.syncs[ref].spec.source.namespace case Some(namespace) => namespace case None => ref.namespace;
           ObjectSyncControllers.RegisteredFor(ref, Binding(discovery.value, NamespacedName(source, c.syncs[ref].spec.source.name)),
                                               a.registrations, a.erased, b.registrations, b.erased)
  }

  /** Reconcile some ObjectSync. */
  method ReconcileObjectSync(server: ApiServer, registry: Registry, ref: NamespacedName, namespaces: Option<set<string>>,
                             discovery: Result<Gvk>, now: string)
    requires Steady(server, registry)
    modifies server, registry
    ensures Steady(server, registry)
    ensures SyncReconciled(old(Point(server.Past(), registry.registrations, registry.erased)),
                           Point(server.Past(), registry.registrations, registry.erased), ref, namespaces, discovery)
  {
    server.IsReplayed();
    if ref in server.cluster.syncs {
      server.IsSound();
      var o := server.cluster.syncs[ref];
      var scope := Scope({ref}, registry.instances.Keys - {ref});
      OrderMeans(registry.Content(), registry.registrations, registry.erased, registry.instances, registry.next);
      ghost var before := registry.registrations;
      var _, _, _, _ := ObjectSyncControllers.Reconcile(server, scope, registry, o, namespaces, discovery, now);
      OrderMeans(registry.Content(), registry.registrations, registry.erased, registry.instances, registry.next);
      StillAtRest(before, registry.registrations, Holder(ref, false));
      server.IsReplayed();
    }
  }

  /** The ObjectSyncs indexed for a source: registered for it, and not lost. */
  ghost function IndexedFor(p: Point, gvk: Gvk, place: NamespacedName): set<NamespacedName> {
    set x | x in p.registrations && x !in p.erased && p.registrations[x] == Binding(gvk, place) :: x.ref
  }

  /** What reconciling a source object did: nothing of a revision that never was; otherwise
      it tells the story of a deletion or of a maintenance for exactly the ObjectSyncs
      indexed for the source, or lets the source go if there are none to consult. */
  ghost predicate SourceReconciled(a: Point, b: Point, gvk: Gvk, version: nat, finalizers: seq<string>, terminating: bool,
                                   namespaces: Option<set<string>>, cache: seq<Namespace>, now: string) {
    var history := Replay(a.trace.run).history;
    && a.trace.run <= b.trace.run && a.trace.log <= b.trace.log && b.registrations == a.registrations && b.erased == a.erased
    && if version !in history then b == a
       else
         var snapshot := history[version];
         var place := NamespacedName(snapshot.key.namespace, snapshot.key.name);
         var source := Source(snapshot.key, Object(snapshot.uid, version, snapshot.payload, finalizers, terminating, {}));
         var refs := if Admits(namespaces, place.namespace) then IndexedFor(a, gvk, place) else {};
         exists account, result :: SourceStory(a.trace, b.trace, account, refs, place, gvk, cache, source, now, result)
  }

  ghost predicate SourceStory(a: Trace, b: Trace, account: Account, refs: set<NamespacedName>, place: NamespacedName,
                              gvk: Gvk, cache: seq<Namespace>, source: Source, now: string, result: SourceResult) {
    forall i: int {:trigger Unseal(i)} :: Unseal(i) ==> SourceStoryParts(i, a, b, account, refs, place, gvk, cache, source, now, result)
  }

  ghost predicate SourceStoryParts(i: int, a: Trace, b: Trace, account: Account, refs: set<NamespacedName>,
                                   place: NamespacedName, gvk: Gvk, cache: seq<Namespace>, source: Source, now: string,
                                   result: SourceResult) {
    if refs == {} then
      && result.Unreferenced?
      && (if Annotation("sync.rustrial.org/source-object") in source.seen.payload && !source.seen.terminating then b.log == a.log
          else ReleaseLogged(b, |a.log|, source, result.r))
    else if source.seen.terminating then Deletion(a, b, account, refs, place, source, now, result)
    else Maintenance(a, b, account, refs, place, gvk, cache, source, now, result)
  }

  lemma IndexIsIndexedFor(registry: Registry, p: Point, gvk: Gvk, namespaces: Option<set<string>>, place: NamespacedName)
    requires registry.AtRest() && p.registrations == registry.registrations && p.erased == registry.erased
    ensures Registered(registry.Sources(gvk), namespaces, place) ==
            if Admits(namespaces, place.namespace) then IndexedFor(p, gvk, place) else {}
  {
    if Admits(namespaces, place.namespace) {
      forall ref ensures ref in IndexedFor(p, gvk, place) <==> Enrolled(registry.Sources(gvk), place, ref) {
        IndexBetweenChecks(registry.Content(), registry.registrations, registry.erased, registry.instances, registry.next, gvk, place, ref, 0);
        if ref in IndexedFor(p, gvk, place) {
          var x :| x in p.registrations && x !in p.erased && p.registrations[x] == Binding(gvk, place) && x.ref == ref;
          assert x == Holder(ref, false);
        }
      }
    }
  }

  /** Reconcile some source object, as some watch delivered it. */
  method ReconcileSourceObject(server: ApiServer, registry: Registry, gvk: Gvk, version: nat, finalizers: seq<string>,
                               terminating: bool, namespaces: Option<set<string>>, cache: seq<Namespace>, now: string)
    requires Steady(server, registry)
    modifies server
    ensures Steady(server, registry)
    ensures SourceReconciled(old(Point(server.Past(), registry.registrations, registry.erased)),
                             Point(server.Past(), registry.registrations, registry.erased),
                             gvk, version, finalizers, terminating, namespaces, cache, now)
  {
    server.IsReplayed();
    if version in server.cluster.history {
      ghost var a := Point(server.Past(), registry.registrations, registry.erased);
      var snapshot := server.cluster.history[version];
      var seen := Object(snapshot.uid, version, snapshot.payload, finalizers, terminating, {});
      var place := NamespacedName(snapshot.key.namespace, snapshot.key.name);
      IndexedIsRegistered(registry, gvk, namespaces, place);
      IndexIsIndexedFor(registry, a, gvk, namespaces, place);
      ghost var refs := Registered(registry.Sources(gvk), namespaces, place);
      ghost var result, account := ReconcileConsulted(server, registry, gvk, namespaces, cache, Source(snapshot.key, seen), now);
      assert SourceStory(a.trace, server.Past(), account, refs, place, gvk, cache, Source(snapshot.key, seen), now, result);
    }
  }

  /** Reconcile a source object for the ObjectSyncs registered for it. */
  method ReconcileConsulted(server: ApiServer, registry: Registry, gvk: Gvk, namespaces: Option<set<string>>,
                            cache: seq<Namespace>, source: Source, now: string)
    returns (ghost result: SourceResult, ghost account: Account)
    requires Steady(server, registry) && Known(server.cluster, source.key, source.seen)
    requires
      var place := NamespacedName(source.key.namespace, source.key.name);
      Registered(registry.Sources(gvk), namespaces, place) <= registry.instances.Keys
    modifies server
    ensures Steady(server, registry) && old(server.run) <= server.run && old(server.log) <= server.log
    ensures
      var place := NamespacedName(source.key.namespace, source.key.name);
      SourceStory(old(server.Past()), server.Past(), account, Registered(registry.Sources(gvk), namespaces, place), place,
                  gvk, cache, source, now, result)
  {
    ghost var place := NamespacedName(source.key.namespace, source.key.name);
    var refs := Registered(registry.Sources(gvk), namespaces, NamespacedName(source.key.namespace, source.key.name));
    var scope := Scope(refs, registry.instances.Keys);
    ghost var c0, t0 := server.cluster, server.Past();
    result, account := Reconcile(server, scope, registry.Sources(gvk), namespaces, gvk, cache, source, now);
    HeldSurvive(scope.Without(refs), c0, server.cluster, registry.instances.Keys);
    assert SourceStoryParts(0, t0, server.Past(), account, refs, place, gvk, cache, source, now, result);
  }

  /** Users, and whatever else may touch the cluster, act in between. */
  method LetOthersAct(server: ApiServer, registry: Registry)
    requires Steady(server, registry)
    modifies server
    ensures Steady(server, registry) && old(server.run) <= server.run && server.log == old(server.log)
  {
    var scope := Scope({}, registry.instances.Keys);
    ghost var c0 := server.cluster;
    server.Interfere(scope);
    HeldSurvive(scope, c0, server.cluster, registry.instances.Keys);
  }

  /** The deletion of an ObjectSync begins while other reconciles go on: it leaves the
      table of instances. From then on nothing protects its finalizer, and the calls it
      makes reach the others as those of another actor. */
  method BeginDeletion(server: ApiServer, registry: Registry, ref: NamespacedName)
    requires Steady(server, registry)
    modifies registry
    ensures Steady(server, registry) && ref !in registry.instances
    ensures registry.registrations == old(registry.registrations) - {Holder(ref, false)}
    ensures registry.erased == old(registry.erased) - {Holder(ref, false)}
  {
    OrderMeans(registry.Content(), registry.registrations, registry.erased, registry.instances, registry.next);
    registry.Leave(ref);
  }

  datatype Event =
    | Restart
    | Others
    | DeletionElsewhere(ref: NamespacedName)
    | ObjectSyncEvent(ref: NamespacedName, namespaces: Option<set<string>>, discovery: Result<Gvk>, now: string)
    | SourceEvent(gvk: Gvk, version: nat, finalizers: seq<string>, terminating: bool,
                  namespaces: Option<set<string>>, cache: seq<Namespace>, now: string)

  /** What one event comes to. */
  ghost predicate Happened(e: Event, a: Point, b: Point) {
    match e
    case Restart => b == Point(a.trace, map[], {})
    case Others =>
      b == Point(b.trace, a.registrations, a.erased) && a.trace.run <= b.trace.run && b.trace.log == a.trace.log
    case DeletionElsewhere(ref) =>
      b == Point(a.trace, a.registrations - {Holder(ref, false)}, a.erased - {Holder(ref, false)})
    case ObjectSyncEvent(ref, namespaces, discovery, now) => SyncReconciled(a, b, ref, namespaces, discovery)
    case SourceEvent(gvk, version, finalizers, terminating, namespaces, cache, now) =>
      SourceReconciled(a, b, gvk, version, finalizers, terminating, namespaces, cache, now)
  }

  /** Let one event happen. */
  method Handle(server: ApiServer, registry: Registry, e: Event) returns (next: Registry)
    requires Steady(server, registry)
    modifies server, registry
    ensures Steady(server, next) && (next == registry || fresh(next))
    ensures Happened(e, old(Point(server.Past(), registry.registrations, registry.erased)),
                     Point(server.Past(), next.registrations, next.erased))
  {
    next := registry;
    match e
    case Restart => next := new Registry();
    case Others => LetOthersAct(server, registry);
    case DeletionElsewhere(ref) => BeginDeletion(server, registry, ref);
    case ObjectSyncEvent(ref, namespaces, discovery, now) =>
      ReconcileObjectSync(server, registry, ref, namespaces, discovery, now);
    case SourceEvent(gvk, version, finalizers, terminating, namespaces, cache, now) =>
      ReconcileSourceObject(server, registry, gvk, version, finalizers, terminating, namespaces, cache, now);
  }

  /** The controller over any sequence of events. At every point of the run, within
      reconciles too, no live copy is left behind by an ObjectSync that is gone, and
      every live copy is tracked; each event comes to what it should; and between
      reconciles the indexes are exact. */
  method Operate(events: seq<Event>) returns (server: ApiServer, registry: Registry, ghost points: seq<Point>)
    ensures Steady(server, registry) && server.cluster == Replay(server.run)
    ensures forall n: nat | n <= |server.run| :: NoOrphans(Replay(server.run[..n])) && AllTracked(Replay(server.run[..n]))
    ensures |points| == |events| + 1 && points[0] == Point(Trace([], [], [], 0, 0), map[], {})
    ensures points[|events|] == Point(server.Past(), registry.registrations, registry.erased)
    ensures forall i | 0 <= i < |events| :: Happened(events[i], points[i], points[i + 1])
    ensures forall gvk, src, crd ::
              Enrolled(registry.Sources(gvk), src, crd) <==>
              && Holder(crd, false) in registry.registrations && Holder(crd, false) !in registry.erased
              && registry.registrations[Holder(crd, false)] == Binding(gvk, src)
  {
    server := new ApiServer();
    registry := new Registry();
    points := [Point(server.Past(), registry.registrations, registry.erased)];
    for i := 0 to |events|
      invariant Steady(server, registry) && fresh(server) && fresh(registry)
      invariant |points| == i + 1 && points[0] == Point(Trace([], [], [], 0, 0), map[], {})
      invariant points[i] == Point(server.Past(), registry.registrations, registry.erased)
      invariant forall j | 0 <= j < i :: Happened(events[j], points[j], points[j + 1])
    {
      registry := Handle(server, registry, events[i]);
      points := points + [Point(server.Past(), registry.registrations, registry.erased)];
    }
    RunIsSafe(server);
    forall gvk, src, crd
      ensures Enrolled(registry.Sources(gvk), src, crd) <==>
              && Holder(crd, false) in registry.registrations && Holder(crd, false) !in registry.erased
              && registry.registrations[Holder(crd, false)] == Binding(gvk, src)
    {
      IndexBetweenChecks(registry.Content(), registry.registrations, registry.erased, registry.instances, registry.next, gvk, src, crd, 0);
    }
  }

  lemma RunIsSafe(server: ApiServer)
    requires server.Valid()
    ensures server.cluster == Replay(server.run)
    ensures forall n: nat | n <= |server.run| :: NoOrphans(Replay(server.run[..n])) && AllTracked(Replay(server.run[..n]))
  {
    assert Unfold(0);
    forall n: nat | n <= |server.run| ensures NoOrphans(Replay(server.run[..n])) && AllTracked(Replay(server.run[..n])) {
      NoOrphansEver(server.run, n);
    }
  }
}
