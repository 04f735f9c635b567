/** The lifecycle of an ObjectSync: finalizer, registration, deletion. */
module ObjectSyncControllers {
  import opened Common
  import opened Apis
  import opened ClusterModel
  import opened Interference
  import opened ApiServers
  import opened Modifications
  import opened Utils
  import opened Upserts
  import opened ResourceControllers
  import opened Removals
  import opened Lookups
  import opened Registries

  const READY := "Ready"

  function RefText(ref: NamespacedName): string {
    ref.namespace + "/" + ref.name
  }

  function GvkText(gvk: Gvk): string {
    gvk.group + "/" + gvk.version + "/" + gvk.kind
  }

  function RegisteredCondition(gvk: Gvk, src: NamespacedName): Condition {
    NewCondition(READY, Some(true), SUCCESS,
                 "Successfully registered with ResourceController " + GvkText(gvk) + " and source " + RefText(src))
  }

  function MovedCondition(was: Binding, gvk: Gvk, src: NamespacedName): Condition {
    NewCondition(READY, Some(true), SUCCESS,
                 "Successfully moved from ResourceController " + GvkText(was.gvk) + " to " + GvkText(gvk)
                 + " and updated source from " + RefText(was.src) + " to " + RefText(src))
  }

  /** Make sure the finalizer is in place before anything else happens. */
  method AddFinalizer(server: ApiServer, scope: Scope, event: ObjectSyncModifications) returns (r: Result<()>)
    requires server.Valid() && event.Id() in scope.reserved && event.JustRead(server.cluster)
    modifies event, server
    ensures server.Advanced(scope.Minus(old(event.Id())))
    ensures event.Id() == old(event.Id()) && event.Writable(server.cluster)
    ensures r.Success? ==> Held(server.cluster, event.Id())
    ensures Held(old(server.cluster), event.Id()) ==> Held(server.cluster, event.Id())
    ensures NoNewCopies(event.Id(), old(server.cluster), server.cluster)
    ensures server.Alone() ==> server.cluster.objects == old(server.cluster.objects)
    ensures server.Calm() ==>
              && r.Success? && event.JustRead(server.cluster)
              && event.modified == old(event.modified).(finalizers := event.modified.finalizers, version := event.modified.version)
  {
    event.ReadIsWritable(server);
    ghost var c := server.cluster;
    r := Success(());
    if FINALIZER !in event.modified.finalizers {
      event.modified := event.modified.(finalizers := event.modified.finalizers + [FINALIZER]);
      assert |event.modified.finalizers| != |event.original.finalizers|;
      r := event.PatchSpec(server, scope);
    }
  }

  // ---------------------------------------------------------------------
  // Registration

  /** The registration a check made or kept, and what became of the others. `moved`
      says that it replaced one for another resource or source. */
  ghost predicate Enlisted(ok: bool, ref: NamespacedName, binding: Binding, moved: bool,
                           before: map<Holder, Binding>, erasedBefore: set<Holder>, after: map<Holder, Binding>, erased: set<Holder>) {
    forall i: int {:trigger Unfold(i)} :: Unfold(i) ==>
      EnlistedParts(i, ok, ref, binding, moved, before, erasedBefore, after, erased)
  }

  ghost predicate EnlistedParts(i: int, ok: bool, ref: NamespacedName, binding: Binding, moved: bool,
                                before: map<Holder, Binding>, erasedBefore: set<Holder>, after: map<Holder, Binding>, erased: set<Holder>) {
    var x := Holder(ref, false);
    && after - {x} == before - {x} && erased - {x} == erasedBefore - {x}
    && (moved ==> x in before)
    && (ok ==> x in after && after[x] == binding)
    && (ok && x in erased ==> x in before)
    // A kept registration stays as it was; a new one is lost exactly if the check
    // moved it back to where it came from.
    && (ok && x in before ==> (x in erased <==> if moved then before[x] == binding else x in erasedBefore))
  }

  lemma NewIsEnlisted(ref: NamespacedName, binding: Binding, before: map<Holder, Binding>, erased: set<Holder>)
    requires Holder(ref, false) !in before && erased <= before.Keys
    ensures Enlisted(true, ref, binding, false, before, erased, before[Holder(ref, false) := binding], erased)
  {
  }

  lemma KeptIsEnlisted(ref: NamespacedName, before: map<Holder, Binding>, erased: set<Holder>,
                       after: map<Holder, Binding>, erasedAfter: set<Holder>)
    requires Holder(ref, false) in before && Holder(ref, true) !in before && erased <= before.Keys
    requires
      var x, y := Holder(ref, false), Holder(ref, true);
      && after == before[y := before[x]] - {y}
      && erasedAfter == (if x in erased then erased + {y} else erased) - {y}
    ensures Enlisted(true, ref, before[Holder(ref, false)], false, before, erased, after, erasedAfter)
  {
    var x, y := Holder(ref, false), Holder(ref, true);
    assert x != y && after == before && erasedAfter == erased;
  }

  lemma MovedIsEnlisted(ok: bool, ref: NamespacedName, binding: Binding, before: map<Holder, Binding>, erased: set<Holder>,
                        during: map<Holder, Binding>, erasedDuring: set<Holder>, after: map<Holder, Binding>, erasedAfter: set<Holder>)
    requires Holder(ref, false) in before && Holder(ref, true) !in before && erased <= before.Keys
    requires
      var x, y := Holder(ref, false), Holder(ref, true);
      && during == before[y := before[x]]
      && erasedDuring == (if x in erased then erased + {y} else erased)
      && after == (if ok then during[x := binding] else during - {x}) - {y}
      && erasedAfter == (if ok && during[y] == binding then erasedDuring + {x} else erasedDuring - {x}) - {y}
    ensures Enlisted(ok, ref, binding, true, before, erased, after, erasedAfter)
  {
    var x, y := Holder(ref, false), Holder(ref, true);
    assert x != y && y !in erased;
    assert after - {x} == before - {x};
    assert erasedAfter - {x} == erased - {x};
  }

  /** Delete what was made from the old source. */
  method DeleteFormer(server: ApiServer, scope: Scope, event: ObjectSyncModifications, now: string)
    returns (r: Result<()>, src: NamespacedName)
    requires server.Valid() && event.Id() in scope.reserved && event.Writable(server.cluster)
    modifies event, server
    ensures server.Advanced(scope.Minus(old(event.Id())))
    ensures event.Id() == old(event.Id()) && event.Writable(server.cluster)
    ensures Held(old(server.cluster), event.Id()) ==> Held(server.cluster, event.Id())
    ensures NoNewCopies(event.Id(), old(server.cluster), server.cluster)
    ensures r.Success? ==> NoCopies(server.cluster, event.Id()) && event.modified.Tracked() == []
    ensures src == event.modified.SourceRef()
    ensures server.Calm() && old(event.JustRead(server.cluster)) ==>
              r.Success? && event.JustRead(server.cluster) && src == old(event.modified.SourceRef())
  {
    ghost var before := event.modified;
    r := DeleteTracked(server, scope, event, now);
    RemovalMeans(server.Since(), r.Success?, event.Id(), before, event.modified, now);
    src := event.modified.SourceRef();
  }

  /** The ObjectSync's source or its resource changed: deregister, delete what was
      made from the old source, register anew. `src` is the source the ObjectSync
      names by then. */
  method Move(server: ApiServer, scope: Scope, registry: Registry, event: ObjectSyncModifications, active: Instance,
              gvk: Gvk, now: string)
    returns (r: Result<()>, src: NamespacedName)
    requires server.Valid() && event.Id() in scope.reserved && event.Writable(server.cluster)
    requires registry.Valid() && Holder(event.Id(), false) in registry.holders && Holder(event.Id(), true) in registry.holders
    requires registry.holders[Holder(event.Id(), true)] == registry.holders[Holder(event.Id(), false)] == active
    modifies event, server, registry
    ensures server.Advanced(scope.Minus(old(event.Id())))
    ensures event.Id() == old(event.Id()) && event.Writable(server.cluster)
    ensures Held(old(server.cluster), event.Id()) ==> Held(server.cluster, event.Id())
    ensures NoNewCopies(event.Id(), old(server.cluster), server.cluster)
    ensures r.Success? ==> src == event.modified.SourceRef()
    // Nothing made from the old source is left.
    ensures r.Success? ==> NoCopies(server.cluster, event.Id()) && event.modified.Tracked() == []
    ensures registry.Valid() && Holder(event.Id(), true) !in registry.holders
    ensures registry.instances.Keys == if r.Success? then old(registry.instances.Keys) else old(registry.instances.Keys) - {event.Id()}
    ensures Holder(event.Id(), true) in old(registry.registrations)
    ensures
      var x, y := Holder(event.Id(), false), Holder(event.Id(), true);
      && registry.registrations == (if r.Success? then old(registry.registrations)[x := Binding(gvk, src)] else old(registry.registrations) - {x}) - {y}
      && registry.erased == (if r.Success? && old(registry.registrations)[y] == Binding(gvk, src)
                             then old(registry.erased) + {x} else old(registry.erased) - {x}) - {y}
    ensures server.Calm() && old(event.JustRead(server.cluster)) ==>
              r.Success? && event.JustRead(server.cluster) && src == old(event.modified.SourceRef())
  {
    registry.Detach(event.Id(), active);
    r, src := DeleteFormer(server, scope, event, now);
    registry.Conclude(event.Id(), r.Success?, src, gvk, active);
  }

  /** What a check has to report about the registration it made or moved. */
  predicate ToReport(condition: Option<Condition>, gvk: Gvk, src: NamespacedName, before: Option<Binding>, moved: bool) {
    match before
    case None => condition == Some(RegisteredCondition(gvk, src))
    case Some(was) => condition == if moved then Some(MovedCondition(was, gvk, src)) else None
  }

  function Former(m: map<Holder, Binding>, ref: NamespacedName): Option<Binding> {
    if Holder(ref, false) in m then Some(m[Holder(ref, false)]) else None
  }

  /** A registered ObjectSync: keep its registration, or move it. `before` and `erased`
      are what the registry held before the lookup. */
  method Revisit(server: ApiServer, scope: Scope, registry: Registry, event: ObjectSyncModifications,
                 active: Instance, gvk: Gvk, now: string,
                 ghost before: map<Holder, Binding>, ghost erased: set<Holder>)
    returns (r: Result<Option<Condition>>, ghost src: NamespacedName, ghost moved: bool)
    requires server.Valid() && event.Id() in scope.reserved && event.Writable(server.cluster)
    requires registry.Valid() && Holder(event.Id(), false) in registry.holders && Holder(event.Id(), true) in registry.holders
    requires registry.holders[Holder(event.Id(), true)] == registry.holders[Holder(event.Id(), false)] == active
    requires active.handle in registry.handles
    requires
      var x, y := Holder(event.Id(), false), Holder(event.Id(), true);
      && x in before && y !in before && erased <= before.Keys
      && before[x] == Binding(active.gvk, registry.handles[active.handle].src)
      && registry.registrations == before[y := before[x]]
      && registry.erased == (if x in erased then erased + {y} else erased)
    modifies event, server, registry
    ensures server.Advanced(scope.Minus(old(event.Id())))
    ensures event.Id() == old(event.Id()) && event.Writable(server.cluster)
    ensures Held(old(server.cluster), event.Id()) ==> Held(server.cluster, event.Id())
    ensures NoNewCopies(event.Id(), old(server.cluster), server.cluster)
    ensures registry.Valid() && Holder(event.Id(), true) !in registry.holders
    ensures registry.instances.Keys == if r.Success? then old(registry.instances.Keys) else old(registry.instances.Keys) - {event.Id()}
    ensures r.Success? ==> src == event.modified.SourceRef()
    ensures r.Success? && moved ==> NoCopies(server.cluster, event.Id()) && event.modified.Tracked() == []
    ensures Enlisted(r.Success?, event.Id(), Binding(gvk, src), moved, before, erased, registry.registrations, registry.erased)
    ensures moved <==> before[Holder(event.Id(), false)] != Binding(gvk, old(event.modified.SourceRef()))
    ensures r.Success? ==> ToReport(r.value, gvk, src, Former(before, event.Id()), moved)
    ensures server.Calm() && old(event.JustRead(server.cluster)) ==>
              r.Success? && event.JustRead(server.cluster) && src == old(event.modified.SourceRef())
  {
    ghost var ref, during, erasedDuring := event.Id(), registry.registrations, registry.erased;
    src := event.modified.SourceRef();
    var was := Binding(active.gvk, registry.handles[active.handle].src);
    moved := was != Binding(gvk, event.modified.SourceRef());
    if was != Binding(gvk, event.modified.SourceRef()) {
      var done, place := Move(server, scope, registry, event, active, gvk, now);
      src := place;
      MovedIsEnlisted(done.Success?, ref, Binding(gvk, src), before, erased, during, erasedDuring, registry.registrations, registry.erased);
      r := if done.Success? then Success(Some(MovedCondition(was, gvk, place))) else Failure(done.error);
    } else {
      registry.Keep(event.Id(), active);
      KeptIsEnlisted(ref, before, erased, registry.registrations, registry.erased);
      r := Success(None);
    }
  }

  /** The part of a check that consults and updates the registry; it returns the
      condition to report, if any. */
  method Enlist(server: ApiServer, scope: Scope, registry: Registry, event: ObjectSyncModifications, gvk: Gvk, now: string)
    returns (r: Result<Option<Condition>>, ghost src: NamespacedName, ghost moved: bool)
    requires server.Valid() && event.Id() in scope.reserved && event.Writable(server.cluster)
    requires registry.Valid() && Holder(event.Id(), true) !in registry.holders
    modifies event, server, registry
    ensures server.Advanced(scope.Minus(old(event.Id())))
    ensures event.Id() == old(event.Id()) && event.Writable(server.cluster)
    ensures Held(old(server.cluster), event.Id()) ==> Held(server.cluster, event.Id())
    ensures NoNewCopies(event.Id(), old(server.cluster), server.cluster)
    ensures registry.Valid() && Holder(event.Id(), true) !in registry.holders
    ensures registry.instances.Keys == if r.Success? then old(registry.instances.Keys) + {event.Id()} else old(registry.instances.Keys) - {event.Id()}
    ensures r.Success? ==> src == event.modified.SourceRef()
    ensures r.Success? && moved ==> NoCopies(server.cluster, event.Id()) && event.modified.Tracked() == []
    ensures Enlisted(r.Success?, event.Id(), Binding(gvk, src), moved,
                     old(registry.registrations), old(registry.erased), registry.registrations, registry.erased)
    ensures r.Success? ==> ToReport(r.value, gvk, src, Former(old(registry.registrations), event.Id()), moved)
    // A move is decided on the source the ObjectSync names at first.
    ensures moved <==>
              && Holder(event.Id(), false) in old(registry.registrations)
              && old(registry.registrations)[Holder(event.Id(), false)] != Binding(gvk, old(event.modified.SourceRef()))
    ensures server.Calm() && old(event.JustRead(server.cluster)) ==>
              r.Success? && event.JustRead(server.cluster) && src == old(event.modified.SourceRef())
  {
    OrderMeans(registry.Content(), registry.registrations, registry.erased, registry.instances, registry.next);
    ghost var before, erased := registry.registrations, registry.erased;
    KeepsRefl(scope.Minus(event.Id()), server.cluster);
    var active := registry.Lookup(event.Id());
    if active.None? {
      src, moved := event.modified.SourceRef(), false;
      NewIsEnlisted(event.Id(), Binding(gvk, src), before, erased);
      registry.Add(event.Id(), event.modified.SourceRef(), gvk);
      r := Success(Some(RegisteredCondition(gvk, event.modified.SourceRef())));
    } else {
      r, src, moved := Revisit(server, scope, registry, event, active.value, gvk, now, before, erased);
    }
  }

  // ---------------------------------------------------------------------
  // Check

  function ErrorText(e: ControllerError): string {
    match e
    case ApiDiscoveryError => "API discovery failed"
    case ClusterScopedResource => "resource is cluster scoped"
    case DestinationRemovalError => "failed to delete destinations"
    case KubeApi(_) => "API call failed"
  }

  /** Check an ObjectSync that is not being deleted: finalizer first, then
      registration. `discovery` is the resource found for its source. */
  method Check(server: ApiServer, scope: Scope, registry: Registry, event: ObjectSyncModifications,
               discovery: Result<Gvk>, now: string)
    returns (r: Result<()>, ghost enlisted: bool, ghost src: NamespacedName, ghost moved: bool)
    requires server.Valid() && event.Id() in scope.reserved && event.JustRead(server.cluster)
    requires registry.Valid() && Holder(event.Id(), true) !in registry.holders
    modifies event, server, registry
    ensures server.Advanced(scope.Minus(old(event.Id())))
    ensures event.Id() == old(event.Id()) && event.Writable(server.cluster)
    ensures NoNewCopies(event.Id(), old(server.cluster), server.cluster)
    ensures registry.Valid() && Holder(event.Id(), true) !in registry.holders
    ensures registry.instances.Keys - {event.Id()} == old(registry.instances.Keys) - {event.Id()}
    // Nothing is registered before the finalizer is in place.
    ensures Held(old(server.cluster), event.Id()) || (event.Id() in registry.instances && event.Id() !in old(registry.instances)) ==>
              Held(server.cluster, event.Id())
    ensures r.Success? ==> event.Id() in registry.instances
    ensures enlisted && moved ==> NoCopies(server.cluster, event.Id())
    ensures Checked(server.Calm(), r.Success?, discovery, event.Id(), old(event.modified.SourceRef()), event.modified, enlisted, src, moved,
                    old(registry.registrations), old(registry.erased), registry.registrations, registry.erased)
    ensures server.Calm() && discovery.Failure? ==> r == Failure(discovery.error) && event.JustRead(server.cluster)
  {
    ghost var c0, ref, named := server.cluster, event.Id(), event.modified.SourceRef();
    ghost var before, erased := registry.registrations, registry.erased;
    enlisted, src, moved := false, named, false;
    r := AddFinalizer(server, scope, event);
    ghost var c1 := server.cluster;
    if r.Success? && discovery.Failure? {
      r := Failure(discovery.error);
    }
    if r.Success? {
      ghost var asRead, place := event.JustRead(server.cluster), event.modified.SourceRef();
      label finalized:
      r, enlisted, src, moved := EnlistAndReport(server, scope, registry, event, discovery.value, now);
      ghost var calm := server.Calm@finalized() && asRead;
      KeepsTransitive(scope.Minus(ref), c0, c1, server.cluster);
      NoNewCopiesTransitive(ref, c0, c1, server.cluster);
      CheckedSame(calm, server.Calm(), r.Success?, discovery, ref, place, named, event.modified,
                  enlisted, src, moved, before, erased, registry.registrations, registry.erased);
    } else {
      NotChecked(server.Calm(), discovery, ref, named, event.modified, before, erased);
    }
  }

  /** What a check came to: whom it enlisted and for what, what it reported, and that,
      undisturbed, it is the resource discovered and the source named. */
  ghost predicate Checked(calm: bool, ok: bool, discovery: Result<Gvk>, ref: NamespacedName, named: NamespacedName,
                          o: ObjectSync,
                          enlisted: bool, src: NamespacedName, moved: bool, before: map<Holder, Binding>,
                          erasedBefore: set<Holder>, after: map<Holder, Binding>, erased: set<Holder>) {
    forall i: int {:trigger Unseal(i)} :: Unseal(i) ==>
      CheckedParts(i, calm, ok, discovery, ref, named, o, enlisted, src, moved, before, erasedBefore, after, erased)
  }

  ghost predicate CheckedParts(i: int, calm: bool, ok: bool, discovery: Result<Gvk>, ref: NamespacedName,
                               named: NamespacedName,
                               o: ObjectSync, enlisted: bool, src: NamespacedName, moved: bool, before: map<Holder, Binding>,
                               erasedBefore: set<Holder>, after: map<Holder, Binding>, erased: set<Holder>) {
    && Listed(discovery, ref, enlisted, src, moved, before, erasedBefore, after, erased)
    && (ok ==> enlisted && discovery.Success? && Reported(o, discovery.value, src, Former(before, ref), moved))
    && (enlisted && moved ==> o.Tracked() == [])
    && (calm && discovery.Success? ==>
          && ok && src == named
          && (moved <==> Holder(ref, false) in before && before[Holder(ref, false)] != Binding(discovery.value, src)))
  }

  lemma WasChecked(calm: bool, ok: bool, condition: Result<Option<Condition>>, gvk: Gvk, ref: NamespacedName,
                   named: NamespacedName,
                   o: ObjectSync, src: NamespacedName, moved: bool, before: map<Holder, Binding>,
                   erasedBefore: set<Holder>, after: map<Holder, Binding>, erased: set<Holder>)
    requires Enlisted(condition.Success?, ref, Binding(gvk, src), moved, before, erasedBefore, after, erased)
    requires ok ==> condition.Success?
    requires condition.Success? ==>
               && ToReport(condition.value, gvk, src, Former(before, ref), moved)
               && (condition.value.Some? ==> Reports(o, condition.value.value))
               && (moved ==> o.Tracked() == [])
    requires calm ==>
               && ok && src == named
               && (moved <==> Holder(ref, false) in before && before[Holder(ref, false)] != Binding(gvk, named))
    ensures Checked(calm, ok, Success(gvk), ref, named, o, condition.Success?, src, moved, before, erasedBefore, after, erased)
  {
    if condition.Success? {
      WhatIsReported(o, condition.value, gvk, src, Former(before, ref), moved);
    }
    assert CheckedParts(0, calm, ok, Success(gvk), ref, named, o, condition.Success?, src, moved, before, erasedBefore, after, erased);
  }

  lemma CheckedSame(was: bool, calm: bool, ok: bool, discovery: Result<Gvk>, ref: NamespacedName, place: NamespacedName,
                    named: NamespacedName, o: ObjectSync,
                    enlisted: bool, src: NamespacedName, moved: bool, before: map<Holder, Binding>,
                    erasedBefore: set<Holder>, after: map<Holder, Binding>, erased: set<Holder>)
    requires Checked(was, ok, discovery, ref, place, o, enlisted, src, moved, before, erasedBefore, after, erased)
    requires calm ==> was && place == named
    ensures Checked(calm, ok, discovery, ref, named, o, enlisted, src, moved, before, erasedBefore, after, erased)
  {
    assert CheckedParts(0, was, ok, discovery, ref, place, o, enlisted, src, moved, before, erasedBefore, after, erased) by {
      assert Unseal(0);
    }
    assert CheckedParts(0, calm, ok, discovery, ref, named, o, enlisted, src, moved, before, erasedBefore, after, erased);
  }

  lemma NotChecked(calm: bool, discovery: Result<Gvk>, ref: NamespacedName, src: NamespacedName, o: ObjectSync,
                   before: map<Holder, Binding>, erased: set<Holder>)
    requires calm ==> discovery.Failure?
    ensures Checked(calm, false, discovery, ref, src, o, false, src, false, before, erased, before, erased)
  {
    if discovery.Success? {
      NotEnlisted(ref, Binding(discovery.value, src), before, erased);
    }
    assert CheckedParts(0, calm, false, discovery, ref, src, o, false, src, false, before, erased, before, erased);
  }

  lemma NotEnlisted(ref: NamespacedName, binding: Binding, m: map<Holder, Binding>, erased: set<Holder>)
    ensures Enlisted(false, ref, binding, false, m, erased, m, erased)
  {
  }

  /** A registration made or moved shows in the Ready condition: what was registered, and
      where it was moved from. */
  predicate Reported(o: ObjectSync, gvk: Gvk, src: NamespacedName, before: Option<Binding>, moved: bool) {
    match before
    case None =>
      o.Tells("Ready", "True", "Success",
              "Successfully registered with ResourceController " + gvk.group + "/" + gvk.version + "/" + gvk.kind
              + " and source " + src.namespace + "/" + src.name)
    case Some(was) =>
      moved ==>
        o.Tells("Ready", "True", "Success",
                "Successfully moved from ResourceController " + was.gvk.group + "/" + was.gvk.version + "/" + was.gvk.kind
                + " to " + gvk.group + "/" + gvk.version + "/" + gvk.kind
                + " and updated source from " + was.src.namespace + "/" + was.src.name + " to " + src.namespace + "/" + src.name)
  }

  predicate Reports(o: ObjectSync, c: Condition) {
    Stating(FindType(o.Conditions(), c.type_), c.type_, c.status, c.reason, c.message, c.observedGeneration)
  }

  /** Persist the condition to report, if any; a failure needs no report here. */
  method Report(server: ApiServer, scope: Scope, event: ObjectSyncModifications, condition: Result<Option<Condition>>,
                now: string)
    returns (r: Result<()>)
    requires server.Valid() && event.Id() in scope.reserved && event.Writable(server.cluster) && Held(server.cluster, event.Id())
    modifies event, server
    ensures server.Advanced(scope.Minus(old(event.Id())))
    ensures event.Id() == old(event.Id()) && event.Writable(server.cluster)
    ensures Held(server.cluster, event.Id())
    ensures NoNewCopies(event.Id(), old(server.cluster), server.cluster)
    ensures old(NoCopies(server.cluster, event.Id())) ==> NoCopies(server.cluster, event.Id())
    ensures event.modified.StatusDestinations() == old(event.modified.StatusDestinations())
    ensures condition.Failure? ==> r == Failure(condition.error)
    ensures condition.Success? && condition.value.Some? ==> Reports(event.modified, condition.value.value)
    ensures server.Calm() && old(event.JustRead(server.cluster)) && condition.Success? ==> r.Success?
  {
    ghost var c0, ref := server.cluster, event.Id();
    r := if condition.Failure? then Failure(condition.error) else Success(());
    KeepsRefl(scope.Minus(ref), c0);
    if condition.Success? && condition.value.Some? {
      SubmittedIsFound(event.modified.Conditions(), condition.value.value, now);
      r := StoreCondition(server, scope, event, condition.value.value, now);
    }
    if NoCopies(c0, ref) { ListsIsStable(ref, [], c0, server.cluster); }
  }

  /** Register as needed and report it in the Ready condition. */
  method EnlistAndReport(server: ApiServer, scope: Scope, registry: Registry, event: ObjectSyncModifications,
                         gvk: Gvk, now: string)
    returns (r: Result<()>, ghost enlisted: bool, ghost src: NamespacedName, ghost moved: bool)
    requires server.Valid() && event.Id() in scope.reserved && event.Writable(server.cluster)
    requires registry.Valid() && Holder(event.Id(), true) !in registry.holders
    requires Held(server.cluster, event.Id())
    modifies event, server, registry
    ensures server.Advanced(scope.Minus(old(event.Id())))
    ensures event.Id() == old(event.Id()) && event.Writable(server.cluster)
    ensures Held(server.cluster, event.Id())
    ensures NoNewCopies(event.Id(), old(server.cluster), server.cluster)
    ensures registry.Valid() && Holder(event.Id(), true) !in registry.holders
    ensures registry.instances.Keys == if enlisted then old(registry.instances.Keys) + {event.Id()} else old(registry.instances.Keys) - {event.Id()}
    ensures r.Success? ==> enlisted
    ensures enlisted && moved ==> NoCopies(server.cluster, event.Id())
    ensures Checked(server.Calm() && old(event.JustRead(server.cluster)), r.Success?, Success(gvk), event.Id(), old(event.modified.SourceRef()),
                    event.modified, enlisted, src, moved,
                    old(registry.registrations), old(registry.erased), registry.registrations, registry.erased)
    ensures moved <==>
              && Holder(event.Id(), false) in old(registry.registrations)
              && old(registry.registrations)[Holder(event.Id(), false)] != Binding(gvk, old(event.modified.SourceRef()))
    ensures server.Calm() && old(event.JustRead(server.cluster)) ==> r.Success?
  {
    ghost var c0, ref, named, asRead := server.cluster, event.Id(), event.modified.SourceRef(), event.JustRead(server.cluster);
    ghost var before, erased := registry.registrations, registry.erased;
    var condition;
    condition, src, moved := Enlist(server, scope, registry, event, gvk, now);
    enlisted := condition.Success?;
    ghost var c1 := server.cluster;
    r := Report(server, scope, event, condition, now);
    KeepsTransitive(scope.Minus(ref), c0, c1, server.cluster);
    NoNewCopiesTransitive(ref, c0, c1, server.cluster);
    WasChecked(server.Calm() && asRead, r.Success?, condition, gvk, ref, named, event.modified,
               src, moved, before, erased, registry.registrations, registry.erased);
  }

  lemma RegisteredText(gvk: Gvk, src: NamespacedName)
    ensures RegisteredCondition(gvk, src).message ==
            "Successfully registered with ResourceController " + gvk.group + "/" + gvk.version + "/" + gvk.kind
            + " and source " + src.namespace + "/" + src.name
  {
    var head := "Successfully registered with ResourceController ";
    assert head + GvkText(gvk) == head + gvk.group + "/" + gvk.version + "/" + gvk.kind;
    var front := head + GvkText(gvk) + " and source ";
    assert front + RefText(src) == front + src.namespace + "/" + src.name;
  }

  lemma MovedText(was: Binding, gvk: Gvk, src: NamespacedName)
    ensures MovedCondition(was, gvk, src).message ==
            "Successfully moved from ResourceController " + was.gvk.group + "/" + was.gvk.version + "/" + was.gvk.kind
            + " to " + gvk.group + "/" + gvk.version + "/" + gvk.kind
            + " and updated source from " + was.src.namespace + "/" + was.src.name + " to " + src.namespace + "/" + src.name
  {
    var head := "Successfully moved from ResourceController ";
    assert head + GvkText(was.gvk) == head + was.gvk.group + "/" + was.gvk.version + "/" + was.gvk.kind;
    var next := head + GvkText(was.gvk) + " to ";
    assert next + GvkText(gvk) == next + gvk.group + "/" + gvk.version + "/" + gvk.kind;
    var more := next + GvkText(gvk) + " and updated source from ";
    assert more + RefText(was.src) == more + was.src.namespace + "/" + was.src.name;
    var last := more + RefText(was.src) + " to ";
    assert last + RefText(src) == last + src.namespace + "/" + src.name;
  }

  lemma WhatIsReported(o: ObjectSync, condition: Option<Condition>, gvk: Gvk, src: NamespacedName,
                       before: Option<Binding>, moved: bool)
    requires ToReport(condition, gvk, src, before, moved) && (condition.Some? ==> Reports(o, condition.value))
    ensures Reported(o, gvk, src, before, moved)
  {
    RegisteredText(gvk, src);
    if before.Some? { MovedText(before.value, gvk, src); }
  }

  // ---------------------------------------------------------------------
  // Deletion

  function SourceKey(gvk: Gvk, o: ObjectSync): Key {
    Key(gvk.group, gvk.kind, o.SourceNamespace().GetOr(""), o.spec.source.name)
  }

  /** The key of the source object, by the fields of the spec: it is in the namespace the
      spec names, or else in the ObjectSync's own. */
  predicate IsSourceOf(key: Key, gvk: Gvk, o: ObjectSync) {
    && key.group == gvk.group && key.kind == gvk.kind && key.name == o.spec.source.name
    && match o.spec.source.namespace
       case Some(namespace) => key.namespace == namespace
       case None => key.namespace == (match o.namespace case Some(namespace) => namespace case None => "")
  }

  /** The source object, if there is one, does not carry our finalizer. */
  ghost predicate SourceReleased(c: Cluster, discovery: Result<Gvk>, o: ObjectSync) {
    discovery.Success? ==>
      forall key | key in c.objects && IsSourceOf(key, discovery.value, o) ::
        "sync.rustrial.org/rustrial-object-syncer" !in c.objects[key].finalizers
  }

  /** What letting the source object go left in the log: it is read, and at most its finalizers
      are patched. It comes to a failure exactly if the last of these calls failed, not
      finding the object being no failure; without a resource, exactly if discovery itself
      failed and not for want of one. */
  predicate SourceAsked(before: seq<Record>, after: seq<Record>, discovery: Result<Gvk>, o: ObjectSync, r: Result<()>) {
    match discovery
    case Success(gvk) =>
      && before < after && |after| <= |before| + 2
      && after[|before|].Saw? && IsSourceOf(after[|before|].key, gvk, o)
      && Patched(after[..|before| + 1], after, after[|before|].key)
      && (match after[|after| - 1].answer
          case Rejected(error) => r == if error.NotFound? then Success(()) else Failure(KubeApi(error))
          case Accepted => r.Success?)
    case Failure(error) => after == before && r == if error.ApiDiscoveryError? then Success(()) else Failure(error)
  }

  /** Letting the source go comes first, and is all if it fails; otherwise only the
      ObjectSync is read and patched after it. */
  ghost predicate SourceFirst(before: seq<Record>, after: seq<Record>, discovery: Result<Gvk>, o: ObjectSync,
                              r: Result<()>) {
    exists n, asked | |before| <= n <= |after| ::
      && SourceAsked(before, after[..n], discovery, o, asked)
      && (asked.Failure? ==> r == asked && n == |after|)
      && OnlyOnSyncs(after[..n], after)
  }

  lemma AskedFirst(before: seq<Record>, mid: seq<Record>, after: seq<Record>, discovery: Result<Gvk>, o: ObjectSync,
                   asked: Result<()>, r: Result<()>)
    requires SourceAsked(before, mid, discovery, o, asked) && mid <= after
    requires asked.Failure? ==> r == asked && after == mid
    requires OnlyOnSyncs(mid, after)
    ensures SourceFirst(before, after, discovery, o, r)
  {
    assert after[..|mid|] == mid;
  }

  ghost predicate OnlyOnSyncs(before: seq<Record>, after: seq<Record>) {
    && before <= after
    && forall i | |before| <= i < |after| :: after[i].SawSync? || (after[i].Issued? && after[i].call.SetSyncFinalizers?)
  }

  /** Best effort: let the source object go. `Success` also if its resource, or the
      object itself, no longer exists. */
  method ReleaseSourceOf(server: ApiServer, scope: Scope, event: ObjectSyncModifications, discovery: Result<Gvk>)
    returns (r: Result<()>)
    requires server.Valid()
    modifies server
    ensures server.Advanced(scope)
    ensures server.Alone() ==> server.cluster.syncs == old(server.cluster.syncs) && NoneRevived(old(server.cluster), server.cluster)
    ensures server.Calm() ==> (r.Success? <==> discovery.Success? || discovery.error.ApiDiscoveryError?)
    ensures server.Calm() ==> SourceReleased(server.cluster, discovery, event.modified)
    // Disturbed or not, it reads the source, and patches the finalizers of nothing else.
    ensures SourceAsked(old(server.log), server.log, discovery, event.modified, r)
  {
    match discovery
    case Success(gvk) =>
      var key := SourceKey(gvk, event.modified);
      ghost var c0 := server.cluster;
      var source := server.Get(scope, key);
      ghost var c1 := server.cluster;
      if source.Ok? {
        var removed, _ := RemoveFinalizer(server, scope, NamespacedName(key.namespace, key.name), key, source.value, FINALIZER);
        KeepsTransitive(scope, c0, c1, server.cluster);
        r := if removed.Success? then Success(()) else Failure(removed.error);
      } else {
        r := if source.error.NotFound? then Success(()) else Failure(KubeApi(source.error));
      }
    case Failure(error) =>
      KeepsRefl(scope, server.cluster);
      r := if error.ApiDiscoveryError? then Success(()) else Failure(error);
  }

  /** The ObjectSync is being deleted, and no other finalizer holds it. */
  predicate AwaitsUs(o: ObjectSync) {
    && o.terminating && o.finalizers != []
    && forall i | 0 <= i < |o.finalizers| :: o.finalizers[i] == "sync.rustrial.org/rustrial-object-syncer"
  }

  /** Let the ObjectSync itself go, once nothing live is left of it. */
  method DropFinalizer(server: ApiServer, scope: Scope, event: ObjectSyncModifications) returns (r: Result<()>)
    requires server.Valid() && event.Id() in scope.reserved && event.Id() !in scope.pinned
    requires event.Writable(server.cluster) && NoCopies(server.cluster, event.Id())
    requires event.modified == event.original
    modifies event, server
    ensures server.Advanced(scope.Minus(old(event.Id()))) && event.Id() == old(event.Id())
    ensures NoNewCopies(event.Id(), old(server.cluster), server.cluster)
    ensures r.Success? && FINALIZER in old(event.modified).finalizers ==> !Held(server.cluster, event.Id())
    ensures FINALIZER !in old(event.modified).finalizers ==> r.Success? && server.log == old(server.log)
    ensures OnlyOnSyncs(old(server.log), server.log)
    ensures server.Alone() ==> server.cluster.objects == old(server.cluster.objects)
    ensures server.Calm() && old(event.JustRead(server.cluster)) ==> r.Success?
    ensures server.Calm() && old(event.JustRead(server.cluster)) && AwaitsUs(old(event.modified)) ==> event.Id() !in server.cluster.syncs
  {
    r := Success(());
    var finalizers := Dropped(event.modified.finalizers, FINALIZER);
    if AwaitsUs(event.modified) {
      OnlyOursDropped(event.modified.finalizers);
    }
    KeepsRefl(scope.Minus(event.Id()), server.cluster);
    if |finalizers| != |event.modified.finalizers| {
      event.modified := event.modified.(finalizers := finalizers);
      ghost var wanted := event.modified;
      r := event.PatchSpec(server, scope);
      PatchLength(server.Past(), |old(server.log)|, event.Id(), wanted, r);
    }
  }

  /** What an undisturbed deletion achieves. */
  ghost predicate CalmDeletion(a: Cluster, b: Cluster, o: ObjectSync, discovery: Result<Gvk>, ok: bool) {
    && (AllOnlyOurs(a, KeySet(o.Tracked())) ==> AllAbsent(b, KeySet(o.Tracked())))
    && (discovery.Success? || discovery.error.ApiDiscoveryError? ==>
          && ok
          && SourceReleased(b, discovery, o)
          && (AwaitsUs(o) ==> o.Ref() !in b.syncs))
  }

  /** Delete what the ObjectSync made and let it go: deregister, delete all
      destinations, release the source, and only then drop the finalizer. */
  method Delete(server: ApiServer, scope: Scope, registry: Registry, event: ObjectSyncModifications,
                discovery: Result<Gvk>, now: string)
    returns (r: Result<()>)
    requires server.Valid() && event.Id() in scope.reserved && event.Id() !in scope.pinned && event.JustRead(server.cluster)
    requires registry.Valid() && Holder(event.Id(), true) !in registry.holders
    modifies event, server, registry
    ensures server.Advanced(scope.Minus(old(event.Id()))) && event.Id() == old(event.Id())
    ensures NoNewCopies(event.Id(), old(server.cluster), server.cluster)
    ensures registry.Valid() && Holder(event.Id(), true) !in registry.holders
    ensures registry.instances == old(registry.instances) - {event.Id()}
    ensures registry.registrations == old(registry.registrations) - {Holder(event.Id(), false)}
    ensures registry.erased == old(registry.erased) - {Holder(event.Id(), false)}
    ensures r.Success? ==> NoCopies(server.cluster, event.Id())
    ensures r.Success? && FINALIZER in old(event.modified).finalizers ==> !Held(server.cluster, event.Id())
    ensures server.Calm() ==> CalmDeletion(old(server.cluster), server.cluster, old(event.modified), discovery, r.Success?)
  {
    registry.Leave(event.Id());
    r := DeleteDestinationsAndRelease(server, scope, event, discovery, now);
  }

  /** The part of a deletion that involves the API server. */
  method DeleteDestinationsAndRelease(server: ApiServer, scope: Scope, event: ObjectSyncModifications,
                                      discovery: Result<Gvk>, now: string)
    returns (r: Result<()>)
    requires server.Valid() && event.Id() in scope.reserved && event.Id() !in scope.pinned && event.JustRead(server.cluster)
    modifies event, server
    ensures server.Advanced(scope.Minus(old(event.Id()))) && event.Id() == old(event.Id())
    ensures NoNewCopies(event.Id(), old(server.cluster), server.cluster)
    ensures r.Success? ==> NoCopies(server.cluster, event.Id())
    ensures r.Success? && FINALIZER in old(event.modified).finalizers ==> !Held(server.cluster, event.Id())
    ensures server.Calm() ==> CalmDeletion(old(server.cluster), server.cluster, old(event.modified), discovery, r.Success?)
  {
    ghost var c0, ref := server.cluster, event.Id();
    ghost var before := event.modified;
    event.ReadIsWritable(server);
    r := DeleteTracked(server, scope, event, now);
    RemovalMeans(server.Since(), r.Success?, ref, before, event.modified, now);
    if r.Success? {
      ghost var c1 := server.cluster;
      r := ReleaseSourceAndDrop(server, scope, event, discovery);
      KeepsTransitive(scope.Minus(ref), c0, c1, server.cluster);
      NoNewCopiesTransitive(ref, c0, c1, server.cluster);
    }
  }

  /** With nothing live left, release the source and then the ObjectSync. */
  method ReleaseSourceAndDrop(server: ApiServer, scope: Scope, event: ObjectSyncModifications, discovery: Result<Gvk>)
    returns (r: Result<()>)
    requires server.Valid() && event.Id() in scope.reserved && event.Id() !in scope.pinned
    requires event.Writable(server.cluster) && NoCopies(server.cluster, event.Id()) && event.modified == event.original
    modifies event, server
    ensures server.Advanced(scope.Minus(old(event.Id()))) && event.Id() == old(event.Id())
    ensures NoNewCopies(event.Id(), old(server.cluster), server.cluster) && NoCopies(server.cluster, event.Id())
    ensures r.Success? && FINALIZER in old(event.modified).finalizers ==> !Held(server.cluster, event.Id())
    ensures server.Alone() ==> NoneRevived(old(server.cluster), server.cluster)
    ensures SourceFirst(old(server.log), server.log, discovery, old(event.modified), r)
    ensures server.Calm() && old(event.JustRead(server.cluster)) && (discovery.Success? || discovery.error.ApiDiscoveryError?) ==>
              && r.Success?
              && SourceReleased(server.cluster, discovery, old(event.modified))
              && (AwaitsUs(old(event.modified)) ==> event.Id() !in server.cluster.syncs)
  {
    ghost var c0, ref, o := server.cluster, event.Id(), event.modified;
    r := ReleaseSourceOf(server, scope, event, discovery);
    ghost var c1, asked, log := server.cluster, r, server.log;
    event.WritableIsStable(c0, c1);
    ListsIsStable(ref, [], c0, c1);
    if r.Success? {
      r := DropFinalizer(server, scope, event);
      KeepsTransitive(scope.Minus(ref), c0, c1, server.cluster);
      NoNewCopiesTransitive(ref, c0, c1, server.cluster);
      ListsIsStable(ref, [], c1, server.cluster);
    }
    AskedFirst(old(server.log), log, server.log, discovery, o, asked, r);
  }

  // ---------------------------------------------------------------------
  // Reconcile

  function FailedCondition(e: ControllerError): Condition {
    NewCondition(READY, Some(false), FAILURE, ErrorText(e))
  }

  /** A failed check is reported in the Ready condition, and stays a failure. */
  method CheckAndReport(server: ApiServer, scope: Scope, registry: Registry, event: ObjectSyncModifications,
                        discovery: Result<Gvk>, now: string)
    returns (r: Result<()>, ghost reported: bool, ghost enlisted: bool, ghost src: NamespacedName, ghost moved: bool)
    requires server.Valid() && event.Id() in scope.reserved && event.JustRead(server.cluster)
    requires registry.Valid() && Holder(event.Id(), true) !in registry.holders
    modifies event, server, registry
    ensures server.Advanced(scope.Minus(old(event.Id()))) && event.Id() == old(event.Id())
    ensures NoNewCopies(event.Id(), old(server.cluster), server.cluster)
    ensures registry.Valid() && Holder(event.Id(), true) !in registry.holders
    ensures registry.instances.Keys - {event.Id()} == old(registry.instances.Keys) - {event.Id()}
    ensures Held(old(server.cluster), event.Id()) || (event.Id() in registry.instances && event.Id() !in old(registry.instances)) ==>
              Held(server.cluster, event.Id())
    ensures r.Success? ==> event.Id() in registry.instances
    ensures reported ==>
              && r.Failure? && event.modified.status == event.original.status
              && event.modified.Tells("Ready", "False", "Failure", ErrorText(r.error))
    ensures registry.registrations - {Holder(event.Id(), false)} == old(registry.registrations) - {Holder(event.Id(), false)}
    ensures registry.erased - {Holder(event.Id(), false)} == old(registry.erased) - {Holder(event.Id(), false)}
    ensures r.Success? ==> enlisted && discovery.Success?
    ensures Listed(discovery, event.Id(), enlisted, src, moved,
                   old(registry.registrations), old(registry.erased), registry.registrations, registry.erased)
    ensures server.Calm() ==> if discovery.Success? then r.Success? else reported && r == Failure(discovery.error)
    ensures server.Calm() && discovery.Success? ==>
              RegisteredFor(event.Id(), Binding(discovery.value, old(event.modified.SourceRef())),
                            old(registry.registrations), old(registry.erased), registry.registrations, registry.erased)
  {
    ghost var c0, ref, named := server.cluster, event.Id(), event.modified.SourceRef();
    ghost var before, erased := registry.registrations, registry.erased;
    r, enlisted, src, moved := Check(server, scope, registry, event, discovery, now);
    CheckedMeans(server.Calm(), r.Success?, discovery, ref, named, event.modified, enlisted, src, moved, before, erased,
                 registry.registrations, registry.erased);
    ghost var c1 := server.cluster;
    r, reported := ReportFailure(server, scope, event, r, now);
    KeepsTransitive(scope.Minus(ref), c0, c1, server.cluster);
    NoNewCopiesTransitive(ref, c0, c1, server.cluster);
  }

  /** Report a failed check in the Ready condition; there is nothing to do after a success. */
  method ReportFailure(server: ApiServer, scope: Scope, event: ObjectSyncModifications, checked: Result<()>, now: string)
    returns (r: Result<()>, ghost reported: bool)
    requires server.Valid() && event.Id() in scope.reserved && event.Writable(server.cluster)
    modifies event, server
    ensures server.Advanced(scope.Minus(old(event.Id()))) && event.Id() == old(event.Id())
    ensures NoNewCopies(event.Id(), old(server.cluster), server.cluster)
    ensures Held(old(server.cluster), event.Id()) ==> Held(server.cluster, event.Id())
    ensures r.Success? <==> checked.Success?
    ensures checked.Failure? && !reported ==> LastFailedAs(server.log, r.error)
    ensures reported ==>
              && r == checked && r.Failure? && event.modified.status == event.original.status
              && event.modified.Tells("Ready", "False", "Failure", ErrorText(r.error))
    ensures server.Calm() && checked.Failure? && old(event.JustRead(server.cluster)) ==> reported
  {
    KeepsRefl(scope.Minus(event.Id()), server.cluster);
    r, reported := checked, false;
    if checked.Failure? {
      SubmittedIsFound(event.modified.Conditions(), FailedCondition(checked.error), now);
      var written := StoreCondition(server, scope, event, FailedCondition(checked.error), now);
      reported := written.Success?;
      r := if written.Failure? then written else checked;
    }
  }

  /** What a check with this discovery did to the registry: it enlisted the ObjectSync for
      the resource discovered, or nothing if there is none. */
  ghost predicate Listed(discovery: Result<Gvk>, ref: NamespacedName, enlisted: bool, src: NamespacedName, moved: bool,
                         before: map<Holder, Binding>, erasedBefore: set<Holder>,
                         after: map<Holder, Binding>, erased: set<Holder>) {
    if discovery.Success? then Enlisted(enlisted, ref, Binding(discovery.value, src), moved, before, erasedBefore, after, erased)
    else after == before && erased == erasedBefore
  }

  /** The ObjectSync is registered under this binding, and in the index, unless its
      registration under it was lost before. */
  predicate RegisteredFor(ref: NamespacedName, binding: Binding, before: map<Holder, Binding>, erasedBefore: set<Holder>,
                          after: map<Holder, Binding>, erased: set<Holder>) {
    var x := Holder(ref, false);
    && x in after && after[x] == binding
    && (x in erased <==> x in erasedBefore && x in before && before[x] == binding)
  }

  lemma EnlistedIsRegistered(ref: NamespacedName, binding: Binding, moved: bool,
                             before: map<Holder, Binding>, erasedBefore: set<Holder>, after: map<Holder, Binding>, erased: set<Holder>)
    requires Enlisted(true, ref, binding, moved, before, erasedBefore, after, erased)
    requires moved <==> Holder(ref, false) in before && before[Holder(ref, false)] != binding
    ensures RegisteredFor(ref, binding, before, erasedBefore, after, erased)
  {
    assert Unfold(0);
  }

  lemma CheckedMeans(calm: bool, ok: bool, discovery: Result<Gvk>, ref: NamespacedName, named: NamespacedName, o: ObjectSync,
                     enlisted: bool, src: NamespacedName, moved: bool, before: map<Holder, Binding>,
                     erasedBefore: set<Holder>, after: map<Holder, Binding>, erased: set<Holder>)
    requires Checked(calm, ok, discovery, ref, named, o, enlisted, src, moved, before, erasedBefore, after, erased)
    ensures Listed(discovery, ref, enlisted, src, moved, before, erasedBefore, after, erased)
    ensures after - {Holder(ref, false)} == before - {Holder(ref, false)}
    ensures erased - {Holder(ref, false)} == erasedBefore - {Holder(ref, false)}
    ensures ok ==> enlisted && discovery.Success?
    ensures calm && discovery.Success? ==>
              ok && RegisteredFor(ref, Binding(discovery.value, named), before, erasedBefore, after, erased)
  {
    assert CheckedParts(0, calm, ok, discovery, ref, named, o, enlisted, src, moved, before, erasedBefore, after, erased) by {
      assert Unseal(0);
    }
    if discovery.Success? {
      OthersUntouched(enlisted, ref, Binding(discovery.value, src), moved, before, erasedBefore, after, erased);
      if calm {
        EnlistedIsRegistered(ref, Binding(discovery.value, src), moved, before, erasedBefore, after, erased);
      }
    }
  }

  lemma OthersUntouched(ok: bool, ref: NamespacedName, binding: Binding, moved: bool,
                        before: map<Holder, Binding>, erasedBefore: set<Holder>, after: map<Holder, Binding>, erased: set<Holder>)
    requires Enlisted(ok, ref, binding, moved, before, erasedBefore, after, erased)
    ensures after - {Holder(ref, false)} == before - {Holder(ref, false)}
    ensures erased - {Holder(ref, false)} == erasedBefore - {Holder(ref, false)}
  {
    assert Unfold(0);
  }

  /** Reconcile an ObjectSync as just read. A failed check is reported in the Ready condition. */
  method Reconcile(server: ApiServer, scope: Scope, registry: Registry, o: ObjectSync, namespaces: Option<set<string>>,
                   discovery: Result<Gvk>, now: string)
    returns (r: Result<()>, ghost enlisted: bool, ghost src: NamespacedName, ghost moved: bool)
    requires server.Valid() && o.Ref() in scope.reserved && o.Ref() !in scope.pinned
    requires o.Ref() in server.cluster.syncs && server.cluster.syncs[o.Ref()] == o
    requires registry.Valid() && Holder(o.Ref(), true) !in registry.holders
    requires AllHeld(server.cluster, registry.instances.Keys) && registry.instances.Keys <= scope.reserved + scope.pinned
    modifies server, registry
    ensures server.Advanced(scope.Minus(o.Ref()))
    ensures NoNewCopies(o.Ref(), old(server.cluster), server.cluster)
    ensures registry.Valid() && Holder(o.Ref(), true) !in registry.holders
    ensures registry.registrations - {Holder(o.Ref(), false)} == old(registry.registrations) - {Holder(o.Ref(), false)}
    ensures registry.erased - {Holder(o.Ref(), false)} == old(registry.erased) - {Holder(o.Ref(), false)}
    // Whatever is registered is finalized.
    ensures AllHeld(server.cluster, registry.instances.Keys)
    ensures registry.instances.Keys - {o.Ref()} == old(registry.instances.Keys) - {o.Ref()}
    // Outside the namespaces to watch nothing happens; no list, an empty one and a wildcard
    // watch them all.
    ensures
      var home := match o.namespace case Some(namespace) => namespace case None => "";
      var watched := namespaces.None? || namespaces.value == {} || home in namespaces.value || "*" in namespaces.value;
      && (!watched ==> r.Success? && unchanged(server) && unchanged(registry))
      && (!watched || o.terminating ==> !enlisted && !moved)
      && (watched && o.terminating ==> o.Ref() !in registry.instances)
      && (watched && o.terminating && r.Success? ==>
            && NoCopies(server.cluster, o.Ref())
            && (FINALIZER in o.finalizers ==> !Held(server.cluster, o.Ref())))
      && (watched && !o.terminating && r.Success? ==>
            o.Ref() in registry.instances && enlisted && discovery.Success?)
      // A check enlists the ObjectSync for what was discovered and for the source it names.
      && (watched && !o.terminating ==>
            Listed(discovery, o.Ref(), enlisted, src, moved,
                   old(registry.registrations), old(registry.erased), registry.registrations, registry.erased))
      && (watched && server.Calm() && !o.terminating && discovery.Success? ==>
            var source := match o.spec.source.namespace case Some(namespace) => namespace case None => home;
            RegisteredFor(o.Ref(), Binding(discovery.value, NamespacedName(source, o.spec.source.name)),
                          old(registry.registrations), old(registry.erased), registry.registrations, registry.erased))
      && (watched && server.Calm() ==>
            if o.terminating then CalmDeletion(old(server.cluster), server.cluster, o, discovery, r.Success?)
            else r.Success? <==> discovery.Success?)
  {
    ghost var c0, ref, others := server.cluster, o.Ref(), registry.instances.Keys - {o.Ref()};
    r, enlisted, src, moved := Success(()), false, o.SourceRef(), false;
    KeepsRefl(scope.Minus(ref), server.cluster);
    if InNamespaces(namespaces, o.namespace.GetOr("")) {
      var event := new ObjectSyncModifications(o);
      if o.terminating {
        r := Delete(server, scope, registry, event, discovery, now);
      } else {
        var checked, _, made, place, shifted := CheckAndReport(server, scope, registry, event, discovery, now);
        r, enlisted, src, moved := checked, made, place, shifted;
      }
      HeldSurvive(scope.Minus(ref), c0, server.cluster, others);
      assert registry.instances.Keys <= others + {ref};
    }
  }
}
