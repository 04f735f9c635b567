/** Where undisturbed reconciles end, and when they stop writing. */
module Convergence {
  import opened Common
  import opened Apis
  import opened Ordering
  import opened ClusterModel
  import opened ApiServers
  import opened Targets
  import opened Utils
  import opened Upserts

  /** What the plan and the surviving stale entries list. */
  function StoredList(gvk: Gvk, targets: seq<Target>, tracked: seq<DestinationStatus>,
                      remnants: seq<DestinationStatus>): seq<DestinationStatus> {
    StableSort(Planned(gvk, targets, tracked) + remnants)
  }

  lemma StoredKeys(gvk: Gvk, targets: seq<Target>, tracked: seq<DestinationStatus>, remnants: seq<DestinationStatus>)
    ensures KeySet(StoredList(gvk, targets, tracked, remnants)) == TargetKeys(gvk, targets) + KeySet(remnants)
  {
    var plan := Planned(gvk, targets, tracked);
    var list := StoredList(gvk, targets, tracked, remnants);
    StableSortSpec(plan + remnants);
    PlannedKeys(gvk, targets, tracked);
    forall d ensures d in list <==> d in plan || d in remnants {
      assert d in list <==> d in multiset(list);
      assert d in plan + remnants <==> d in multiset(plan + remnants);
    }
    forall k ensures k in KeySet(list) <==> k in KeySet(plan) + KeySet(remnants) {
      if k in KeySet(plan) + KeySet(remnants) {
        var d :| (d in plan || d in remnants) && d.Identity() == k;
        assert d in list;
      }
    }
  }

  /** Where an undisturbed reconcile ends: nothing stale is left, the list holds
      exactly what is expected, and every listed destination is in sync with what
      its last entry records. `tracked` is the list the reconcile started from. */
  ghost predicate Converged(c: Cluster, o: ObjectSync, gvk: Gvk, targets: seq<Target>,
                            tracked: seq<DestinationStatus>, source: Source) {
    var list := o.Tracked();
    && AllAbsent(c, KeySet(Without(TargetKeys(gvk, targets), tracked)))
    && o.StatusDestinations().Some?
    && Plain(list) == Plain(StoredList(gvk, targets, tracked, []))
    && (forall j | 0 <= j < |list| :: LastOfKey(list, j, |list|) ==> Synced(c, list[j], source))
  }

  /** Nothing is left to do for a reconcile. */
  ghost predicate Settled(c: Cluster, o: ObjectSync, gvk: Gvk, targets: seq<Target>, source: Source) {
    var list := o.Tracked();
    && o.StatusDestinations() == Some(StoredList(gvk, targets, list, []))
    && Without(TargetKeys(gvk, targets), list) == []
    && AllClean(c, KeySet(list))
    && AllUpToDate(c, list, {}, source)
  }

  lemma PlanOfTargets(gvk: Gvk, targets: seq<Target>, tracked: seq<DestinationStatus>)
    ensures KeySet(StoredList(gvk, targets, tracked, [])) - KeySet([]) == TargetKeys(gvk, targets)
    ensures KeySet(StoredList(gvk, targets, tracked, [])) == TargetKeys(gvk, targets)
    ensures KeySet(Without(TargetKeys(gvk, targets), tracked)) !! TargetKeys(gvk, targets)
  {
    StoredKeys(gvk, targets, tracked, []);
  }

  lemma SameKeys(a: seq<DestinationStatus>, b: seq<DestinationStatus>)
    requires |a| == |b| && forall j | 0 <= j < |a| :: a[j].Unversioned() == b[j].Unversioned()
    ensures KeySet(a) == KeySet(b)
  {
    forall k ensures k in KeySet(a) <==> k in KeySet(b) {
      if k in KeySet(a) {
        var j :| 0 <= j < |a| && a[j].Identity() == k;
        assert b[j].Unversioned() == a[j].Unversioned() && b[j] in b;
      }
      if k in KeySet(b) {
        var j :| 0 <= j < |b| && b[j].Identity() == k;
        assert a[j].Unversioned() == b[j].Unversioned() && a[j] in a;
      }
    }
  }

  lemma {:induction false} LastEntry(list: seq<DestinationStatus>, n: nat, k: Key) returns (j: nat)
    requires n <= |list| && k in KeySet(list[..n])
    ensures j < n && list[j].Identity() == k && LastOfKey(list, j, n)
  {
    if list[n - 1].Identity() == k {
      return n - 1;
    }
    assert list[..n] == list[..n - 1] + [list[n - 1]];
    KeySetOfAppend(list[..n - 1], list[n - 1]);
    j := LastEntry(list, n - 1, k);
  }

  lemma PlainKeys(a: seq<DestinationStatus>, b: seq<DestinationStatus>)
    requires Plain(a) == Plain(b)
    ensures KeySet(a) == KeySet(b)
  {
    forall j | 0 <= j < |a| ensures a[j].Unversioned() == b[j].Unversioned() {
      assert Plain(a)[j] == Plain(b)[j];
    }
    SameKeys(a, b);
  }

  lemma {:induction false} LastOfGroup(s: seq<DestinationStatus>, j: nat)
    requires j < |s| && forall l | j < l < |s| :: Place(s[l]) != Place(s[j])
    ensures
      var g := Group(s, Place(s[j]));
      g != [] && g[|g| - 1] == s[j]
  {
    var n := |s| - 1;
    if j < n {
      LastOfGroup(s[..n], j);
    }
  }

  /** No later target is at the same place. */
  predicate LastAtPlace(targets: seq<Target>, i: nat)
    requires i < |targets|
  {
    forall l | i < l < |targets| :: !(targets[l].namespace == targets[i].namespace && targets[l].name == targets[i].name)
  }

  /** What is stored is of one group and kind. */
  lemma StoredOfKind(gvk: Gvk, targets: seq<Target>, tracked: seq<DestinationStatus>)
    ensures forall d | d in StoredList(gvk, targets, tracked, []) :: d.group == gvk.group && d.kind == gvk.kind
  {
    var plan := Planned(gvk, targets, tracked);
    assert plan + [] == plan;
    StableSortSpec(plan);
    forall d | d in StableSort(plan) ensures d.group == gvk.group && d.kind == gvk.kind {
      assert d in multiset(StableSort(plan));
      var m :| 0 <= m < |plan| && plan[m] == d;
      PlannedAt(gvk, targets, tracked, m);
    }
  }

  lemma PlannedField(gvk: Gvk, targets: seq<Target>, tracked: seq<DestinationStatus>, i: nat)
    requires i < |targets|
    ensures Place(Planned(gvk, targets, tracked)[i]) == targets[i].Place()
    ensures Planned(gvk, targets, tracked)[i].strategy == targets[i].strategy
  {
    PlannedAt(gvk, targets, tracked, i);
  }

  lemma LastOfPlan(gvk: Gvk, targets: seq<Target>, tracked: seq<DestinationStatus>, i: nat)
    requires i < |targets| && LastAtPlace(targets, i)
    ensures
      var g := Group(Planned(gvk, targets, tracked), targets[i].Place());
      g != [] && g[|g| - 1].strategy == targets[i].strategy
  {
    var plan := Planned(gvk, targets, tracked);
    PlannedField(gvk, targets, tracked, i);
    forall l | i < l < |plan| ensures Place(plan[l]) != Place(plan[i]) {
      PlannedField(gvk, targets, tracked, l);
    }
    LastOfGroup(plan, i);
  }

  /** In the sorted plan, what is last at its place is the entry of the last target there. */
  lemma LastPlanned(gvk: Gvk, targets: seq<Target>, tracked: seq<DestinationStatus>, i: nat, j: nat)
    requires i < |targets| && LastAtPlace(targets, i)
    requires
      var sorted := StoredList(gvk, targets, tracked, []);
      j < |sorted| && Place(sorted[j]) == targets[i].Place() && forall l | j < l < |sorted| :: Place(sorted[l]) != Place(sorted[j])
    ensures StoredList(gvk, targets, tracked, [])[j].strategy == targets[i].strategy
  {
    var plan := Planned(gvk, targets, tracked);
    var sorted := StoredList(gvk, targets, tracked, []);
    assert plan + [] == plan;
    StableSortSpec(plan);
    LastOfGroup(sorted, j);
    LastOfPlan(gvk, targets, tracked, i);
    assert Group(sorted, targets[i].Place()) == Group(plan, targets[i].Place());
  }

  /** Of the stored entries of one key the last is that of the last target there. */
  lemma LastStored(gvk: Gvk, targets: seq<Target>, tracked: seq<DestinationStatus>, list: seq<DestinationStatus>,
                   i: nat, j: nat)
    requires i < |targets| && LastAtPlace(targets, i) && j < |list| && LastOfKey(list, j, |list|)
    requires Plain(list) == Plain(StoredList(gvk, targets, tracked, []))
    requires list[j].Identity() == Entry(gvk, targets[i]).Identity()
    ensures list[j].strategy == targets[i].strategy
  {
    var sorted := StoredList(gvk, targets, tracked, []);
    StoredOfKind(gvk, targets, tracked);
    forall l | 0 <= l < |sorted| ensures Same(list[l], sorted[l]) && sorted[l].group == gvk.group && sorted[l].kind == gvk.kind {
      assert Plain(sorted)[l] == Plain(list)[l];
      assert sorted[l] in sorted;
    }
    assert Same(list[j], sorted[j]);
    forall l | j < l < |sorted| ensures Place(sorted[l]) != Place(sorted[j]) {
      assert Same(list[l], sorted[l]) && list[l].Identity() != list[j].Identity();
    }
    LastPlanned(gvk, targets, tracked, i, j);
  }

  predicate Same(a: DestinationStatus, b: DestinationStatus) {
    a.Identity() == b.Identity() && a.strategy == b.strategy && Place(a) == Place(b)
  }

  /** Convergence in the terms of a user: the status lists exactly the expected keys,
      every expected destination is live and a copy of the source as its strategy asks
      (where targets coincide, the last one's), and whatever else was tracked is gone. */
  lemma ConvergedMeans(c: Cluster, o: ObjectSync, gvk: Gvk, targets: seq<Target>, tracked: seq<DestinationStatus>,
                       source: Source)
    requires Converged(c, o, gvk, targets, tracked, source)
    ensures KeySet(o.Tracked()) == TargetKeys(gvk, targets)
    ensures forall k | k in TargetKeys(gvk, targets) ::
              && k in c.objects && !c.objects[k].terminating && OnlyOurs(c.objects[k])
              && CoveredBy(source.Template(), c.objects[k].payload)
    ensures forall k | k in KeySet(tracked) && k !in TargetKeys(gvk, targets) :: k !in c.objects
    ensures forall i | 0 <= i < |targets| ::
              var k := Key(gvk.group, gvk.kind, targets[i].namespace, targets[i].name);
              && k in c.objects && !c.objects[k].terminating
              && Carries(c.objects[k].payload, source)
              && (LastAtPlace(targets, i) ==> CopyOf(c.objects[k].payload, source, targets[i].strategy))
  {
    var list := o.Tracked();
    PlainKeys(list, StoredList(gvk, targets, tracked, []));
    PlanOfTargets(gvk, targets, tracked);
    forall k | k in TargetKeys(gvk, targets)
      ensures k in c.objects && !c.objects[k].terminating && OnlyOurs(c.objects[k])
              && CoveredBy(source.Template(), c.objects[k].payload)
    {
      assert list[..|list|] == list;
      var j := LastEntry(list, |list|, k);
      assert Synced(c, list[j], source);
    }
    forall i | 0 <= i < |targets|
      ensures
        var k := Key(gvk.group, gvk.kind, targets[i].namespace, targets[i].name);
        && k in c.objects && !c.objects[k].terminating
        && Carries(c.objects[k].payload, source)
        && (LastAtPlace(targets, i) ==> CopyOf(c.objects[k].payload, source, targets[i].strategy))
    {
      var k := Entry(gvk, targets[i]).Identity();
      assert targets[i] in targets && k in TargetKeys(gvk, targets);
      assert list[..|list|] == list;
      var j := LastEntry(list, |list|, k);
      assert Synced(c, list[j], source);
      SyncedHoldsCopy(c, list[j], source);
      if LastAtPlace(targets, i) {
        LastStored(gvk, targets, tracked, list, i, j);
      }
    }
    forall k | k in KeySet(tracked) && k !in TargetKeys(gvk, targets) ensures k !in c.objects {
      var d :| d in tracked && d.Identity() == k;
      assert d in Without(TargetKeys(gvk, targets), tracked);
    }
  }

  /** Sorting does not look at revisions. */
  lemma SortPlain(s: seq<DestinationStatus>)
    ensures StableSort(Plain(s)) == Plain(StableSort(s))
  {
    var sorted := StableSort(s);
    StableSortSpec(s);
    StableSortSpec(Plain(s));
    forall p ensures Group(StableSort(Plain(s)), p) == Group(Plain(sorted), p) {
      PlainGroup(sorted, p);
      PlainGroup(s, p);
      assert Group(sorted, p) == Group(s, p);
      assert Group(StableSort(Plain(s)), p) == Group(Plain(s), p);
    }
    assert Sorted(Plain(sorted)) by {
      forall i, j | 0 <= i < j < |sorted| ensures PlaceLeq(Place(Plain(sorted)[i]), Place(Plain(sorted)[j])) {
        assert Place(Plain(sorted)[i]) == Place(sorted[i]) && Place(Plain(sorted)[j]) == Place(sorted[j]);
      }
    }
    SortedIsDetermined(StableSort(Plain(s)), Plain(sorted));
  }

  /** Apart from revisions, what is stored does not depend on what was tracked. */
  lemma PlainStored(gvk: Gvk, targets: seq<Target>, a: seq<DestinationStatus>, b: seq<DestinationStatus>)
    ensures Plain(StoredList(gvk, targets, a, [])) == Plain(StoredList(gvk, targets, b, []))
  {
    var x, y := Planned(gvk, targets, a), Planned(gvk, targets, b);
    assert x + [] == x && y + [] == y;
    assert Plain(x) == Plain(y) by {
      forall i | 0 <= i < |targets| ensures Plain(x)[i] == Plain(y)[i] {
        PlannedAt(gvk, targets, a, i);
        PlannedAt(gvk, targets, b, i);
      }
    }
    SortPlain(x);
    SortPlain(y);
  }

  /** A converged state has converged from its own list, too. */
  lemma ConvergedAgain(c: Cluster, o: ObjectSync, gvk: Gvk, targets: seq<Target>, tracked: seq<DestinationStatus>,
                       source: Source)
    requires Converged(c, o, gvk, targets, tracked, source)
    ensures Converged(c, o, gvk, targets, o.Tracked(), source)
    ensures KeySet(Without(TargetKeys(gvk, targets), o.Tracked())) == {}
  {
    PlainStored(gvk, targets, tracked, o.Tracked());
    ConvergedMeans(c, o, gvk, targets, tracked, source);
    assert forall d | d in o.Tracked() :: d.Identity() in KeySet(o.Tracked());
  }

  /** The same from the spec: after convergence, wherever a spec entry asks for a copy in a
      live namespace, other than for the source itself, there is one; and if no two
      entries ask for the same place, it is exactly what its entry asks for. */
  lemma SpecIsServed(c: Cluster, o: ObjectSync, after: ObjectSync, gvk: Gvk, cache: seq<Namespace>,
                     tracked: seq<DestinationStatus>, source: Source, d: Destination, t: Target)
    requires Converged(c, after, gvk, Expected(o, cache), tracked, source) && DistinctNames(cache)
    requires d in o.spec.destinations && Asks(d, o, t) && Namespace(t.namespace, false) in cache
    ensures
      var k := Key(gvk.group, gvk.kind, t.namespace, t.name);
      && k in c.objects && !c.objects[k].terminating && Carries(c.objects[k].payload, source)
      && (DistinctTargets(Expected(o, cache)) && d.strategy == Some(SyncStrategy.Replace) ==> CarriesOnly(c.objects[k].payload, source))
  {
    var targets := Expected(o, cache);
    ExpectedMeaning(o.spec.destinations, o, cache, t);
    var i :| 0 <= i < |targets| && targets[i] == t;
    ConvergedMeans(c, after, gvk, targets, tracked, source);
    if DistinctTargets(targets) {
      assert LastAtPlace(targets, i) by {
        forall l | i < l < |targets| ensures !(targets[l].namespace == targets[i].namespace && targets[l].name == targets[i].name) {
          assert targets[i].Place() != targets[l].Place();
        }
      }
    }
  }

  lemma TwoInGroup(s: seq<DestinationStatus>, i: nat, j: nat)
    requires i < j < |s| && Place(s[i]) == Place(s[j])
    ensures |Group(s, Place(s[j]))| >= 2
  {
    var a, b := s[..j], s[j..];
    assert s == a + b;
    GroupOfConcat(a, b, Place(s[j]));
    assert a[i] in Group(a, Place(s[j]));
    assert b[0] in Group(b, Place(s[j]));
  }

  /** Distinct targets give one stored entry per place. */
  lemma StoredOnce(gvk: Gvk, targets: seq<Target>, tracked: seq<DestinationStatus>, stored: seq<DestinationStatus>,
                   i: nat, j: nat)
    requires DistinctTargets(targets)
    requires Plain(stored) == Plain(StableSort(Planned(gvk, targets, tracked)))
    requires i < j < |stored|
    ensures Place(stored[i]) != Place(stored[j])
  {
    var p := Place(stored[j]);
    var sorted := StableSort(Planned(gvk, targets, tracked));
    StableSortSpec(Planned(gvk, targets, tracked));
    assert Group(sorted, p) == Group(Planned(gvk, targets, tracked), p);
    PlannedAtPlace(gvk, targets, tracked, p);
    AtMostOnePerPlace(targets, p);
    PlainGroup(stored, p);
    PlainGroup(sorted, p);
    assert |Group(stored, p)| == |Plain(Group(stored, p))| == |Group(sorted, p)|;
    if Place(stored[i]) == p {
      TwoInGroup(stored, i, j);
    }
  }

  /** If no two spec destinations resolve to the same place, a converged state is a
      settled one: the next reconcile has nothing to do. */
  lemma DistinctSettles(c: Cluster, o: ObjectSync, gvk: Gvk, targets: seq<Target>, tracked: seq<DestinationStatus>,
                        source: Source)
    requires Converged(c, o, gvk, targets, tracked, source) && DistinctTargets(targets)
    ensures Settled(c, o, gvk, targets, source)
  {
    var list := o.Tracked();
    var plan := Planned(gvk, targets, tracked);
    assert plan + [] == plan;
    assert Planned(gvk, targets, list) + [] == Planned(gvk, targets, list);
    StoredListIsFixpoint(gvk, targets, tracked, list);
    ConvergedMeans(c, o, gvk, targets, tracked, source);
    forall j | 0 <= j < |list| ensures UpToDate(c, list[j], source) {
      assert LastOfKey(list, j, |list|) by {
        forall l | j < l < |list| ensures list[l].Identity() != list[j].Identity() {
          StoredOnce(gvk, targets, tracked, list, j, l);
        }
      }
      assert Synced(c, list[j], source);
    }
  }

  /** With overlapping spec destinations the list stored next has an entry without
      revisions: the second one for a place never carries them over. */
  lemma OverlapForgets(gvk: Gvk, targets: seq<Target>, tracked: seq<DestinationStatus>, i: nat, j: nat)
    returns (d: DestinationStatus)
    requires i < j < |targets| && targets[i].Place() == targets[j].Place()
    ensures d in StoredList(gvk, targets, tracked, []) && d.sourceVersion == None
  {
    var plan := Planned(gvk, targets, tracked);
    PlannedAt(gvk, targets, tracked, j);
    d := plan[j];
    assert plan + [] == plan;
    StableSortSpec(plan);
    assert d in multiset(plan) && d in multiset(StableSort(plan));
  }

  /** So no state is settled. */
  lemma OverlapNeverSettles(c: Cluster, o: ObjectSync, gvk: Gvk, targets: seq<Target>, source: Source, i: nat, j: nat)
    requires i < j < |targets| && targets[i].Place() == targets[j].Place()
    ensures !Settled(c, o, gvk, targets, source)
  {
    var list := o.Tracked();
    var d := OverlapForgets(gvk, targets, list, i, j);
    if list == StoredList(gvk, targets, list, []) {
      var l :| 0 <= l < |list| && list[l] == d;
      assert !UpToDate(c, list[l], source);
    }
  }

  /** Exactly when a converged state is settled. */
  lemma SettledIffDistinct(c: Cluster, o: ObjectSync, gvk: Gvk, targets: seq<Target>, tracked: seq<DestinationStatus>,
                           source: Source)
    requires Converged(c, o, gvk, targets, tracked, source)
    ensures Settled(c, o, gvk, targets, source) <==> DistinctTargets(targets)
  {
    if DistinctTargets(targets) {
      DistinctSettles(c, o, gvk, targets, tracked, source);
    } else {
      var i, j :| 0 <= i < j < |targets| && targets[i].Place() == targets[j].Place();
      OverlapNeverSettles(c, o, gvk, targets, source, i, j);
    }
  }

  /** Overlap is a matter of the spec: an entry for one namespace and an entry for all
      of them, under the same name, resolve to the same place as soon as that namespace exists. */
  lemma OverlapHappens(ref: NamespacedName, source: SourceObject, namespace: string)
    returns (o: ObjectSync, cache: seq<Namespace>)
    requires namespace != "" && source.namespace.GetOr(ref.namespace) != namespace
    ensures o.Ref() == ref && o.spec.source == source && |o.spec.destinations| == 2
    ensures DistinctNames(cache) && Expected(o, cache) == [Target(namespace, source.name, None), Target(namespace, source.name, None)]
    ensures !DistinctTargets(Expected(o, cache))
  {
    var one, all := Destination(None, namespace, None), Destination(None, "*", None);
    o := ObjectSync(Some(ref.namespace), ref.name, 0, 0, [], false, ObjectSyncSpec(source, [one, all]), None);
    cache := [Namespace(namespace, false)];
    var t := Target(namespace, source.name, None);
    forall d | d == one || d == all ensures TargetsOf(d, o, cache) == [t] {
      EnumerationIsUniformFilter(d, o, cache);
      assert cache[..0] == [];
      assert Admitted(d, o, []) == [];
      assert d.AppliesTo(o, namespace) == Some((namespace, source.name));
    }
    var ds := [one, all];
    assert ds[..1] == [one] && ds[..1][..0] == [];
    assert ExpectedOf([], o, cache) == [];
    assert ExpectedOf([one], o, cache) == [t];
    assert ExpectedOf(ds, o, cache) == [t] + [t];
    assert [t, t][0].Place() == [t, t][1].Place();
  }

  /** A settled state is settled however the namespace cache enumerates. */
  lemma SettledInAnyOrder(c: Cluster, o: ObjectSync, gvk: Gvk, c1: seq<Namespace>, c2: seq<Namespace>, source: Source)
    requires DistinctNames(c1) && DistinctNames(c2) && multiset(c1) == multiset(c2)
    requires Settled(c, o, gvk, Expected(o, c1), source)
    ensures Settled(c, o, gvk, Expected(o, c2), source)
  {
    CacheOrderIndependence(gvk, o, c1, c2, o.Tracked(), []);
  }

  lemma {:induction false} AdmittedDependsOn(d: Destination, o1: ObjectSync, o2: ObjectSync, cache: seq<Namespace>)
    requires o1.spec == o2.spec && o1.namespace == o2.namespace
    ensures Admitted(d, o1, cache) == Admitted(d, o2, cache)
  {
    if cache != [] {
      AdmittedDependsOn(d, o1, o2, cache[..|cache| - 1]);
    }
  }

  /** What is expected depends on the spec, the ObjectSync's namespace and the cache. */
  lemma {:induction false} ExpectedDependsOn(ds: seq<Destination>, o1: ObjectSync, o2: ObjectSync, cache: seq<Namespace>)
    requires o1.spec == o2.spec && o1.namespace == o2.namespace
    ensures ExpectedOf(ds, o1, cache) == ExpectedOf(ds, o2, cache)
  {
    if ds != [] {
      ExpectedDependsOn(ds[..|ds| - 1], o1, o2, cache);
      AdmittedDependsOn(ds[|ds| - 1], o1, o2, cache);
    }
  }

  /** After an undisturbed reconcile, with spec, namespaces and destinations
      unchanged, the next reconcile from a fresh read finds everything settled,
      in whatever order the cache then lists the namespaces. */
  lemma SecondReconcileIsSettled(c1: Cluster, o1: ObjectSync, before: ObjectSync, cache1: seq<Namespace>,
                                 c2: Cluster, o2: ObjectSync, cache2: seq<Namespace>, gvk: Gvk, source: Source)
    requires Converged(c1, o1, gvk, Expected(before, cache1), before.Tracked(), source)
    requires DistinctTargets(Expected(before, cache1))
    requires c2.objects == c1.objects && o2.StatusDestinations() == o1.StatusDestinations()
    requires o2.spec == before.spec && o2.namespace == before.namespace
    requires DistinctNames(cache1) && DistinctNames(cache2) && multiset(cache1) == multiset(cache2)
    ensures Settled(c2, o2, gvk, Expected(o2, cache2), source)
  {
    DistinctSettles(c1, o1, gvk, Expected(before, cache1), before.Tracked(), source);
    ExpectedDependsOn(before.spec.destinations, before, o2, cache1);
    SettledInAnyOrder(c2, o2, gvk, cache1, cache2, source);
  }
}
