/** Reconciling one ObjectSync for its source object. */
module ResourceControllers {
  import opened Common
  import opened Apis
  import opened Ordering
  import opened ClusterModel
  import opened Interference
  import opened Runs
  import opened ApiServers
  import opened Modifications
  import opened Targets
  import opened Utils
  import opened Upserts
  import opened Convergence

  const IN_SYNC := "InSync"
  const SUCCESS := "Success"
  const FAILURE := "Failure"

  function Decimal(n: nat): string {
    if n < 10 then [('0' as int + n) as char] else Decimal(n / 10) + Decimal(n % 10)
  }

  /** The number a decimal text stands for. */
  function Value(text: string): int {
    if text == [] then 0 else 10 * Value(text[..|text| - 1]) + (text[|text| - 1] as int - '0' as int)
  }

  /** Counts are written in decimal, without leading zeros. */
  lemma {:induction false} DecimalIsExact(n: nat)
    ensures Value(Decimal(n)) == n
    ensures Decimal(n) != [] && forall i | 0 <= i < |Decimal(n)| :: '0' <= Decimal(n)[i] <= '9'
    ensures n > 0 ==> Decimal(n)[0] != '0'
  {
    if n < 10 {
      assert Value([]) == 0;
      assert Decimal(n)[..0] == [];
    } else {
      var front, last := Decimal(n / 10), Decimal(n % 10);
      DecimalIsExact(n / 10);
      assert last == [('0' as int + n % 10) as char];
      assert Decimal(n) == front + last && Decimal(n)[..|front|] == front;
    }
  }

  function InSyncCondition(expected: nat, observed: nat): Condition {
    var ok := expected == observed;
    NewCondition(IN_SYNC, Some(ok), if ok then SUCCESS else FAILURE,
                 Decimal(observed) + " out of " + Decimal(expected) + " destinations are in sync")
  }

  /** Match the expected targets against the tracked list: every expected target
      takes its entry out of the list; what remains is stale. */
  method MatchTargets(gvk: Gvk, targets: seq<Target>, tracked: seq<DestinationStatus>)
    returns (expected: seq<DestinationStatus>, stale: seq<DestinationStatus>)
    ensures expected == Planned(gvk, targets, tracked)
    ensures stale == Without(TargetKeys(gvk, targets), tracked)
    // Field by field: who is planned, and who is left over.
    ensures |expected| == |targets| && forall i | 0 <= i < |targets| :: EntryFor(expected[i], gvk, targets[i])
    ensures forall d :: d in stale <==>
              d in tracked && !exists t :: t in targets && AtTarget(d, gvk, t)
  {
    expected, stale := [], tracked;
    WithoutNothing({}, tracked);
    assert TargetKeys(gvk, targets[..0]) == {};
    for i := 0 to |targets|
      invariant expected == Planned(gvk, targets[..i], tracked)
      invariant stale == Without(TargetKeys(gvk, targets[..i]), tracked)
    {
      var key := Entry(gvk, targets[i]).Identity();
      MatchStep(gvk, targets[..i], targets[i], tracked);
      assert targets[..i + 1] == targets[..i] + [targets[i]];
      var found := FindTracked(stale, key);
      if found.Some? {
        stale := Without({key}, stale);
      }
      expected := expected + [Carried(gvk, targets[i], found)];
    }
    assert targets[..|targets|] == targets;
    PlanInFields(gvk, targets, tracked);
  }

  /** The entry is at the target's place and of its kind. */
  predicate AtTarget(d: DestinationStatus, gvk: Gvk, t: Target) {
    d.group == gvk.group && d.kind == gvk.kind && d.namespace == t.namespace && d.name == t.name
  }

  lemma PlanInFields(gvk: Gvk, targets: seq<Target>, tracked: seq<DestinationStatus>)
    ensures forall i | 0 <= i < |targets| :: EntryFor(Planned(gvk, targets, tracked)[i], gvk, targets[i])
    ensures forall d :: d in Without(TargetKeys(gvk, targets), tracked) <==>
              d in tracked && !exists t :: t in targets && AtTarget(d, gvk, t)
  {
    forall i | 0 <= i < |targets| ensures EntryFor(Planned(gvk, targets, tracked)[i], gvk, targets[i]) {
      PlannedAt(gvk, targets, tracked, i);
    }
    forall d: DestinationStatus
      ensures d.Identity() in TargetKeys(gvk, targets) <==> exists t :: t in targets && AtTarget(d, gvk, t) {
      if t :| t in targets && AtTarget(d, gvk, t) {
        assert Entry(gvk, t).Identity() == d.Identity();
      }
      if d.Identity() in TargetKeys(gvk, targets) {
        var t :| t in targets && Entry(gvk, t).Identity() == d.Identity();
        assert AtTarget(d, gvk, t);
      }
    }
  }

  /** One more target: what is searched, found, kept and planned. */
  lemma MatchStep(gvk: Gvk, targets: seq<Target>, t: Target, tracked: seq<DestinationStatus>)
    ensures
      var key := Entry(gvk, t).Identity();
      var stale := Without(TargetKeys(gvk, targets), tracked);
      var found := FindTracked(stale, key);
      && Planned(gvk, targets + [t], tracked) == Planned(gvk, targets, tracked) + [Carried(gvk, t, found)]
      && Without(TargetKeys(gvk, targets + [t]), tracked) == if found.Some? then Without({key}, stale) else stale
  {
    var key := Entry(gvk, t).Identity();
    var keys := TargetKeys(gvk, targets);
    assert (targets + [t])[..|targets|] == targets;
    TargetKeysOfAppend(gvk, targets, t);
    FindInWithout(keys, key, tracked);
    WithoutTwice(keys, key, tracked);
    if FindTracked(Without(keys, tracked), key).None? {
      WithoutNothing({key}, Without(keys, tracked));
    }
  }

  lemma TargetKeysOfAppend(gvk: Gvk, targets: seq<Target>, t: Target)
    ensures TargetKeys(gvk, targets + [t]) == TargetKeys(gvk, targets) + {Entry(gvk, t).Identity()}
  {
    assert forall x :: x in targets + [t] <==> x in targets || x == t;
  }

  lemma {:induction false} SubsequenceLength<T(!new)>(a: seq<T>, b: seq<T>)
    requires Subsequence(a, b)
    ensures |a| <= |b|
  {
    if a != [] {
      if a[|a| - 1] == b[|b| - 1] && Subsequence(a[..|a| - 1], b[..|b| - 1]) {
        SubsequenceLength(a[..|a| - 1], b[..|b| - 1]);
      } else {
        SubsequenceLength(a, b[..|b| - 1]);
      }
    }
  }

  /** A carried entry records nothing the tracked one did not. */
  lemma PlannedIsTruthful(history: map<nat, Snapshot>, gvk: Gvk, targets: seq<Target>, tracked: seq<DestinationStatus>)
    requires Truthful(history, tracked)
    ensures Truthful(history, Planned(gvk, targets, tracked))
  {
    var plan := Planned(gvk, targets, tracked);
    forall d | d in plan ensures RecordIsTrue(history, d) {
      var i :| 0 <= i < |plan| && plan[i] == d;
      PlannedAt(gvk, targets, tracked, i);
      var found := FindTracked(tracked, d.Identity());
      if d.sourceVersion.Some? {
        assert RecordIsTrue(history, found.value);
      }
    }
  }

  /** The list to be stored covers every live copy and records nothing false: a
      dropped entry was stale, and no live copy of it is left. */
  lemma StoredListIsSafe(c: Cluster, ref: NamespacedName, gvk: Gvk, targets: seq<Target>,
                         tracked: seq<DestinationStatus>, remnants: seq<DestinationStatus>)
    requires Lists(c, ref, tracked) && Truthful(c.history, tracked)
    requires Subsequence(remnants, Without(TargetKeys(gvk, targets), tracked))
    requires NoneLiveFor(c, ref, KeySet(Without(TargetKeys(gvk, targets), tracked)), KeySet(remnants))
    ensures Lists(c, ref, StoredList(gvk, targets, tracked, remnants))
    ensures Truthful(c.history, StoredList(gvk, targets, tracked, remnants))
  {
    var stale := Without(TargetKeys(gvk, targets), tracked);
    var list := StoredList(gvk, targets, tracked, remnants);
    SubsequenceMembers(remnants, stale);
    StoredKeys(gvk, targets, tracked, remnants);
    forall k | k in c.objects && LiveFor(c, ref, k) ensures k in KeySet(list) {
      assert k in KeySet(tracked);
      var d :| d in tracked && d.Identity() == k;
      if k !in TargetKeys(gvk, targets) {
        assert d in stale && k in KeySet(stale);
      }
    }
    PlannedIsTruthful(c.history, gvk, targets, tracked);
    StableSortSpec(Planned(gvk, targets, tracked) + remnants);
    forall d | d in list ensures RecordIsTrue(c.history, d) {
      assert d in multiset(list);
      assert d in Planned(gvk, targets, tracked) + remnants;
    }
  }

  /** Delete the stale entries of an ObjectSync. Afterwards the list to be stored
      is safe: it covers every live copy and records nothing false. */
  method DeleteStale(server: ApiServer, scope: Scope, event: ObjectSyncModifications, gvk: Gvk, targets: seq<Target>,
                     stale: seq<DestinationStatus>)
    returns (r: Result<seq<DestinationStatus>>)
    requires server.Valid() && event.Id() in scope.reserved
    requires event.Fresh(server.cluster) && event.modified.status == event.original.status
    requires stale == Without(TargetKeys(gvk, targets), event.modified.Tracked())
    modifies server
    ensures server.Advanced(scope)
    ensures event.Fresh(server.cluster) && event.Writable(server.cluster)
    ensures Cleared(server.Since(), stale, r)
    ensures |server.log| <= |old(server.log)| + 3 * |stale|
    ensures r.Success? ==>
              && Subsequence(r.value, stale)
              && Lists(server.cluster, event.Id(), StoredList(gvk, targets, event.modified.Tracked(), r.value))
              && Truthful(server.cluster.history, StoredList(gvk, targets, event.modified.Tracked(), r.value))
  {
    FreshIsWritable(server, event);
    ghost var c0 := server.cluster;
    r := DeleteDestinations(server, scope, event.Id(), stale);
    BulkClears(event.Id(), server.Since(), stale, r);
    event.WritableIsStable(c0, server.cluster);
    if r.Success? {
      StoredListIsSafe(server.cluster, event.Id(), gvk, targets, event.modified.Tracked(), r.value);
    }
  }

  /** What deleting the stale entries did. */
  ghost predicate Cleared(s: Stretch, stale: seq<DestinationStatus>, r: Result<seq<DestinationStatus>>) {
    forall i: int {:trigger Unseal(i)} :: Unseal(i) ==> ClearedParts(i, s, stale, r)
  }

  ghost predicate ClearedParts(i: int, s: Stretch, stale: seq<DestinationStatus>, r: Result<seq<DestinationStatus>>) {
    && (r.Success? ==> Subsequence(r.value, stale))
    && (s.alone ==> SameObjects(KeySet(stale), s.start, s.end))
    && (s.calm ==> r == Success([]))
    && (s.calm && AllOnlyOurs(s.start, KeySet(stale)) ==> AllAbsent(s.end, KeySet(stale)))
    && (stale == [] ==> r == Success([]) && s.end == s.start && s.idle)
    && (s.calm && s.idle ==> stale == [])
    && Confined(s.before, s.after, KeySet(stale), {})
    && s.logBefore <= s.logAfter
    && (r.Success? ==> AllRefused(s, r.value))
    && (r.Failure? ==> EndsUnread(s, KeySet(stale)))
  }

  /** The deletion of each of these was refused. */
  ghost predicate AllRefused(s: Stretch, remnants: seq<DestinationStatus>) {
    forall d | d in remnants :: Refused(s, d.Identity())
  }

  lemma BulkClears(ref: NamespacedName, s: Stretch, stale: seq<DestinationStatus>, r: Result<seq<DestinationStatus>>)
    requires BulkDeleted(ref, true, s, stale, r)
    ensures Cleared(s, stale, r)
    ensures r.Success? ==> NoneLiveFor(s.end, ref, KeySet(stale), KeySet(r.value)) && Subsequence(r.value, stale)
    ensures s.calm ==> r == Success([])
    ensures s.alone ==> s.end.syncs == s.start.syncs
  {
    assert Unseal(0);
  }

  lemma FreshIsWritable(server: ApiServer, event: ObjectSyncModifications)
    requires server.Valid() && event.Fresh(server.cluster) && event.modified.status == event.original.status
    ensures event.Writable(server.cluster)
  {
    server.IsSound();
    PersistedLists(server.cluster, event.Id());
    assert server.cluster.syncs[event.Id()].Tracked() == event.modified.Tracked();
    assert Truthful(server.cluster.history, server.cluster.syncs[event.Id()].Tracked());
  }

  /** Record a list of destinations in the status. */
  method StoreDestinations(server: ApiServer, scope: Scope, event: ObjectSyncModifications,
                           list: seq<DestinationStatus>)
    returns (r: Result<()>)
    requires server.Valid() && event.Id() in scope.reserved
    requires event.Fresh(server.cluster) && event.modified.status == event.original.status
    requires Lists(server.cluster, event.Id(), list) && Truthful(server.cluster.history, list)
    modifies event, server
    ensures server.Advanced(scope.Minus(old(event.Id())))
    ensures event.Id() == old(event.Id()) && event.modified.uid == old(event.modified.uid)
    ensures Held(server.cluster, event.Id()) && event.Writable(server.cluster)
    ensures event.modified.status == old(event.modified).WithDestinations(list).status
    ensures r.Success? ==> event.Fresh(server.cluster) && event.modified.status == event.original.status
    ensures server.Alone() ==> server.cluster.objects == old(server.cluster.objects)
    ensures server.Calm() ==> r.Success?
    ensures |server.log| <= |old(server.log)| + 2
    ensures Confined(old(server.issued), server.issued, {}, {})
    ensures r.Failure? ==> EndsUnstored(server.Since(), event.Id())
    ensures r.Success? && old(event.modified.StatusDestinations()) != Some(list) ==> server.writes > old(server.writes)
    ensures old(event.modified.StatusDestinations()) == Some(list) ==>
              && r.Success? && server.cluster == old(server.cluster) && server.writes == old(server.writes) && server.Calm()
              && event.modified == old(event.modified) && event.original == old(event.original)
  {
    event.UpdateDestinations(list);
    r := event.ReplaceStatus(server, scope);
  }

  // ---------------------------------------------------------------------
  // First half: what is recorded before anything is created

  /** What the first half of a reconcile did. */
  ghost predicate Prepared(s: Stretch, before: ObjectSync, after: ObjectSync, gvk: Gvk, targets: seq<Target>,
                           r: Result<seq<DestinationStatus>>) {
    forall i: int {:trigger Unfold(i)} :: Unfold(i) ==> PreparedList(i, s, before, after, gvk, targets, r)
  }

  ghost predicate PreparedList(i: int, s: Stretch, before: ObjectSync, after: ObjectSync, gvk: Gvk,
                               targets: seq<Target>, r: Result<seq<DestinationStatus>>) {
    var tracked := before.Tracked();
    var stale := Without(TargetKeys(gvk, targets), tracked);
    && (r.Success? ==>
          && Subsequence(r.value, stale)
          && after.StatusDestinations() == Some(StoredList(gvk, targets, tracked, r.value))
          && after.Conditions() == before.Conditions())
    && (s.alone ==> SameObjects(KeySet(stale), s.start, s.end))
    && (s.calm ==> r == Success([]))
    && (s.calm && AllOnlyOurs(s.start, KeySet(stale)) ==> AllAbsent(s.end, KeySet(stale)))
    && (s.calm && stale == [] && before.StatusDestinations() == Some(StoredList(gvk, targets, tracked, [])) ==>
          s.idle && s.end == s.start && after == before)
    && (s.calm && s.idle ==> stale == [] && before.StatusDestinations() == Some(StoredList(gvk, targets, tracked, [])))
    && Confined(s.before, s.after, KeySet(stale), {})
    && s.logBefore <= s.logAfter
    && (r.Success? ==> AllRefused(s, r.value))
    && (r.Failure? ==> EndsUnread(s, KeySet(stale)) || EndsUnstored(s, before.Ref()))
  }

  /** Delete what is no longer expected and record what is, before anything is
      created. Returns the stale entries that could not be deleted, and how many could. */
  method PrepareStatus(server: ApiServer, scope: Scope, event: ObjectSyncModifications, gvk: Gvk, targets: seq<Target>)
    returns (r: Result<seq<DestinationStatus>>, removed: nat)
    requires server.Valid() && event.Id() in scope.reserved
    requires event.Fresh(server.cluster) && event.modified.status == event.original.status
    modifies event, server
    ensures server.Advanced(scope.Minus(old(event.Id())))
    ensures event.Id() == old(event.Id()) && event.modified.uid == old(event.modified.uid)
    ensures Held(server.cluster, event.Id()) && event.Writable(server.cluster)
    ensures r.Success? ==>
              && event.Fresh(server.cluster) && event.modified.status == event.original.status
              && event.modified.StatusDestinations() == Some(StoredList(gvk, targets, old(event.modified.Tracked()), r.value))
              && removed == |Without(TargetKeys(gvk, targets), old(event.modified.Tracked()))| - |r.value|
    ensures Prepared(server.Since(), old(event.modified), event.modified, gvk, targets, r)
    ensures |server.log| <= |old(server.log)| + 3 * |Without(TargetKeys(gvk, targets), old(event.modified.Tracked()))| + 2
  {
    ghost var c0, before := server.cluster, event.modified;
    var expected, stale := MatchTargets(gvk, targets, event.modified.Tracked());
    var deleted := DeleteStale(server, scope, event, gvk, targets, stale);
    ghost var c1, a := server.cluster, server.Since();
    if deleted.Failure? {
      ClearingFailed(a, before, gvk, targets, stale, deleted.error);
      return Failure(deleted.error), 0;
    }
    SubsequenceLength(deleted.value, stale);
    removed := |stale| - |deleted.value|;
    label cleared:
    var stored := StoreDestinations(server, scope, event, StableSort(expected + deleted.value));
    KeepsTransitive(scope.Minus(event.Id()), c0, c1, server.cluster);
    r := if stored.Failure? then Failure(stored.error) else Success(deleted.value);
    StepsPrepare(a, server.Since@cleared(), server.Since(), before, event.modified, gvk, targets, stale, deleted.value, r);
  }

  lemma ClearingFailed(s: Stretch, before: ObjectSync, gvk: Gvk, targets: seq<Target>, stale: seq<DestinationStatus>,
                       error: ControllerError)
    requires Cleared(s, stale, Failure(error)) && stale == Without(TargetKeys(gvk, targets), before.Tracked())
    ensures Prepared(s, before, before, gvk, targets, Failure(error))
  {
    assert ClearedParts(0, s, stale, Failure(error)) by { assert Unseal(0); }
  }

  /** Deleting what is stale and storing the list. */
  lemma StepsPrepare(a: Stretch, b: Stretch, s: Stretch, before: ObjectSync, after: ObjectSync, gvk: Gvk,
                     targets: seq<Target>, stale: seq<DestinationStatus>,
                     remnants: seq<DestinationStatus>, r: Result<seq<DestinationStatus>>)
    requires Joined(a, b, s) && Cleared(a, stale, Success(remnants))
    requires stale == Without(TargetKeys(gvk, targets), before.Tracked())
    requires r.Success? ==> r.value == remnants
    requires b.calm ==> r.Success?
    requires b.alone ==> b.end.objects == b.start.objects
    requires Confined(b.before, b.after, {}, {})
    requires b.logBefore <= b.logAfter && (r.Failure? ==> EndsUnstored(b, before.Ref()))
    requires
      var list := StoredList(gvk, targets, before.Tracked(), remnants);
      && after.status == before.WithDestinations(list).status
      && (before.StatusDestinations() == Some(list) ==> b.idle && b.end == b.start && after == before)
      && (r.Success? && before.StatusDestinations() != Some(list) ==> !b.idle)
    ensures Prepared(s, before, after, gvk, targets, r)
  {
    assert ClearedParts(0, a, stale, Success(remnants)) by { assert Unseal(0); }
    ConfinedWider(b.before, b.after, {}, {}, KeySet(stale), {});
    ConfinedTransitive(a.before, a.after, b.after, KeySet(stale), {});
    forall d | d in remnants ensures Refused(s, d.Identity()) {
      RefusedStays(a, b, s, d.Identity());
    }
  }

  // ---------------------------------------------------------------------
  // Second half: creating and updating

  /** What bringing the listed destinations up to date did to the cluster and to the list. */
  ghost predicate Refreshed(s: Stretch, destinations: seq<DestinationStatus>, ds: seq<DestinationStatus>, remnants: set<Key>,
                            source: Source, counted: seq<bool>, changed: bool) {
    forall i: int {:trigger Unfold(i)} :: Unfold(i) ==> RefreshedList(i, s, destinations, ds, remnants, source, counted, changed)
  }

  ghost predicate RefreshedList(i: int, s: Stretch, destinations: seq<DestinationStatus>, ds: seq<DestinationStatus>,
                                remnants: set<Key>,
                                source: Source, counted: seq<bool>, changed: bool) {
    && |counted| == |ds|
    && Accounted(destinations, remnants, source.Revision(), ds, counted)
    && (!changed ==> ds == destinations)
    && (s.alone ==> SameObjects(KeySet(destinations) - remnants, s.start, s.end))
    && (s.calm && AllClean(s.start, KeySet(destinations) - remnants) ==>
          && (forall j | 0 <= j < |ds| && ds[j].Identity() !in remnants ::
                counted[j] && (LastOfKey(ds, j, |ds|) ==> Synced(s.end, ds[j], source)))
          && (AllUpToDate(s.start, destinations, remnants, source) ==> !changed)
          && (s.idle ==> AllUpToDate(s.start, destinations, remnants, source)))
    && Confined(s.before, s.after, KeySet(destinations) - remnants, KeySet(destinations) - remnants)
    && s.logBefore <= s.logAfter && ServedWithin(s.logBefore, s.logAfter, destinations, remnants, source, counted)
  }

  lemma ProgressIsRefreshed(s: Stretch, destinations: seq<DestinationStatus>, ds: seq<DestinationStatus>, remnants: set<Key>,
                            source: Source, counted: seq<bool>, changed: bool)
    requires Progress(s, destinations, ds, remnants, source, counted, changed)
    requires |counted| == |destinations|
    ensures Refreshed(s, destinations, ds, remnants, source, counted, changed)
    ensures Truthful(s.end.history, ds) && KeySet(ds) == KeySet(destinations)
    ensures !changed ==> ds == destinations
    ensures s.calm && AllClean(s.start, KeySet(destinations) - remnants) && AllUpToDate(s.start, destinations, remnants, source) ==>
              s.end == s.start && s.idle && !changed && ds == destinations
  {
    assert Progressed(0, s, destinations, ds, remnants, source, counted, changed) by { assert Unfold(0); }
    ServedGrows(s.logBefore, s.logAfter, destinations, remnants, source, counted);
    ServedIsWithin(s.logBefore, s.logAfter, destinations, remnants, source, counted);
    SameKeys(ds, destinations);
  }

  /** Writing the status afterwards changes nothing of it. */
  lemma RefreshedThenStored(a: Stretch, b: Stretch, s: Stretch, destinations: seq<DestinationStatus>,
                            ds: seq<DestinationStatus>,
                            remnants: set<Key>, source: Source, counted: seq<bool>, changed: bool)
    requires Refreshed(a, destinations, ds, remnants, source, counted, changed)
    requires Joined(a, b, s) && (b.alone ==> b.end.objects == b.start.objects)
    requires Confined(b.before, b.after, {}, {}) && b.logBefore <= b.logAfter
    ensures Refreshed(s, destinations, ds, remnants, source, counted, changed)
  {
    assert RefreshedList(0, a, destinations, ds, remnants, source, counted, changed) by { assert Unfold(0); }
    ServedWider(a.logBefore, a.logBefore, a.logAfter, b.logAfter, destinations, remnants, source, counted);
    var keys := KeySet(destinations) - remnants;
    ConfinedWider(b.before, b.after, {}, {}, keys, keys);
    ConfinedTransitive(a.before, a.after, b.after, keys, keys);
  }

  /** Upsert the listed destinations and take over what was recorded for them. */
  method UpsertListed(server: ApiServer, scope: Scope, event: ObjectSyncModifications, source: Source,
                      remnants: seq<DestinationStatus>)
    returns (changed: bool, expected: nat, observed: nat, ghost counted: seq<bool>)
    requires server.Valid() && event.Id() in scope.reserved
    requires event.Fresh(server.cluster) && event.modified.status == event.original.status
    requires event.modified.StatusDestinations().Some?
    requires Known(server.cluster, source.key, source.seen)
    modifies event`modified, server
    ensures server.Advanced(scope.Minus(old(event.Id())))
    ensures event.modified == old(event.modified).WithDestinations(event.modified.Tracked())
    ensures !changed ==> event.modified == old(event.modified)
    ensures event.Fresh(server.cluster) && event.Writable(server.cluster)
    ensures Refreshed(server.Since(), old(event.modified.Tracked()), event.modified.Tracked(), KeySet(remnants), source, counted, changed)
    ensures expected == CountExpected(old(event.modified.Tracked()), KeySet(remnants))
    ensures observed == CountTrue(counted) && observed <= expected
    ensures |server.log| <= |old(server.log)| + 9 * expected
    ensures server.Calm() && AllClean(old(server.cluster), KeySet(old(event.modified.Tracked())) - KeySet(remnants))
            && AllUpToDate(old(server.cluster), old(event.modified.Tracked()), KeySet(remnants), source) ==>
              server.cluster == old(server.cluster) && server.writes == old(server.writes) && !changed
  {
    ghost var ref := event.Id();
    var destinations := event.modified.Tracked();
    FreshIsWritable(server, event);
    var owner := SyncId(event.Id(), event.modified.uid);
    var ds;
    ds, changed, expected, observed, counted := UpsertDestinations(server, scope, owner, source, destinations, remnants);
    ProgressIsRefreshed(server.Since(), destinations, ds, KeySet(remnants), source, counted, changed);
    event.modified := event.modified.WithDestinations(ds);
    server.IsSound();
    PersistedLists(server.cluster, ref);
  }

  /** What the InSync condition says after a reconcile: it is submitted anew exactly
      when something changed. */
  function InSyncConditions(conditions: seq<Condition>, submit: bool, expected: nat, observed: nat,
                            now: string): seq<Condition> {
    if submit then Submit(conditions, InSyncCondition(expected, observed), now) else conditions
  }

  /** Submit a condition and persist the status. */
  method StoreCondition(server: ApiServer, scope: Scope, event: ObjectSyncModifications, c: Condition, now: string)
    returns (r: Result<()>)
    requires server.Valid() && event.Id() in scope.reserved
    requires event.Writable(server.cluster)
    modifies event, server
    ensures server.Advanced(scope.Minus(old(event.Id())))
    ensures event.Id() == old(event.Id()) && event.modified.uid == old(event.modified.uid)
    ensures event.Writable(server.cluster)
    ensures Held(old(server.cluster), event.Id()) ==> Held(server.cluster, event.Id())
    ensures NoNewCopies(event.Id(), old(server.cluster), server.cluster)
    ensures event.modified.status == old(event.modified).WithCondition(c, now).status
    ensures r.Success? ==> event.modified.status == event.original.status
    ensures r.Success? && old(event.Fresh(server.cluster)) ==> event.Fresh(server.cluster)
    ensures server.Alone() ==> server.cluster.objects == old(server.cluster.objects)
    ensures server.Calm() && old(event.Id() in server.cluster.syncs && server.cluster.syncs[event.Id()].uid == event.modified.uid) ==> r.Success?
    ensures |server.log| <= |old(server.log)| + 2
    ensures Confined(old(server.issued), server.issued, {}, {})
    ensures r.Failure? ==> EndsUnstored(server.Since(), event.Id()) && LastFailedAs(server.log, r.error)
  {
    event.UpdateCondition(c, now);
    r := event.ReplaceStatus(server, scope);
  }

  /** Bring the listed destinations up to date and, if anything changed, persist
      what was recorded together with a fresh InSync condition. */
  method SyncDestinations(server: ApiServer, scope: Scope, event: ObjectSyncModifications, source: Source,
                          remnants: seq<DestinationStatus>, removed: nat, now: string)
    returns (r: Result<()>, ghost counted: seq<bool>, ghost changed: bool)
    requires server.Valid() && event.Id() in scope.reserved
    requires event.Fresh(server.cluster) && event.modified.status == event.original.status
    requires event.modified.StatusDestinations().Some?
    requires Known(server.cluster, source.key, source.seen)
    modifies event, server
    ensures server.Advanced(scope.Minus(old(event.Id())))
    ensures event.Id() == old(event.Id()) && event.modified.uid == old(event.modified.uid)
    ensures Held(server.cluster, event.Id()) && event.Writable(server.cluster)
    ensures r.Success? ==> event.Fresh(server.cluster) && event.modified.status == event.original.status
    ensures Synchronized(server.Since(), old(event.modified), event.modified, source, remnants, removed, counted, changed, now, r.Success?)
    ensures |server.log| <= |old(server.log)| + 9 * CountExpected(old(event.modified.Tracked()), KeySet(remnants)) + 2
  {
    ghost var c0, before := server.cluster, event.modified;
    var expected, observed, written;
    written, expected, observed, counted := UpsertListed(server, scope, event, source, remnants);
    changed := written;
    ghost var c1, a, mid := server.cluster, server.Since(), event.modified;
    label refreshed:
    r := StoreOutcome(server, scope, event, written || removed > 0, expected, observed, now);
    KeepsTransitive(scope.Minus(event.Id()), c0, c1, server.cluster);
    StepsSynchronize(a, server.Since@refreshed(), server.Since(), before, mid, event.modified, source, remnants, removed, counted, changed, now, r.Success?);
  }

  /** Persist the list together with a fresh InSync condition, if there is anything to tell. */
  method StoreOutcome(server: ApiServer, scope: Scope, event: ObjectSyncModifications, submit: bool, expected: nat,
                      observed: nat, now: string)
    returns (r: Result<()>)
    requires server.Valid() && event.Id() in scope.reserved
    requires event.Fresh(server.cluster) && event.Writable(server.cluster)
    requires !submit ==> event.modified.status == event.original.status
    modifies event, server
    ensures server.Advanced(scope.Minus(old(event.Id())))
    ensures event.Id() == old(event.Id()) && event.modified.uid == old(event.modified.uid)
    ensures Held(server.cluster, event.Id()) && event.Writable(server.cluster)
    ensures r.Success? ==> event.Fresh(server.cluster) && event.modified.status == event.original.status
    ensures OutcomeStored(server.Since(), old(event.modified), event.modified, submit, expected, observed, now, r.Success?)
    ensures |server.log| <= |old(server.log)| + 2
  {
    r := Success(());
    KeepsRefl(scope.Minus(event.Id()), server.cluster);
    ConfinedNone(server.issued, {}, {});
    if submit {
      r := StoreCondition(server, scope, event, InSyncCondition(expected, observed), now);
    }
  }

  ghost predicate OutcomeStored(s: Stretch, before: ObjectSync, after: ObjectSync, submit: bool, expected: nat,
                                observed: nat,
                                now: string, ok: bool) {
    forall i: int {:trigger Unseal(i)} :: Unseal(i) ==> OutcomeStoredParts(i, s, before, after, submit, expected, observed, now, ok)
  }

  ghost predicate OutcomeStoredParts(i: int, s: Stretch, before: ObjectSync, after: ObjectSync, submit: bool,
                                     expected: nat, observed: nat,
                                     now: string, ok: bool) {
    && (submit ==> after.status == before.WithCondition(InSyncCondition(expected, observed), now).status)
    && (!submit ==> ok && s.idle && s.end == s.start && after == before)
    && (s.alone ==> s.end.objects == s.start.objects)
    && (s.calm ==> ok)
    && Confined(s.before, s.after, {}, {})
    && s.logBefore <= s.logAfter && (!ok ==> EndsUnstored(s, before.Ref()))
  }

  lemma KeepsRefl(scope: Scope, c: Cluster)
    ensures Keeps(scope, c, c)
  {
  }

  lemma StepsSynchronize(a: Stretch, b: Stretch, s: Stretch, before: ObjectSync, mid: ObjectSync, after: ObjectSync,
                         source: Source,
                         remnants: seq<DestinationStatus>, removed: nat, counted: seq<bool>, changed: bool, now: string, ok: bool)
    requires Joined(a, b, s)
    requires before.StatusDestinations().Some? && mid == before.WithDestinations(mid.Tracked())
    requires !changed ==> mid == before
    requires Refreshed(a, before.Tracked(), mid.Tracked(), KeySet(remnants), source, counted, changed)
    requires CountTrue(counted) <= CountExpected(before.Tracked(), KeySet(remnants))
    requires (a.calm && AllClean(a.start, KeySet(before.Tracked()) - KeySet(remnants))
              && AllUpToDate(a.start, before.Tracked(), KeySet(remnants), source)) ==> a.end == a.start && a.idle && !changed
    requires OutcomeStored(b, mid, after, changed || removed > 0, CountExpected(before.Tracked(), KeySet(remnants)), CountTrue(counted), now, ok)
    ensures Synchronized(s, before, after, source, remnants, removed, counted, changed, now, ok)
  {
    assert OutcomeStoredParts(0, b, mid, after, changed || removed > 0, CountExpected(before.Tracked(), KeySet(remnants)),
                              CountTrue(counted), now, ok) by {
      assert Unseal(0);
    }
    assert a.logBefore <= a.logAfter by { assert Unfold(0); }
    RefreshedThenStored(a, b, s, before.Tracked(), mid.Tracked(), KeySet(remnants), source, counted, changed);
  }

  /** What the second half of a reconcile did. */
  ghost predicate Synchronized(s: Stretch, before: ObjectSync, after: ObjectSync, source: Source,
                               remnants: seq<DestinationStatus>, removed: nat, counted: seq<bool>, changed: bool, now: string, ok: bool) {
    var list, kept := before.Tracked(), KeySet(remnants);
    && after.StatusDestinations().Some?
    && Refreshed(s, list, after.Tracked(), kept, source, counted, changed)
    && CountTrue(counted) <= CountExpected(list, kept)
    && after.Conditions() == InSyncConditions(before.Conditions(), changed || removed > 0, CountExpected(list, kept), CountTrue(counted), now)
    && (s.calm ==> ok)
    && (!ok ==> EndsUnstored(s, before.Ref()))
    && (s.calm && AllClean(s.start, KeySet(list) - kept) && AllUpToDate(s.start, list, kept, source) && removed == 0 ==>
          s.idle && s.end == s.start && after == before)
  }

  /** Deleting what is stale leaves alone what is expected. */
  lemma ExpectedStaysClean(c0: Cluster, c1: Cluster, gvk: Gvk, targets: seq<Target>, tracked: seq<DestinationStatus>)
    requires AllClean(c0, TargetKeys(gvk, targets))
    requires SameObjects(KeySet(Without(TargetKeys(gvk, targets), tracked)), c0, c1)
    ensures AllClean(c1, TargetKeys(gvk, targets))
  {
    var stale := KeySet(Without(TargetKeys(gvk, targets), tracked));
    forall k | k in TargetKeys(gvk, targets) ensures CleanAt(c1, k) {
      assert k !in stale;
      assert CleanAt(c0, k);
      assert k in c1.objects <==> k in c0.objects;
    }
  }

  /** What the list says after the last step. */
  lemma RefreshedAll(s: Stretch, list: seq<DestinationStatus>, ds: seq<DestinationStatus>, source: Source,
                     counted: seq<bool>, changed: bool)
    requires s.calm && s.alone && AllClean(s.start, KeySet(list) - KeySet([]))
    requires Refreshed(s, list, ds, KeySet([]), source, counted, changed)
    ensures Plain(ds) == Plain(list)
    ensures forall j | 0 <= j < |ds| :: LastOfKey(ds, j, |ds|) ==> Synced(s.end, ds[j], source)
    ensures SameObjects(KeySet(list), s.start, s.end)
  {
    assert Unfold(0);
    assert forall j | 0 <= j < |ds| :: Plain(ds)[j] == Plain(list)[j];
  }

  lemma StepsConverge(a: Stretch, b: Stretch, gvk: Gvk, targets: seq<Target>, before: ObjectSync, mid: ObjectSync,
                      after: ObjectSync,
                      source: Source, counted: seq<bool>, changed: bool)
    requires AllOnlyOurs(a.start, KeySet(before.Tracked()) + TargetKeys(gvk, targets))
    requires Prepared(a, before, mid, gvk, targets, Success([])) && a.calm && a.alone
    requires b.calm && b.alone && a.end == b.start
    requires Refreshed(b, mid.Tracked(), after.Tracked(), KeySet([]), source, counted, changed)
    requires after.StatusDestinations().Some?
    ensures Converged(b.end, after, gvk, targets, before.Tracked(), source)
  {
    assert PreparedList(0, a, before, mid, gvk, targets, Success([])) by {
      assert Unfold(0);
    }
    var stale := KeySet(Without(TargetKeys(gvk, targets), before.Tracked()));
    assert stale <= KeySet(before.Tracked());
    ExpectedStaysClean(a.start, a.end, gvk, targets, before.Tracked());
    PlanOfTargets(gvk, targets, before.Tracked());
    RefreshedAll(b, mid.Tracked(), after.Tracked(), source, counted, changed);
    assert AllAbsent(b.end, stale) by {
      forall k | k in stale ensures k !in b.end.objects {
        assert k !in a.end.objects && k !in TargetKeys(gvk, targets);
      }
    }
  }

  /** Only stale and expected keys are touched. */
  lemma StepsStayWithin(c0: Cluster, c1: Cluster, c2: Cluster, c3: Cluster, gvk: Gvk, targets: seq<Target>,
                        tracked: seq<DestinationStatus>, remnants: seq<DestinationStatus>)
    requires SameObjects(KeySet(Without(TargetKeys(gvk, targets), tracked)), c0, c1)
    requires c2.objects == c1.objects
    requires SameObjects(KeySet(StoredList(gvk, targets, tracked, remnants)) - KeySet(remnants), c2, c3)
    ensures SameObjects(KeySet(tracked) + TargetKeys(gvk, targets), c0, c3)
  {
    StoredKeys(gvk, targets, tracked, remnants);
    assert KeySet(Without(TargetKeys(gvk, targets), tracked)) <= KeySet(tracked);
  }

  /** What a completed reconcile leaves recorded: the stale entries that could not be
      deleted stay listed, each expected destination that counts as in sync records
      the source's revision, and a fresh InSync condition states the two counts. */
  ghost predicate Completed(before: ObjectSync, after: ObjectSync, gvk: Gvk, targets: seq<Target>, source: Source,
                            remnants: seq<DestinationStatus>, counted: seq<bool>, changed: bool, now: string) {
    var tracked := before.Tracked();
    var stale := Without(TargetKeys(gvk, targets), tracked);
    var list := StoredList(gvk, targets, tracked, remnants);
    && Subsequence(remnants, stale)
    && |counted| == |list|
    && Accounted(list, KeySet(remnants), source.Revision(), after.Tracked(), counted)
    && (!changed ==> after.Tracked() == list)
    && CountTrue(counted) <= CountExpected(list, KeySet(remnants))
    && after.Conditions() == InSyncConditions(before.Conditions(), changed || |remnants| < |stale|,
                                              CountExpected(list, KeySet(remnants)), CountTrue(counted), now)
  }

  /** What an InSync condition tells once it is submitted. */
  lemma InSyncTold(conditions: seq<Condition>, expected: nat, observed: nat, now: string)
    ensures
      var ok := expected == observed;
      Stating(FindType(Submit(conditions, InSyncCondition(expected, observed), now), "InSync"), "InSync",
              if ok then "True" else "False", if ok then "Success" else "Failure",
              Decimal(observed) + " out of " + Decimal(expected) + " destinations are in sync", None)
  {
    SubmittedIsFound(conditions, InSyncCondition(expected, observed), now);
  }

  lemma {:induction false} SameKeysSameCount(a: seq<DestinationStatus>, b: seq<DestinationStatus>, remnants: set<Key>)
    requires |a| == |b| && forall j | 0 <= j < |a| :: a[j].Identity() == b[j].Identity()
    ensures CountExpected(a, remnants) == CountExpected(b, remnants)
  {
    if a != [] {
      SameKeysSameCount(a[..|a| - 1], b[..|b| - 1], remnants);
    }
  }

  /** If a reconcile changed anything, the InSync condition is true exactly if every
      destination that is not a remnant counted as in sync. */
  lemma InSyncIsHonest(before: ObjectSync, after: ObjectSync, gvk: Gvk, targets: seq<Target>, source: Source,
                       remnants: seq<DestinationStatus>, counted: seq<bool>, changed: bool, now: string)
    requires Completed(before, after, gvk, targets, source, remnants, counted, changed, now)
    requires changed || |remnants| < |Without(TargetKeys(gvk, targets), before.Tracked())|
    ensures
      var list := after.Tracked();
      var kept := KeySet(remnants);
      var all := forall j | 0 <= j < |list| && list[j].Identity() !in kept ::
                   counted[j] && list[j].sourceVersion == Some(source.Revision()) && list[j].syncedVersion.Some?;
      after.Tells("InSync", if all then "True" else "False", if all then "Success" else "Failure",
                  Decimal(CountTrue(counted)) + " out of " + Decimal(CountExpected(list, kept)) + " destinations are in sync")
  {
    var planned := StoredList(gvk, targets, before.Tracked(), remnants);
    var expected, observed := CountExpected(planned, KeySet(remnants)), CountTrue(counted);
    InSyncTold(before.Conditions(), expected, observed, now);
    var list := after.Tracked();
    forall j | 0 <= j < |list| ensures list[j].Identity() == planned[j].Identity() {
      assert list[j].Unversioned() == planned[j].Unversioned();
    }
    SameKeysSameCount(list, planned, KeySet(remnants));
    CountsAgree(planned, KeySet(remnants), counted);
  }

  /** What a reconcile of one ObjectSync did. */
  ghost predicate Reconciled(s: Stretch, ok: bool, before: ObjectSync, after: ObjectSync, gvk: Gvk,
                             targets: seq<Target>, source: Source,
                             remnants: seq<DestinationStatus>, counted: seq<bool>, changed: bool, now: string) {
    forall i: int {:trigger Unseal(i)} :: Unseal(i) ==>
      ReconciledParts(i, s, ok, before, after, gvk, targets, source, remnants, counted, changed, now)
  }

  ghost predicate ReconciledParts(i: int, s: Stretch, ok: bool, before: ObjectSync, after: ObjectSync, gvk: Gvk,
                                  targets: seq<Target>, source: Source,
                                  remnants: seq<DestinationStatus>, counted: seq<bool>, changed: bool, now: string) {
    && (ok ==> Completed(before, after, gvk, targets, source, remnants, counted, changed, now))
    // It fails only with a call of its own, and what it leaves undone has failed, too.
    && (!ok ==> EndsUnread(s, KeySet(Without(TargetKeys(gvk, targets), before.Tracked()))) || EndsUnstored(s, before.Ref()))
    && (ok ==>
          && AllRefused(s, remnants)
          && ServedWithin(s.logBefore, s.logAfter, StoredList(gvk, targets, before.Tracked(), remnants), KeySet(remnants), source, counted))
    && (s.alone ==> SameObjects(KeySet(before.Tracked()) + TargetKeys(gvk, targets), s.start, s.end))
    && (s.calm ==> ok)
    // Convergence.
    && (s.calm && AllOnlyOurs(s.start, KeySet(before.Tracked()) + TargetKeys(gvk, targets)) ==>
          Converged(s.end, after, gvk, targets, before.Tracked(), source))
    // Quiescence.
    && (s.calm && Settled(s.start, before, gvk, targets, source) ==> s.idle && s.end == s.start && after == before)
    && (s.calm && s.idle && AllOnlyOurs(s.start, KeySet(before.Tracked()) + TargetKeys(gvk, targets)) ==>
          Settled(s.start, before, gvk, targets, source))
    // Nothing else is touched, and only what is expected is written.
    && Confined(s.before, s.after, KeySet(before.Tracked()) + TargetKeys(gvk, targets), TargetKeys(gvk, targets))
  }

  lemma AbortedSteps(s: Stretch, before: ObjectSync, after: ObjectSync, gvk: Gvk, targets: seq<Target>,
                     source: Source, now: string,
                     error: ControllerError)
    requires Prepared(s, before, after, gvk, targets, Failure(error))
    ensures Reconciled(s, false, before, after, gvk, targets, source, [], [], false, now)
  {
    assert Unfold(0);
    assert KeySet(Without(TargetKeys(gvk, targets), before.Tracked())) <= KeySet(before.Tracked());
  }

  lemma StepsAreQuiet(a: Stretch, b: Stretch, before: ObjectSync, mid: ObjectSync, after: ObjectSync, gvk: Gvk,
                      targets: seq<Target>,
                      source: Source, remnants: seq<DestinationStatus>, removed: nat, counted: seq<bool>, changed: bool, now: string, ok: bool)
    requires a.calm && b.calm && a.end == b.start
    requires Prepared(a, before, mid, gvk, targets, Success(remnants))
    requires removed == |Without(TargetKeys(gvk, targets), before.Tracked())| - |remnants|
    requires Synchronized(b, mid, after, source, remnants, removed, counted, changed, now, ok)
    requires Settled(a.start, before, gvk, targets, source)
    ensures a.idle && b.idle && b.end == a.start && after == before
  {
    assert Unfold(0);
    assert KeySet(remnants) == {};
    assert KeySet(mid.Tracked()) - KeySet(remnants) == KeySet(mid.Tracked());
  }

  lemma StepsComplete(a: Stretch, b: Stretch, before: ObjectSync, mid: ObjectSync, after: ObjectSync, gvk: Gvk,
                      targets: seq<Target>,
                      source: Source, remnants: seq<DestinationStatus>, removed: nat, counted: seq<bool>, changed: bool, now: string, ok: bool)
    requires Prepared(a, before, mid, gvk, targets, Success(remnants))
    requires removed == |Without(TargetKeys(gvk, targets), before.Tracked())| - |remnants|
    requires Synchronized(b, mid, after, source, remnants, removed, counted, changed, now, ok)
    ensures Completed(before, after, gvk, targets, source, remnants, counted, changed, now)
  {
    assert Unfold(0);
  }

  /** Both halves touch only what is stale or expected, and write only what is expected. */
  lemma StepsConfined(a: Stretch, b: Stretch, before: ObjectSync, mid: ObjectSync, after: ObjectSync, gvk: Gvk,
                      targets: seq<Target>,
                      source: Source, remnants: seq<DestinationStatus>, counted: seq<bool>, changed: bool)
    requires a.after == b.before
    requires Prepared(a, before, mid, gvk, targets, Success(remnants))
    requires Refreshed(b, mid.Tracked(), after.Tracked(), KeySet(remnants), source, counted, changed)
    ensures Confined(a.before, b.after, KeySet(before.Tracked()) + TargetKeys(gvk, targets), TargetKeys(gvk, targets))
  {
    var stale := KeySet(Without(TargetKeys(gvk, targets), before.Tracked()));
    var listed := KeySet(mid.Tracked()) - KeySet(remnants);
    var touched, written := KeySet(before.Tracked()) + TargetKeys(gvk, targets), TargetKeys(gvk, targets);
    assert Confined(a.before, a.after, stale, {}) && mid.Tracked() == StoredList(gvk, targets, before.Tracked(), remnants) by {
      assert Unfold(0);
    }
    assert Confined(b.before, b.after, listed, listed) by {
      assert Unfold(0);
    }
    StoredKeys(gvk, targets, before.Tracked(), remnants);
    ConfinedWider(a.before, a.after, stale, {}, touched, written);
    ConfinedWider(b.before, b.after, listed, listed, touched, written);
    ConfinedTransitive(a.before, a.after, b.after, touched, written);
  }

  /** An undisturbed reconcile that issues no call at all started from a settled state. */
  lemma IdleIsSettled(a: Stretch, b: Stretch, before: ObjectSync, mid: ObjectSync, after: ObjectSync, gvk: Gvk,
                      targets: seq<Target>,
                      source: Source, remnants: seq<DestinationStatus>, counted: seq<bool>, changed: bool)
    requires a.calm && b.calm && a.idle && b.idle && a.end == b.start
    requires AllOnlyOurs(a.start, KeySet(before.Tracked()) + TargetKeys(gvk, targets))
    requires Prepared(a, before, mid, gvk, targets, Success(remnants))
    requires Refreshed(b, mid.Tracked(), after.Tracked(), KeySet(remnants), source, counted, changed)
    ensures Settled(a.start, before, gvk, targets, source)
  {
    assert PreparedList(0, a, before, mid, gvk, targets, Success(remnants)) by {
      assert Unfold(0);
    }
    assert mid == before && remnants == [] && KeySet(remnants) == {};
    PlanOfTargets(gvk, targets, before.Tracked());
    assert RefreshedList(0, b, mid.Tracked(), after.Tracked(), KeySet(remnants), source, counted, changed) by {
      assert Unfold(0);
    }
    assert KeySet(mid.Tracked()) - KeySet(remnants) == KeySet(before.Tracked());
  }

  /** Where both halves end, and when they had nothing to do. */
  lemma StepsSettle(a: Stretch, b: Stretch, s: Stretch, before: ObjectSync, mid: ObjectSync, after: ObjectSync,
                    gvk: Gvk, targets: seq<Target>,
                    source: Source, remnants: seq<DestinationStatus>, removed: nat, counted: seq<bool>, changed: bool, now: string, ok: bool)
    requires Joined(a, b, s) && (a.calm ==> a.alone) && (b.calm ==> b.alone) && s.calm
    requires Prepared(a, before, mid, gvk, targets, Success(remnants))
    requires removed == |Without(TargetKeys(gvk, targets), before.Tracked())| - |remnants|
    requires Synchronized(b, mid, after, source, remnants, removed, counted, changed, now, ok)
    requires AllOnlyOurs(s.start, KeySet(before.Tracked()) + TargetKeys(gvk, targets))
    ensures Converged(s.end, after, gvk, targets, before.Tracked(), source)
    ensures s.idle ==> Settled(s.start, before, gvk, targets, source)
  {
    assert remnants == [] by {
      assert Unfold(0);
    }
    StepsConverge(a, b, gvk, targets, before, mid, after, source, counted, changed);
    if s.idle {
      IdleIsSettled(a, b, before, mid, after, gvk, targets, source, remnants, counted, changed);
    }
  }

  /** What both halves tell of failures. */
  lemma StepsTell(a: Stretch, b: Stretch, s: Stretch, before: ObjectSync, mid: ObjectSync, after: ObjectSync,
                  gvk: Gvk, targets: seq<Target>,
                  source: Source, remnants: seq<DestinationStatus>, removed: nat, counted: seq<bool>, changed: bool, now: string, ok: bool)
    requires Joined(a, b, s) && mid.Ref() == before.Ref()
    requires Prepared(a, before, mid, gvk, targets, Success(remnants))
    requires Synchronized(b, mid, after, source, remnants, removed, counted, changed, now, ok)
    ensures !ok ==> EndsUnstored(s, before.Ref())
    ensures AllRefused(s, remnants)
    ensures ServedWithin(s.logBefore, s.logAfter, StoredList(gvk, targets, before.Tracked(), remnants), KeySet(remnants), source, counted)
  {
    assert AllRefused(a, remnants) && mid.Tracked() == StoredList(gvk, targets, before.Tracked(), remnants)
           && a.logBefore <= a.logAfter by {
      assert Unfold(0);
    }
    assert ServedWithin(b.logBefore, b.logAfter, mid.Tracked(), KeySet(remnants), source, counted) && b.logBefore <= b.logAfter by {
      assert Unfold(0);
    }
    forall d | d in remnants ensures Refused(s, d.Identity()) {
      RefusedStays(a, b, s, d.Identity());
    }
    ServedWider(a.logBefore, b.logBefore, b.logAfter, s.logAfter, mid.Tracked(), KeySet(remnants), source, counted);
  }

  /** Both halves together. */
  lemma StepsReconcile(a: Stretch, b: Stretch, s: Stretch, before: ObjectSync, mid: ObjectSync, after: ObjectSync,
                       gvk: Gvk, targets: seq<Target>,
                       source: Source, remnants: seq<DestinationStatus>, removed: nat, counted: seq<bool>, changed: bool, now: string, ok: bool)
    requires Joined(a, b, s) && (a.calm ==> a.alone) && (b.calm ==> b.alone) && mid.Ref() == before.Ref()
    requires Prepared(a, before, mid, gvk, targets, Success(remnants))
    requires removed == |Without(TargetKeys(gvk, targets), before.Tracked())| - |remnants|
    requires Synchronized(b, mid, after, source, remnants, removed, counted, changed, now, ok)
    ensures Reconciled(s, ok, before, after, gvk, targets, source, remnants, counted, changed, now)
  {
    StepsComplete(a, b, before, mid, after, gvk, targets, source, remnants, removed, counted, changed, now, ok);
    StepsConfined(a, b, before, mid, after, gvk, targets, source, remnants, counted, changed);
    StepsTell(a, b, s, before, mid, after, gvk, targets, source, remnants, removed, counted, changed, now, ok);
    if s.calm && Settled(s.start, before, gvk, targets, source) {
      StepsAreQuiet(a, b, before, mid, after, gvk, targets, source, remnants, removed, counted, changed, now, ok);
    }
    if s.alone {
      StepsStay(a, b, before, mid, after, gvk, targets, source, remnants, counted, changed);
    }
    if s.calm && AllOnlyOurs(s.start, KeySet(before.Tracked()) + TargetKeys(gvk, targets)) {
      StepsSettle(a, b, s, before, mid, after, gvk, targets, source, remnants, removed, counted, changed, now, ok);
    }
  }

  lemma StepsStay(a: Stretch, b: Stretch, before: ObjectSync, mid: ObjectSync, after: ObjectSync, gvk: Gvk,
                  targets: seq<Target>,
                  source: Source, remnants: seq<DestinationStatus>, counted: seq<bool>, changed: bool)
    requires a.alone && b.alone && a.end == b.start
    requires Prepared(a, before, mid, gvk, targets, Success(remnants))
    requires Refreshed(b, mid.Tracked(), after.Tracked(), KeySet(remnants), source, counted, changed)
    ensures SameObjects(KeySet(before.Tracked()) + TargetKeys(gvk, targets), a.start, b.end)
  {
    assert Unfold(0);
    StepsStayWithin(a.start, a.end, b.start, b.end, gvk, targets, before.Tracked(), remnants);
  }

  /** Which undisturbed reconciles issue no call: with no foreign finalizers about, those
      that start settled, and none at all if two expected targets coincide; and among
      those that start where an undisturbed one ended, exactly those whose expected
      targets are distinct. */
  ghost predicate QuietIffDistinct(s: Stretch, before: ObjectSync, gvk: Gvk, targets: seq<Target>, source: Source) {
    && (s.calm && AllOnlyOurs(s.start, KeySet(before.Tracked()) + TargetKeys(gvk, targets)) ==>
          && (s.idle <==> Settled(s.start, before, gvk, targets, source))
          && (s.idle ==> DistinctTargets(targets)))
    && forall tracked :: s.calm && Converged(s.start, before, gvk, targets, tracked, source) ==>
                           (s.idle <==> DistinctTargets(targets))
  }

  lemma RepeatedReconcile(s: Stretch, ok: bool, before: ObjectSync, after: ObjectSync, gvk: Gvk,
                          targets: seq<Target>, source: Source,
                          remnants: seq<DestinationStatus>, counted: seq<bool>, changed: bool, now: string)
    requires Reconciled(s, ok, before, after, gvk, targets, source, remnants, counted, changed, now)
    ensures QuietIffDistinct(s, before, gvk, targets, source)
    ensures s.calm ==> ok
  {
    assert s.calm ==> ok by {
      assert Unseal(0);
    }
    assert s.calm && Settled(s.start, before, gvk, targets, source) ==> s.idle by {
      assert Unseal(0);
    }
    assert s.calm && s.idle && AllOnlyOurs(s.start, KeySet(before.Tracked()) + TargetKeys(gvk, targets)) ==>
        Settled(s.start, before, gvk, targets, source) by {
      assert Unseal(0);
    }
    if Settled(s.start, before, gvk, targets, source) && !DistinctTargets(targets) {
      var i, j :| 0 <= i < j < |targets| && targets[i].Place() == targets[j].Place();
      OverlapNeverSettles(s.start, before, gvk, targets, source, i, j);
    }
    forall tracked | s.calm && Converged(s.start, before, gvk, targets, tracked, source)
      ensures s.idle <==> DistinctTargets(targets)
    {
      ConvergedMeans(s.start, before, gvk, targets, tracked, source);
      SettledIffDistinct(s.start, before, gvk, targets, tracked, source);
    }
  }

  /** Every destination that counts as in sync records a copy of the source. */
  ghost predicate CountedRecordCopies(history: map<nat, Snapshot>, list: seq<DestinationStatus>, counted: seq<bool>,
                                      source: Source) {
    |counted| == |list| && forall j | 0 <= j < |counted| && counted[j] :: RecordsCopy(history, list[j], source)
  }

  lemma CountedAreCopies(s: Stretch, ok: bool, before: ObjectSync, after: ObjectSync, gvk: Gvk,
                         targets: seq<Target>, source: Source,
                         remnants: seq<DestinationStatus>, counted: seq<bool>, changed: bool, now: string)
    requires Reconciled(s, ok, before, after, gvk, targets, source, remnants, counted, changed, now)
    requires Truthful(s.end.history, after.Tracked()) && Known(s.end, source.key, source.seen)
    ensures ok ==> CountedRecordCopies(s.end.history, after.Tracked(), counted, source)
  {
    assert ok ==> Completed(before, after, gvk, targets, source, remnants, counted, changed, now) by { assert Unseal(0); }
    if ok {
      var list := after.Tracked();
      forall j | 0 <= j < |counted| && counted[j] ensures RecordsCopy(s.end.history, list[j], source) {
        assert list[j] in list && RecordIsTrue(s.end.history, list[j]);
        AgreesMeans(list[j], source, s.end.history[list[j].syncedVersion.value.version].payload);
      }
    }
  }

  /** What a reconcile may write lies in a live cached namespace and is not the source. */
  lemma WritesAreSafe(o: ObjectSync, cache: seq<Namespace>, gvk: Gvk, key: Key)
    requires DistinctNames(cache) && key in TargetKeys(gvk, Expected(o, cache))
    ensures Namespace(key.namespace, false) in cache
    ensures NamespacedName(key.namespace, key.name) != o.SourceRef()
    ensures key.group == gvk.group && key.kind == gvk.kind
  {
    var t :| t in Expected(o, cache) && Entry(gvk, t).Identity() == key;
    ExpectedIsSafe(o, cache, t);
  }

  /** Every object write logged since then is of an expected destination. */
  twostate predicate WroteOnly(server: ApiServer, gvk: Gvk, targets: seq<Target>)
    reads server
  {
    |old(server.log)| <= |server.log| &&
    forall i | |old(server.log)| <= i < |server.log| && server.log[i].Issued? && WritesObject(server.log[i].call) ::
      server.log[i].call.key in TargetKeys(gvk, targets)
  }

  /** Reconcile one ObjectSync for its source object, as read: delete what is stale,
      record what is expected, create and update it, and record the outcome. */
  method ReconcileSource(server: ApiServer, scope: Scope, event: ObjectSyncModifications, gvk: Gvk,
                         cache: seq<Namespace>, source: Source, now: string)
    returns (r: Result<()>, ghost remnants: seq<DestinationStatus>, ghost counted: seq<bool>, ghost changed: bool)
    requires server.Valid() && event.Id() in scope.reserved
    requires event.Fresh(server.cluster) && event.modified.status == event.original.status
    requires Known(server.cluster, source.key, source.seen)
    modifies event, server
    ensures server.Advanced(scope.Minus(old(event.Id())))
    ensures event.Id() == old(event.Id()) && event.modified.uid == old(event.modified.uid)
    ensures Held(server.cluster, event.Id()) && event.Writable(server.cluster)
    ensures r.Success? ==> event.Fresh(server.cluster) && event.modified.status == event.original.status
    ensures Reconciled(server.Since(), r.Success?, old(event.modified), event.modified, gvk, Expected(old(event.modified), cache),
                       source, remnants, counted, changed, now)
    ensures server.Calm() ==> r.Success?
    ensures WroteOnly(server, gvk, Expected(old(event.modified), cache))
    ensures r.Success? ==> CountedRecordCopies(server.cluster.history, event.modified.Tracked(), counted, source)
    ensures QuietIffDistinct(server.Since(), old(event.modified), gvk, Expected(old(event.modified), cache), source)
  {
    ghost var before, targets, log := event.modified, Expected(event.modified, cache), server.log;
    server.IsLogged();
    r, remnants, counted, changed := ReconcileSteps(server, scope, event, gvk, cache, source, now);
    server.IsLogged();
    RecordsConfined(log, server.log, KeySet(before.Tracked()) + TargetKeys(gvk, targets), TargetKeys(gvk, targets));
    CountedAreCopies(server.Since(), r.Success?, before, event.modified, gvk, targets, source, remnants, counted, changed, now);
    RepeatedReconcile(server.Since(), r.Success?, before, event.modified, gvk, targets, source, remnants, counted, changed, now);
  }

  method ReconcileSteps(server: ApiServer, scope: Scope, event: ObjectSyncModifications, gvk: Gvk,
                        cache: seq<Namespace>, source: Source, now: string)
    returns (r: Result<()>, ghost remnants: seq<DestinationStatus>, ghost counted: seq<bool>, ghost changed: bool)
    requires server.Valid() && event.Id() in scope.reserved
    requires event.Fresh(server.cluster) && event.modified.status == event.original.status
    requires Known(server.cluster, source.key, source.seen)
    modifies event, server
    ensures server.Advanced(scope.Minus(old(event.Id())))
    ensures event.Id() == old(event.Id()) && event.modified.uid == old(event.modified.uid)
    ensures Held(server.cluster, event.Id()) && event.Writable(server.cluster)
    ensures r.Success? ==> event.Fresh(server.cluster) && event.modified.status == event.original.status
    ensures Reconciled(server.Since(), r.Success?, old(event.modified), event.modified, gvk, Expected(old(event.modified), cache),
                       source, remnants, counted, changed, now)
  {
    ghost var c0, before := server.cluster, event.modified;
    var targets := Expected(event.modified, cache);
    remnants, counted, changed := [], [], false;
    var prepared, removed := PrepareStatus(server, scope, event, gvk, targets);
    if prepared.Failure? {
      AbortedSteps(server.Since(), before, event.modified, gvk, targets, source, now, prepared.error);
      return Failure(prepared.error), [], [], false;
    }
    remnants := prepared.value;
    ghost var c2, a, mid := server.cluster, server.Since(), event.modified;
    label prepared:
    r, counted, changed := SyncDestinations(server, scope, event, source, prepared.value, removed, now);
    KeepsTransitive(scope.Minus(event.Id()), c0, c2, server.cluster);
    StepsReconcile(a, server.Since@prepared(), server.Since(), before, mid, event.modified, gvk, targets,
                   source, remnants, removed, counted, changed, now, r.Success?);
  }
}
