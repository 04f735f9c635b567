/** Whole runs: any interleaving, of any length, of user actions and controller
    calls. A crash needs no step of its own: the cluster keeps only what the
    calls so far have written, and the state after every call is a state of the run. */
module Runs {
  import opened Common
  import opened Apis
  import opened ClusterModel

  type Run = seq<Action>

  function Replay(run: Run): Cluster {
    if run == [] then EMPTY else Act(run[|run| - 1], Replay(run[..|run| - 1]))
  }

  /** Every controller call of the run met its guard when it was issued. */
  predicate Legal(run: Run) {
    run == [] ||
    (var front, a := run[..|run| - 1], run[|run| - 1];
     Legal(front) && (a.Controller? ==> Permitted(a.actor, a.call, Replay(front))))
  }

  lemma {:induction false} LegalRunIsSound(run: Run)
    requires Legal(run)
    ensures Sound(Replay(run))
  {
    if run != [] {
      var front, a := run[..|run| - 1], run[|run| - 1];
      LegalRunIsSound(front);
      match a
      case User(action) => UserKeepsSound(action, Replay(front));
      case Controller(actor, call, _) =>
        if Enabled(call, Replay(front)) { CallKeepsSound(actor, call, Replay(front)); }
    }
  }

  lemma {:induction false} LegalPrefix(run: Run, n: nat)
    requires Legal(run) && n <= |run|
    ensures Legal(run[..n])
  {
    if n < |run| {
      LegalPrefix(run[..|run| - 1], n);
      assert run[..|run| - 1][..n] == run[..n];
    } else {
      assert run[..n] == run;
    }
  }

  lemma ExtendRun(run: Run, a: Action)
    ensures Replay(run + [a]) == Act(a, Replay(run))
    ensures Legal(run + [a]) <==> Legal(run) && (a.Controller? ==> Permitted(a.actor, a.call, Replay(run)))
  {
    assert (run + [a])[..|run|] == run;
  }

  /** No orphans and write-ahead tracking, at every point of every legal run: a
      live object written for an ObjectSync has that ObjectSync alive, finalized,
      and listing the object's key in its persisted status. */
  lemma NoOrphansEver(run: Run, n: nat)
    requires Legal(run) && n <= |run|
    ensures NoOrphans(Replay(run[..n]))
    ensures AllTracked(Replay(run[..n]))
  {
    LegalPrefix(run, n);
    LegalRunIsSound(run[..n]);
    TrackedIsNotOrphaned(Replay(run[..n]));
  }

  lemma TrackedIsNotOrphaned(c: Cluster)
    requires AllTracked(c)
    ensures NoOrphans(c)
  {
    forall k, id | k in c.objects && !c.objects[k].terminating && id in c.objects[k].writers
      ensures id.ref in c.syncs && c.syncs[id.ref].uid == id.uid
    {
      assert Held(c, id.ref);
    }
  }

  /** The source object as some revision of it held it. */
  ghost predicate Known(c: Cluster, key: Key, source: Object) {
    source.version in c.history && c.history[source.version] == Snapshot(key, source.uid, source.payload)
  }

  /** Revision-skip soundness, at every point of every legal run: where the
      tracked revisions match the current destination and the given source,
      the destination agrees with the source's template. */
  lemma SkippingLeavesNoDrift(run: Run, n: nat, ref: NamespacedName, d: DestinationStatus, key: Key, source: Object)
    requires Legal(run) && n <= |run|
    requires
      var c := Replay(run[..n]);
      && ref in c.syncs && d in c.syncs[ref].Tracked() && d.Identity() in c.objects
      && Known(c, key, source)
      && d.syncedVersion == Some(c.objects[d.Identity()].Revision())
      && d.sourceVersion == Some(source.Revision())
    ensures Agrees(d.Strategy(), Template(Snapshot(key, source.uid, source.payload)), Replay(run[..n]).objects[d.Identity()].payload)
  {
    LegalPrefix(run, n);
    LegalRunIsSound(run[..n]);
    var c := Replay(run[..n]);
    assert Truthful(c.history, c.syncs[ref].Tracked());
    assert RecordIsTrue(c.history, d);
  }

  /** A status write made from a read with another spec is accepted with the latest
      resource version, and what it answers names the newest spec. */
  lemma StatusWriteAnswersNewestSpec(c: Cluster, ref: NamespacedName, spec: ObjectSyncSpec, status: Option<ObjectSyncStatus>)
    requires WellFormed(c) && ref in c.syncs
    ensures
      var edited := UserEffect(PutSync(ref, spec, c.syncs[ref].finalizers), c);
      && ref in edited.syncs
      && var call := PutStatus(ref, c.syncs[ref].uid, edited.syncs[ref].version, status);
         && Enabled(call, edited) && ref in Effect(call, edited).syncs
         && Effect(call, edited).syncs[ref].spec == spec && Effect(call, edited).syncs[ref].status == status
  {
    var edited := UserEffect(PutSync(ref, spec, c.syncs[ref].finalizers), c);
    assert edited.syncs[ref].Ref() == ref;
  }

  // ---------------------------------------------------------------------
  // Why reconciles of one ObjectSync must not interleave

  /** A user creates an ObjectSync; `check` adds the finalizer and registers it,
      holding the ObjectSync as read at this point; the resource controller
      records the copy at `d` and creates it; `check` writes its Ready condition
      from the stale read, forcing the latest resource version; the user deletes
      the ObjectSync; the deletion finds an empty list and drops the finalizer. */
  function RaceRun(ref: NamespacedName, spec: ObjectSyncSpec, d: DestinationStatus, payload: Payload,
                   ready: Option<ObjectSyncStatus>): Run {
    [ User(PutSync(ref, spec, [])),
      Controller(ref, SetSyncFinalizers(ref, [FINALIZER]), false),
      Controller(ref, PutStatus(ref, 0, 2, Some(ObjectSyncStatus(None, Some([d])))), false),
      Controller(ref, Create(d.Identity(), SyncId(ref, 0), payload, [FINALIZER]), false),
      Controller(ref, PutStatus(ref, 0, 3, ready), false),
      User(RemoveSync(ref)),
      Controller(ref, SetSyncFinalizers(ref, []), false) ]
  }

  function RaceState(ref: NamespacedName, spec: ObjectSyncSpec, d: DestinationStatus, payload: Payload,
                     ready: Option<ObjectSyncStatus>, i: nat): Cluster {
    var s := ObjectSync(Some(ref.namespace), ref.name, 0, 1, [], false, spec, None);
    var held := s.(finalizers := [FINALIZER], version := 2);
    var tracking := held.(status := Some(ObjectSyncStatus(None, Some([d]))), version := 3);
    var stale := held.(status := ready, version := 6);
    var copies := map[d.Identity() := Object(4, 5, payload, [FINALIZER], false, {SyncId(ref, 0)})];
    var history := map[5 := Snapshot(d.Identity(), 4, payload)];
    if i == 0 then EMPTY
    else if i == 1 then Cluster(map[], map[ref := s], map[], 2)
    else if i == 2 then Cluster(map[], map[ref := held], map[], 3)
    else if i == 3 then Cluster(map[], map[ref := tracking], map[], 4)
    else if i == 4 then Cluster(copies, map[ref := tracking], history, 6)
    else if i == 5 then Cluster(copies, map[ref := stale], history, 7)
    else if i == 6 then Cluster(copies, map[ref := stale.(terminating := true, version := 7)], history, 8)
    else Cluster(copies, map[], history, 8)
  }

  lemma RaceStep(ref: NamespacedName, spec: ObjectSyncSpec, d: DestinationStatus, payload: Payload,
                 ready: Option<ObjectSyncStatus>, i: nat)
    requires i < 7 && DestinationsOf(ready) == []
    ensures Act(RaceRun(ref, spec, d, payload, ready)[i], RaceState(ref, spec, d, payload, ready, i))
         == RaceState(ref, spec, d, payload, ready, i + 1)
  {
    if i < 4 {
      RaceStepWriting(ref, spec, d, payload, ready, i);
    } else {
      RaceStepLosing(ref, spec, d, payload, ready, i);
    }
  }

  lemma RaceStepWriting(ref: NamespacedName, spec: ObjectSyncSpec, d: DestinationStatus, payload: Payload,
                        ready: Option<ObjectSyncStatus>, i: nat)
    requires i < 4
    ensures Act(RaceRun(ref, spec, d, payload, ready)[i], RaceState(ref, spec, d, payload, ready, i))
         == RaceState(ref, spec, d, payload, ready, i + 1)
  {
    var a := RaceRun(ref, spec, d, payload, ready)[i];
    var c, c' := RaceState(ref, spec, d, payload, ready, i), RaceState(ref, spec, d, payload, ready, i + 1);
    assert Act(a, c).syncs == c'.syncs;
    assert Act(a, c).objects == c'.objects;
    assert Act(a, c).history == c'.history;
  }

  lemma RaceStepLosing(ref: NamespacedName, spec: ObjectSyncSpec, d: DestinationStatus, payload: Payload,
                       ready: Option<ObjectSyncStatus>, i: nat)
    requires 4 <= i < 7 && DestinationsOf(ready) == []
    ensures Act(RaceRun(ref, spec, d, payload, ready)[i], RaceState(ref, spec, d, payload, ready, i))
         == RaceState(ref, spec, d, payload, ready, i + 1)
  {
    var a := RaceRun(ref, spec, d, payload, ready)[i];
    var c, c' := RaceState(ref, spec, d, payload, ready, i), RaceState(ref, spec, d, payload, ready, i + 1);
    assert DestinationsOf(Some(ObjectSyncStatus(None, Some([d])))) == [d];
    assert FINALIZER in [FINALIZER];
    if i == 4 {
      assert Act(a, c).syncs == c'.syncs;
    } else if i == 5 {
      assert Act(a, c).syncs == c'.syncs;
    } else {
      assert Act(a, c).syncs == c'.syncs;
    }
  }

  lemma {:induction false} RaceReplay(ref: NamespacedName, spec: ObjectSyncSpec, d: DestinationStatus,
                                      payload: Payload, ready: Option<ObjectSyncStatus>, i: nat)
    requires i <= 7 && DestinationsOf(ready) == []
    ensures Replay(RaceRun(ref, spec, d, payload, ready)[..i]) == RaceState(ref, spec, d, payload, ready, i)
  {
    if i > 0 {
      var run := RaceRun(ref, spec, d, payload, ready);
      RaceReplay(ref, spec, d, payload, ready, i - 1);
      RaceStep(ref, spec, d, payload, ready, i - 1);
      assert run[..i] == run[..i - 1] + [run[i - 1]];
      ExtendRun(run[..i - 1], run[i - 1]);
    }
  }

  /** If the two controllers' reconciles of one ObjectSync interleave, copies can
      be orphaned. Of the controller's calls exactly two miss their guard: the
      condition written from the stale read and, as its consequence, the letting go
      of the finalizer in the end. */
  lemma InterleavedReconcilesOrphan(ref: NamespacedName, spec: ObjectSyncSpec, d: DestinationStatus, payload: Payload,
                                    c: Condition, now: string)
    returns (stale: ObjectSync, run: Run)
    requires d == d.Unversioned()
    ensures stale.Ref() == ref && run == RaceRun(ref, spec, d, payload, stale.WithCondition(c, now).status)
    ensures ref in Replay(run[..2]).syncs && stale == Replay(run[..2]).syncs[ref]
    ensures Legal(run[..4]) && ref in Replay(run[..4]).syncs
    ensures run[4].call.version == Replay(run[..4]).syncs[ref].version
    ensures Enabled(run[4].call, Replay(run[..4]))
    ensures forall i | 0 <= i < 7 && run[i].Controller? ::
              run[i].actor == ref && (Permitted(ref, run[i].call, Replay(run[..i])) <==> i != 4 && i != 6)
    ensures ref in Replay(run[..6]).syncs && Replay(run[..6]).syncs[ref].StatusDestinations() == None
    ensures !NoOrphans(Replay(run))
  {
    stale := ObjectSync(Some(ref.namespace), ref.name, 0, 2, [FINALIZER], false, spec, None);
    var ready := stale.WithCondition(c, now).status;
    run := RaceRun(ref, spec, d, payload, ready);
    forall i: nat | i <= 7 ensures Replay(run[..i]) == RaceState(ref, spec, d, payload, ready, i) {
      RaceReplay(ref, spec, d, payload, ready, i);
    }
    RaceLegal(ref, spec, d, payload, ready);
    RaceGuards(ref, spec, d, payload, ready);
    assert run[..7] == run;
    assert SyncId(ref, 0) in Replay(run).objects[d.Identity()].writers;
  }

  lemma RaceGuards(ref: NamespacedName, spec: ObjectSyncSpec, d: DestinationStatus, payload: Payload,
                   ready: Option<ObjectSyncStatus>)
    requires d == d.Unversioned() && DestinationsOf(ready) == []
    ensures
      var run := RaceRun(ref, spec, d, payload, ready);
      forall i | 0 <= i < 7 && run[i].Controller? ::
        run[i].actor == ref && (Permitted(ref, run[i].call, Replay(run[..i])) <==> i != 4 && i != 6)
  {
    var run := RaceRun(ref, spec, d, payload, ready);
    assert d in [d] && d.Identity() in KeySet([d]);
    forall i | 0 <= i < 7 && run[i].Controller?
      ensures run[i].actor == ref && (Permitted(ref, run[i].call, Replay(run[..i])) <==> i != 4 && i != 6)
    {
      RaceReplay(ref, spec, d, payload, ready, i);
      if i >= 4 {
        var c := RaceState(ref, spec, d, payload, ready, i);
        assert SyncId(ref, 0) in c.objects[d.Identity()].writers;
        assert LiveFor(c, ref, d.Identity());
      }
    }
  }

  lemma RaceLegal(ref: NamespacedName, spec: ObjectSyncSpec, d: DestinationStatus, payload: Payload,
                  ready: Option<ObjectSyncStatus>)
    requires d == d.Unversioned() && DestinationsOf(ready) == []
    ensures Legal(RaceRun(ref, spec, d, payload, ready)[..4])
  {
    var run := RaceRun(ref, spec, d, payload, ready);
    assert run[..0] == [];
    assert d in [d] && d.Identity() in KeySet([d]);
    forall i: nat | i < 4
      ensures run[i].Controller? ==> Permitted(run[i].actor, run[i].call, Replay(run[..i]))
    {
      RaceReplay(ref, spec, d, payload, ready, i);
    }
    LegalStep(run, 0);
    LegalStep(run, 1);
    LegalStep(run, 2);
    LegalStep(run, 3);
  }

  lemma LegalStep(run: Run, i: nat)
    requires i < |run| && Legal(run[..i])
    requires run[i].Controller? ==> Permitted(run[i].actor, run[i].call, Replay(run[..i]))
    ensures Legal(run[..i + 1])
  {
    assert run[..i + 1] == run[..i] + [run[i]];
    ExtendRun(run[..i], run[i]);
  }
}
