/** Runs that show where the controller does not do what its design intends. */
module Scenarios {
  import opened Common
  import opened Apis
  import opened ClusterModel
  import opened Runs
  import opened Interference
  import opened ApiServers
  import opened Lookups
  import opened Utils
  import opened Upserts
  import opened Targets
  import opened Rounds
  import opened Removals
  import opened SourceReconciles
  import opened Registries
  import opened ObjectSyncControllers

  // ---------------------------------------------------------------------
  // A source is let go while copies of it live

  /** An ObjectSync that copies the source into one other namespace. */
  function CopySpec(source: Key, version: string, namespace: string): ObjectSyncSpec {
    ObjectSyncSpec(SourceObject(source.group, Some(version), source.kind, source.name, Some(source.namespace)),
                   [Destination(None, namespace, None)])
  }

  /** The entry for its one destination. */
  function CopyEntry(source: Key, version: string, namespace: string): DestinationStatus {
    DestinationStatus(source.name, namespace, source.group, version, source.kind, None, None, None)
  }

  lemma CopyIsExpected(o: ObjectSync, source: Key, version: string, namespace: string)
    requires o.spec == CopySpec(source, version, namespace) && namespace !in {"", "*", source.namespace}
    ensures var targets := Expected(o, [Namespace(namespace, false)]);
            targets == [Target(namespace, source.name, None)]
            && Entry(Gvk(source.group, version, source.kind), targets[0]) == CopyEntry(source, version, namespace)
  {
    var d := Destination(None, namespace, None);
    assert o.spec.destinations == [d] && o.spec.destinations[..0] == [];
    assert d.AppliesTo(o, namespace) == Some((namespace, source.name));
    assert FindNamespace([Namespace(namespace, false)], namespace) == Some(Namespace(namespace, false));
    assert ExpectedOf([], o, [Namespace(namespace, false)]) == [];
  }

  /** A user creates a source and an ObjectSync for it; the controller sees to both
      finalizers, records the destination and creates the copy; the user deletes the
      source, which our finalizer holds; and then makes the ObjectSync name another. */
  function CopyRun(ref: NamespacedName, source: Key, version: string, namespace: string, data: Payload,
                   other: ObjectSyncSpec): Run {
    var d := CopyEntry(source, version, namespace);
    [ User(Put(source, data, [])),
      User(PutSync(ref, CopySpec(source, version, namespace), [])),
      Action.Controller(ref, SetSyncFinalizers(ref, [FINALIZER]), false),
      Action.Controller(ref, AddFinalizer(source, FINALIZER), false),
      Action.Controller(ref, PutStatus(ref, 2, 4, Some(ObjectSyncStatus(None, Some([d])))), false),
      Action.Controller(ref, Create(d.Identity(), SyncId(ref, 2), Template(Snapshot(source, 0, data)), [FINALIZER]), false),
      User(Remove(source)),
      User(PutSync(ref, other, [FINALIZER])) ]
  }

  function CopySync(ref: NamespacedName, source: Key, version: string, namespace: string, other: ObjectSyncSpec,
                    i: nat): ObjectSync {
    var s := ObjectSync(Some(ref.namespace), ref.name, 2, 3, [], false, CopySpec(source, version, namespace), None);
    var held := s.(finalizers := [FINALIZER], version := 4);
    var tracking := held.(status := Some(ObjectSyncStatus(None, Some([CopyEntry(source, version, namespace)]))), version := 6);
    if i <= 2 then s else if i <= 4 then held else if i <= 7 then tracking else tracking.(spec := other, version := 10)
  }

  function CopySource(data: Payload, i: nat): Object {
    if i <= 3 then Object(0, 1, data, [], false, {})
    else if i <= 6 then Object(0, 5, data, [FINALIZER], false, {})
    else Object(0, 9, data, [FINALIZER], true, {})
  }

  function CopyState(ref: NamespacedName, source: Key, version: string, namespace: string, data: Payload,
                     other: ObjectSyncSpec, i: nat): Cluster {
    var d, snapshot := CopyEntry(source, version, namespace).Identity(), Snapshot(source, 0, data);
    var copy := Object(7, 8, Template(snapshot), [FINALIZER], false, {SyncId(ref, 2)});
    var objects := if i < 6 then map[source := CopySource(data, i)] else map[source := CopySource(data, i), d := copy];
    var history: map<nat, Snapshot> := map[1 := snapshot];
    var history := if i < 4 then history else history[5 := snapshot];
    var history := if i < 6 then history else history[8 := Snapshot(d, 7, Template(snapshot))];
    var history := if i < 7 then history else history[9 := snapshot];
    var clock := if i == 1 then 2 else if i <= 5 then i + 2 else if i == 6 then 9 else if i == 7 then 10 else 11;
    if i == 0 then EMPTY
    else Cluster(objects, if i == 1 then map[] else map[ref := CopySync(ref, source, version, namespace, other, i)], history, clock)
  }

  /** Step `i` leads from one state to the next and meets its guard. */
  ghost predicate CopyStepHolds(ref: NamespacedName, source: Key, version: string, namespace: string, data: Payload,
                                other: ObjectSyncSpec, i: nat)
    requires i < 8
  {
    var a, c := CopyRun(ref, source, version, namespace, data, other)[i], CopyState(ref, source, version, namespace, data, other, i);
    && Act(a, c) == CopyState(ref, source, version, namespace, data, other, i + 1)
    && (a.Controller? ==> Permitted(a.actor, a.call, c))
  }

  lemma CopyStep(ref: NamespacedName, source: Key, version: string, namespace: string, data: Payload,
                 other: ObjectSyncSpec, i: nat)
    requires i < 8 && namespace != source.namespace && other != CopySpec(source, version, namespace)
    ensures CopyStepHolds(ref, source, version, namespace, data, other, i)
  {
    match i
    case 0 => SourceCreated(ref, source, version, namespace, data, other);
    case 1 => SyncCreated(ref, source, version, namespace, data, other);
    case 2 => SyncFinalized(ref, source, version, namespace, data, other);
    case 3 => SourceFinalized(ref, source, version, namespace, data, other);
    case 4 => DestinationRecorded(ref, source, version, namespace, data, other);
    case 5 => CopyCreated(ref, source, version, namespace, data, other);
    case 6 => SourceDeleted(ref, source, version, namespace, data, other);
    case 7 => SpecEdited(ref, source, version, namespace, data, other);
  }

  lemma SourceCreated(ref: NamespacedName, source: Key, version: string, namespace: string, data: Payload,
                      other: ObjectSyncSpec)
    requires namespace != source.namespace && other != CopySpec(source, version, namespace)
    ensures CopyStepHolds(ref, source, version, namespace, data, other, 0)
  {
    var a, c := CopyRun(ref, source, version, namespace, data, other)[0], CopyState(ref, source, version, namespace, data, other, 0);
    var c' := CopyState(ref, source, version, namespace, data, other, 1);
    assert Act(a, c).objects == c'.objects && Act(a, c).syncs == c'.syncs && Act(a, c).history == c'.history;
  }

  lemma SyncCreated(ref: NamespacedName, source: Key, version: string, namespace: string, data: Payload,
                    other: ObjectSyncSpec)
    requires namespace != source.namespace && other != CopySpec(source, version, namespace)
    ensures CopyStepHolds(ref, source, version, namespace, data, other, 1)
  {
    var a, c := CopyRun(ref, source, version, namespace, data, other)[1], CopyState(ref, source, version, namespace, data, other, 1);
    var c' := CopyState(ref, source, version, namespace, data, other, 2);
    assert Act(a, c).objects == c'.objects && Act(a, c).syncs == c'.syncs && Act(a, c).history == c'.history;
  }

  lemma SyncFinalized(ref: NamespacedName, source: Key, version: string, namespace: string, data: Payload,
                      other: ObjectSyncSpec)
    requires namespace != source.namespace && other != CopySpec(source, version, namespace)
    ensures CopyStepHolds(ref, source, version, namespace, data, other, 2)
  {
    var a, c := CopyRun(ref, source, version, namespace, data, other)[2], CopyState(ref, source, version, namespace, data, other, 2);
    var c' := CopyState(ref, source, version, namespace, data, other, 3);
    assert FINALIZER in [FINALIZER];
    assert Act(a, c).objects == c'.objects && Act(a, c).syncs == c'.syncs && Act(a, c).history == c'.history;
  }

  lemma SourceFinalized(ref: NamespacedName, source: Key, version: string, namespace: string, data: Payload,
                        other: ObjectSyncSpec)
    requires namespace != source.namespace && other != CopySpec(source, version, namespace)
    ensures CopyStepHolds(ref, source, version, namespace, data, other, 3)
  {
    var a, c := CopyRun(ref, source, version, namespace, data, other)[3], CopyState(ref, source, version, namespace, data, other, 3);
    var c' := CopyState(ref, source, version, namespace, data, other, 4);
    assert Union([], [FINALIZER]) == [FINALIZER] by {
      assert Union([FINALIZER], [FINALIZER][1..]) == [FINALIZER];
    }
    assert Act(a, c).objects == c'.objects && Act(a, c).syncs == c'.syncs && Act(a, c).history == c'.history;
  }

  lemma DestinationRecorded(ref: NamespacedName, source: Key, version: string, namespace: string, data: Payload,
                            other: ObjectSyncSpec)
    requires namespace != source.namespace && other != CopySpec(source, version, namespace)
    ensures CopyStepHolds(ref, source, version, namespace, data, other, 4)
  {
    var a, c := CopyRun(ref, source, version, namespace, data, other)[4], CopyState(ref, source, version, namespace, data, other, 4);
    var c' := CopyState(ref, source, version, namespace, data, other, 5);
    var d := CopyEntry(source, version, namespace);
    assert d in [d] && d.Identity() in KeySet([d]) && d.Identity() != source;
    assert Act(a, c).objects == c'.objects && Act(a, c).syncs == c'.syncs && Act(a, c).history == c'.history;
  }

  lemma CopyCreated(ref: NamespacedName, source: Key, version: string, namespace: string, data: Payload,
                    other: ObjectSyncSpec)
    requires namespace != source.namespace && other != CopySpec(source, version, namespace)
    ensures CopyStepHolds(ref, source, version, namespace, data, other, 5)
  {
    var a, c := CopyRun(ref, source, version, namespace, data, other)[5], CopyState(ref, source, version, namespace, data, other, 5);
    var c' := CopyState(ref, source, version, namespace, data, other, 6);
    var d := CopyEntry(source, version, namespace);
    assert d in [d] && d.Identity() in KeySet([d]) && d.Identity() != source;
    assert FINALIZER in [FINALIZER];
    assert Act(a, c).objects == c'.objects && Act(a, c).syncs == c'.syncs && Act(a, c).history == c'.history;
  }

  lemma SourceDeleted(ref: NamespacedName, source: Key, version: string, namespace: string, data: Payload,
                      other: ObjectSyncSpec)
    requires namespace != source.namespace && other != CopySpec(source, version, namespace)
    ensures CopyStepHolds(ref, source, version, namespace, data, other, 6)
  {
    var a, c := CopyRun(ref, source, version, namespace, data, other)[6], CopyState(ref, source, version, namespace, data, other, 6);
    var c' := CopyState(ref, source, version, namespace, data, other, 7);
    assert Act(a, c).objects == c'.objects && Act(a, c).syncs == c'.syncs && Act(a, c).history == c'.history;
  }

  lemma SpecEdited(ref: NamespacedName, source: Key, version: string, namespace: string, data: Payload,
                   other: ObjectSyncSpec)
    requires namespace != source.namespace && other != CopySpec(source, version, namespace)
    ensures CopyStepHolds(ref, source, version, namespace, data, other, 7)
  {
    var a, c := CopyRun(ref, source, version, namespace, data, other)[7], CopyState(ref, source, version, namespace, data, other, 7);
    var c' := CopyState(ref, source, version, namespace, data, other, 8);
    assert FINALIZER in [FINALIZER];
    assert Act(a, c).objects == c'.objects && Act(a, c).syncs == c'.syncs && Act(a, c).history == c'.history;
  }

  lemma {:induction false} CopyReplay(ref: NamespacedName, source: Key, version: string, namespace: string, data: Payload,
                                      other: ObjectSyncSpec, i: nat)
    requires i <= 8 && namespace != source.namespace && other != CopySpec(source, version, namespace)
    ensures
      var run := CopyRun(ref, source, version, namespace, data, other)[..i];
      Legal(run) && Replay(run) == CopyState(ref, source, version, namespace, data, other, i)
  {
    if i > 0 {
      var run := CopyRun(ref, source, version, namespace, data, other);
      CopyReplay(ref, source, version, namespace, data, other, i - 1);
      CopyStep(ref, source, version, namespace, data, other, i - 1);
      LegalStep(run, i - 1);
      assert run[..i] == run[..i - 1] + [run[i - 1]];
      ExtendRun(run[..i - 1], run[i - 1]);
    }
  }

  /** A source being deleted, held by our finalizer, and a live copy of it, tracked and
      written for the ObjectSync, which is finalized. */
  ghost predicate CopyLives(c: Cluster, ref: NamespacedName, source: Key, d: DestinationStatus, data: Payload) {
    && Held(c, ref) && c.syncs[ref].Ref() == ref && d in c.syncs[ref].Tracked() && LiveFor(c, ref, d.Identity())
    && c.objects[d.Identity()].payload == Template(Snapshot(source, 0, data))
    && source in c.objects && c.objects[source].terminating && c.objects[source].finalizers == [FINALIZER]
  }

  lemma CopyStateMeans(ref: NamespacedName, source: Key, version: string, namespace: string, data: Payload,
                       other: ObjectSyncSpec, i: nat)
    requires 7 <= i <= 8 && namespace != source.namespace
    ensures
      var c := CopyState(ref, source, version, namespace, data, other, i);
      && CopyLives(c, ref, source, CopyEntry(source, version, namespace), data)
      && c.syncs[ref].spec == (if i == 7 then CopySpec(source, version, namespace) else other)
      && (i == 7 ==> c.syncs[ref].SourceRef() == NamespacedName(source.namespace, source.name))
  {
    var c, d := CopyState(ref, source, version, namespace, data, other, i), CopyEntry(source, version, namespace);
    assert d in [d] && d.Identity() != source;
    assert SyncId(ref, 2) in c.objects[d.Identity()].writers;
  }

  /** If an undisturbed reconcile of a deleted source finds nothing, it lets the source
      go and every copy live. */
  lemma NothingFoundNothingDone(t0: Trace, t: Trace, a: Account, refs: set<NamespacedName>, place: NamespacedName,
                                source: Source, now: string, result: SourceResult, ref: NamespacedName, k: Key)
    requires Deletion(t0, t, a, refs, place, source, now, result) && result.Released? && a.found == []
    requires t0.meddling == t.meddling && LiveFor(Replay(t0.run), ref, k)
    ensures LiveFor(Replay(t.run[..a.ended.run]), ref, k)
  {
    var before, c := Replay(t0.run), Replay(t.run[..a.ended.run]);
    assert TrackedKeys(a.found) == {};
    assert c.objects[k] == before.objects[k];
    var id :| id in before.objects[k].writers && id.ref == ref;
    assert id in c.objects[k].writers;
  }

  /** The edited spec: nothing fails and nobody interferes, every read is answered, and
      yet the source is let go while the copy made from it lives. */
  method EditedSpecLeavesCopy(server: ApiServer, scope: Scope, ref: NamespacedName, source: Key, version: string,
                              namespace: string,
                              data: Payload, other: ObjectSyncSpec, now: string)
    returns (result: SourceResult, ghost account: Account)
    requires namespace != source.namespace && other.source.name != source.name
    requires server.Valid() && server.run == CopyRun(ref, source, version, namespace, data, other)
    requires scope == Scope({ref}, {})
    modifies server
    ensures old(server.cluster) == Replay(old(server.run)) && Legal(old(server.run))
    ensures CopyLives(old(server.cluster), ref, source, CopyEntry(source, version, namespace), data)
    ensures server.Calm() ==>
              && result == Released(Success(true)) && account.found == []
              && AllAnswered(old(server.cluster), account.readings)
              && account.ended.run <= |server.run|
              && LiveFor(Replay(server.run[..account.ended.run]), ref, CopyEntry(source, version, namespace).Identity())
  {
    CopyReplay(ref, source, version, namespace, data, other, 8);
    CopyStateMeans(ref, source, version, namespace, data, other, 8);
    assert server.run[..8] == server.run;
    server.IsReplayed();
    var place, seen := NamespacedName(source.namespace, source.name), server.cluster.objects[source];
    ghost var t0 := server.Past();
    result, account := ReconcileDeleted(server, scope, {ref}, Source(source, seen), place, now);
    if server.Calm() {
      AnsweredByAnother(t0, server.Past(), account, ref, place, Source(source, seen), now, result,
                        CopyEntry(source, version, namespace).Identity());
    }
  }

  lemma AnsweredByAnother(t0: Trace, t: Trace, a: Account, ref: NamespacedName, place: NamespacedName, source: Source,
                          now: string,
                          result: SourceResult, k: Key)
    requires Deletion(t0, t, a, {ref}, place, source, now, result) && result.Released? && result.r.Success?
    requires t0.meddling == t.meddling && AllAnswered(Replay(t0.run), a.readings)
    requires ref in Replay(t0.run).syncs && Replay(t0.run).syncs[ref].SourceRef() != place && LiveFor(Replay(t0.run), ref, k)
    requires FINALIZER in source.seen.finalizers
    ensures result == Released(Success(true)) && a.found == []
    ensures a.ended.run <= |t.run| && LiveFor(Replay(t.run[..a.ended.run]), ref, k)
  {
    AnotherIsNotFound(Replay(t0.run), a.readings, ref, place);
    NothingFoundNothingDone(t0, t, a, {ref}, place, source, now, result, ref, k);
  }

  lemma AnotherIsNotFound(c: Cluster, readings: seq<Reading>, ref: NamespacedName, place: NamespacedName)
    requires Covers(readings, {ref}) && AllAnswered(c, readings)
    requires ref in c.syncs && c.syncs[ref].SourceRef() != place
    ensures StillNaming(readings, place) == []
  {
    forall r | r in readings ensures !StillNames(r, place) {
      assert r.ref in Asked(readings);
    }
    NobodyFound(readings, place);
  }

  /** Nothing is found if no read was answered by an ObjectSync that names the source. */
  lemma {:induction false} NobodyFound(readings: seq<Reading>, place: NamespacedName)
    requires forall r | r in readings :: !StillNames(r, place)
    ensures StillNaming(readings, place) == []
  {
    if readings != [] {
      assert readings[|readings| - 1] in readings;
      NobodyFound(readings[..|readings| - 1], place);
    }
  }

  /** The past of a reconcile whose one read failed and which then let the source go. */
  function FailedReadPast(run: Run, ref: NamespacedName, source: Key): Trace {
    var release := SetFinalizers(source, []);
    Trace(run + [Action.Controller(NamespacedName(source.namespace, source.name), release, true)],
          [SawSync(ref, Rejected(Other)), Issued(release, Accepted)], [|run|, |run|], 0, 1)
  }

  /** The failed read: a complete past of a server, in which an ObjectSync that names the
      source is not read, the reconcile ends in success, the source is gone, and the copy lives. */
  lemma FailedReadLeavesCopy(ref: NamespacedName, source: Key, version: string, namespace: string, data: Payload,
                             other: ObjectSyncSpec, now: string)
    returns (t0: Trace, t: Trace, a: Account, seen: Object)
    requires namespace != source.namespace && other != CopySpec(source, version, namespace)
    ensures t0 == Trace(CopyRun(ref, source, version, namespace, data, other)[..7], [], [], 0, 0)
    ensures CopyLives(Replay(t0.run), ref, source, CopyEntry(source, version, namespace), data)
    ensures Replay(t0.run).syncs[ref].SourceRef() == NamespacedName(source.namespace, source.name)
    ensures Recorded(0, t.run, Replay(t.run), t.log, t.moments, CallsOf(t.log), |CallsOf(t.log)|) && Later(t0, t)
    ensures a.readings == [Reading(ref, None)] && source in Replay(t0.run).objects && seen == Replay(t0.run).objects[source]
    ensures Deletion(t0, t, a, {ref}, NamespacedName(source.namespace, source.name), Source(source, seen), now, Released(Success(true)))
    ensures source !in Replay(t.run).objects && LiveFor(Replay(t.run), ref, CopyEntry(source, version, namespace).Identity())
  {
    var run, place := CopyRun(ref, source, version, namespace, data, other)[..7], NamespacedName(source.namespace, source.name);
    CopyReplay(ref, source, version, namespace, data, other, 7);
    CopyStateMeans(ref, source, version, namespace, data, other, 7);
    var c := Replay(run);
    t0, t, seen := Trace(run, [], [], 0, 0), FailedReadPast(run, ref, source), c.objects[source];
    var readings := [Reading(ref, None)];
    var mark := Mark(7, 1, 0, 1);
    a := Account(readings, [], mark, [], mark);
    ReleaseActs(c, ref, source, CopyEntry(source, version, namespace).Identity());
    ExtendRun(run, t.run[7]);
    CopyRunIsOthers(ref, source, version, namespace, data, other);
    FailedReadRecorded(run, ref, source);
    FailedReadDeletion(run, ref, source, seen, now);
  }

  lemma CopyRunIsOthers(ref: NamespacedName, source: Key, version: string, namespace: string, data: Payload,
                        other: ObjectSyncSpec)
    ensures forall a | a in CopyRun(ref, source, version, namespace, data, other)[..7] :: a.Controller? ==> !a.own
  {
  }

  /** These records are the story of a release. */
  lemma FailedReadDeletion(run: Run, ref: NamespacedName, source: Key, seen: Object, now: string)
    requires seen.finalizers == [FINALIZER]
    ensures
      var mark := Mark(|run|, 1, 0, 1);
      Deletion(Trace(run, [], [], 0, 0), FailedReadPast(run, ref, source), Account([Reading(ref, None)], [], mark, [], mark), {ref},
               NamespacedName(source.namespace, source.name), Source(source, seen), now, Released(Success(true)))
  {
    var t0, t, mark := Trace(run, [], [], 0, 0), FailedReadPast(run, ref, source), Mark(|run|, 1, 0, 1);
    assert t.run[..|run|] == run;
    FailedReadLookedUp(t0, t, ref, NamespacedName(source.namespace, source.name));
    NothingLeftOf(seen.finalizers);
    assert Chained(0, t, mark, mark, []);
    assert TrackedKeys([]) == {};
  }

  /** Without finalizers a terminating object is gone, and nothing else is touched. */
  lemma ReleaseActs(c: Cluster, ref: NamespacedName, source: Key, k: Key)
    requires source in c.objects && c.objects[source].terminating && k != source && LiveFor(c, ref, k)
    ensures
      var c' := Effect(SetFinalizers(source, []), c);
      source !in c'.objects && LiveFor(c', ref, k)
  {
    var c' := Effect(SetFinalizers(source, []), c);
    var id :| id in c.objects[k].writers && id.ref == ref;
    assert id in c'.objects[k].writers;
  }

  lemma FailedReadRecorded(run: Run, ref: NamespacedName, source: Key)
    requires Legal(run) && (forall a | a in run :: a.Controller? ==> !a.own)
    ensures
      var t := FailedReadPast(run, ref, source);
      Recorded(0, t.run, Replay(t.run), t.log, t.moments, CallsOf(t.log), |CallsOf(t.log)|)
  {
    var t := FailedReadPast(run, ref, source);
    ExtendRun(run, t.run[|run|]);
    assert t.log[..1] == [SawSync(ref, Rejected(Other))] && t.log[..1][..0] == [];
    assert NeverBlind([]) && NeverBlind(t.log[..1]) && NeverBlind(t.log);
    assert forall j | 0 <= j < |run| :: t.run[j] == run[j] && run[j] in run && (t.run[j].Controller? ==> !t.run[j].own);
    forall j | 0 <= j < |t.run| && t.run[j].Controller? && t.run[j].own ensures LoggedAt(t.run[j].call, t.log, t.moments, j) {
      assert t.moments[1] == j && t.log[1].call == t.run[j].call;
    }
  }

  lemma FailedReadLookedUp(t0: Trace, t: Trace, ref: NamespacedName, place: NamespacedName)
    requires t0.log == [] && |t.log| == |t.moments| > 0 && t.moments[0] <= |t.run| && t.log[0] == SawSync(ref, Rejected(Other))
    ensures LookedUp(t0, t, [Reading(ref, None)], [], {ref}, place)
  {
    var r := Reading(ref, None);
    assert Asked([r]) == {ref} by {
      assert r in [r];
    }
    NobodyFound([r], place);
  }

  // ---------------------------------------------------------------------
  // A source that is gone is brought back empty

  /** A source is created and deleted, not yet held by our finalizer. */
  function GoneRun(ref: NamespacedName, source: Key, spec: ObjectSyncSpec, data: Payload): Run {
    [ User(Put(source, data, [])),
      User(PutSync(ref, spec, [])),
      Action.Controller(ref, SetSyncFinalizers(ref, [FINALIZER]), false),
      User(Remove(source)) ]
  }

  lemma GoneState(ref: NamespacedName, source: Key, spec: ObjectSyncSpec, data: Payload)
    ensures
      var run := GoneRun(ref, source, spec, data);
      var s := ObjectSync(Some(ref.namespace), ref.name, 2, 4, [FINALIZER], false, spec, None);
      Legal(run) && Replay(run) == Cluster(map[], map[ref := s], map[1 := Snapshot(source, 0, data)], 5)
  {
    var run := GoneRun(ref, source, spec, data);
    var s := ObjectSync(Some(ref.namespace), ref.name, 2, 3, [], false, spec, None);
    var history := map[1 := Snapshot(source, 0, data)];
    var objects := map[source := Object(0, 1, data, [], false, {})];
    assert run[..0] == [] && run[..1] == [run[0]] && run[..2] == run[..1] + [run[1]] && run[..3] == run[..2] + [run[2]]
           && run == run[..3] + [run[3]];
    ExtendRun([], run[0]);
    ExtendRun(run[..1], run[1]);
    ExtendRun(run[..2], run[2]);
    ExtendRun(run[..3], run[3]);
    assert Replay(run[..1]) == Cluster(objects, map[], history, 2);
    assert Replay(run[..2]) == Cluster(objects, map[ref := s], history, 4);
    assert FINALIZER in [FINALIZER];
    assert Replay(run[..3]) == Cluster(objects, map[ref := s.(finalizers := [FINALIZER], version := 4)], history, 5);
    assert Replay(run).objects == map[];
  }

  /** An undisturbed reconcile of the revision the watch delivered before the deletion
      makes an empty object in the place of the source. */
  method StaleSourceIsConjured(server: ApiServer, scope: Scope, ref: NamespacedName, source: Key,
                               spec: ObjectSyncSpec, data: Payload,
                               gvk: Gvk, cache: seq<Namespace>, now: string)
    returns (result: SourceResult, ghost account: Account)
    requires server.Valid() && server.run == GoneRun(ref, source, spec, data) && scope == Scope({ref}, {})
    modifies server
    ensures Legal(old(server.run)) && source !in old(server.cluster).objects
    ensures account.begun.run <= |server.run|
    ensures server.Calm() ==> Conjured(old(server.cluster), Replay(server.run[..account.begun.run]), source)
  {
    GoneState(ref, source, spec, data);
    server.IsReplayed();
    var seen := Object(0, 1, data, [], false, {});
    result, account := ReconcileLive(server, scope, {ref}, gvk, cache, Source(source, seen),
                                     NamespacedName(source.namespace, source.name), now);
  }

  // ---------------------------------------------------------------------
  // A false not-found answer to a deletion

  /** The race without the race: an ObjectSync with a tracked live copy is deleted, the
      deletion of the copy is answered as not found, though it is there, and the
      reconcile records that nothing is left and lets the ObjectSync go. */
  function FalseNotFoundRun(ref: NamespacedName, spec: ObjectSyncSpec, d: DestinationStatus, payload: Payload,
                            now: string): Run {
    var o := FalseNotFoundSync(ref, spec, d);
    RaceRun(ref, spec, d, payload, None)[..4]
    + [User(RemoveSync(ref))]
    + [Action.Controller(ref, PutStatus(ref, o.uid, o.version, RemovedStatus(o, now)), false)]
    + [Action.Controller(ref, SetSyncFinalizers(ref, Dropped(o.finalizers, FINALIZER)), false)]
  }

  /** The ObjectSync as the deletion reads it. */
  function FalseNotFoundSync(ref: NamespacedName, spec: ObjectSyncSpec, d: DestinationStatus): ObjectSync {
    ObjectSync(Some(ref.namespace), ref.name, 0, 6, [FINALIZER], true, spec, Some(ObjectSyncStatus(None, Some([d]))))
  }

  /** What a deletion writes that was told that its one destination is gone. */
  function RemovedStatus(o: ObjectSync, now: string): Option<ObjectSyncStatus> {
    o.WithCondition(RemovalCondition(1, 0), now).WithDestinations([]).status
  }

  /** Why the model assumes not-found answers to deletions to be truthful: with one that is
      not, and no other failure and no interference, the copy is orphaned. The two calls
      that follow from the answer are the only ones that miss their guards. */
  lemma FalseNotFoundOrphans(ref: NamespacedName, spec: ObjectSyncSpec, d: DestinationStatus, payload: Payload, now: string)
    returns (run: Run, o: ObjectSync)
    requires d == d.Unversioned()
    ensures run == FalseNotFoundRun(ref, spec, d, payload, now) && |run| == 7 && Legal(run[..5])
    ensures ref in Replay(run[..5]).syncs && o == Replay(run[..5]).syncs[ref] && o.Tracked() == [d] && LiveFor(Replay(run[..5]), ref, d.Identity())
    ensures Enabled(Delete(d.Identity()), Replay(run[..5]))
    ensures run[5].Controller? && run[5].call == PutStatus(ref, o.uid, o.version, RemovedStatus(o, now))
    ensures run[6].Controller? && run[6].call == SetSyncFinalizers(ref, Dropped(o.finalizers, FINALIZER))
    ensures Enabled(run[5].call, Replay(run[..5])) && Enabled(run[6].call, Replay(run[..6]))
    ensures !Permitted(ref, run[5].call, Replay(run[..5])) && !Permitted(ref, run[6].call, Replay(run[..6]))
    ensures !NoOrphans(Replay(run))
  {
    run, o := FalseNotFoundRun(ref, spec, d, payload, now), FalseNotFoundSync(ref, spec, d);
    FalseNotFoundReplay(ref, spec, d, payload, now);
    var c5, c6 := FalseNotFoundState(ref, spec, d, payload, now, 5), FalseNotFoundState(ref, spec, d, payload, now, 6);
    assert d in [d] && SyncId(ref, 0) in c5.objects[d.Identity()].writers;
    assert LiveFor(c5, ref, d.Identity()) && LiveFor(c6, ref, d.Identity());
    assert SyncId(ref, 0) in Replay(run).objects[d.Identity()].writers;
    NothingLeftOf(o.finalizers);
  }

  lemma NothingLeftOf(finalizers: seq<string>)
    requires finalizers == [FINALIZER]
    ensures Dropped(finalizers, FINALIZER) == []
  {
    assert finalizers[..0] == [];
  }

  function FalseNotFoundState(ref: NamespacedName, spec: ObjectSyncSpec, d: DestinationStatus, payload: Payload,
                              now: string, i: nat): Cluster {
    var c, o := RaceState(ref, spec, d, payload, None, 4), FalseNotFoundSync(ref, spec, d);
    if i <= 4 then c
    else if i == 5 then c.(syncs := map[ref := o], clock := 7)
    else if i == 6 then c.(syncs := map[ref := o.(status := RemovedStatus(o, now), version := 7)], clock := 8)
    else c.(syncs := map[], clock := 8)
  }

  lemma FalseNotFoundReplay(ref: NamespacedName, spec: ObjectSyncSpec, d: DestinationStatus, payload: Payload, now: string)
    requires d == d.Unversioned()
    ensures
      var run := FalseNotFoundRun(ref, spec, d, payload, now);
      && |run| == 7 && Legal(run[..5])
      && (forall i | 4 <= i <= 7 :: Replay(run[..i]) == FalseNotFoundState(ref, spec, d, payload, now, i))
      && run[..7] == run
  {
    var run, start := FalseNotFoundRun(ref, spec, d, payload, now), RaceRun(ref, spec, d, payload, None)[..4];
    RaceReplay(ref, spec, d, payload, None, 4);
    RaceLegal(ref, spec, d, payload, None);
    assert run[..4] == start && run[..5] == start + [run[4]] && run[..6] == run[..5] + [run[5]] && run[..7] == run[..6] + [run[6]] == run;
    ExtendRun(start, run[4]);
    ExtendRun(run[..5], run[5]);
    ExtendRun(run[..6], run[6]);
    FalseNotFoundStep(ref, spec, d, payload, now, 4);
    FalseNotFoundStep(ref, spec, d, payload, now, 5);
    FalseNotFoundStep(ref, spec, d, payload, now, 6);
  }

  lemma FalseNotFoundStep(ref: NamespacedName, spec: ObjectSyncSpec, d: DestinationStatus, payload: Payload,
                          now: string, i: nat)
    requires 4 <= i < 7
    ensures Act(FalseNotFoundRun(ref, spec, d, payload, now)[i], FalseNotFoundState(ref, spec, d, payload, now, i))
         == FalseNotFoundState(ref, spec, d, payload, now, i + 1)
  {
    var a, c := FalseNotFoundRun(ref, spec, d, payload, now)[i], FalseNotFoundState(ref, spec, d, payload, now, i);
    NothingLeftOf([FINALIZER]);
    assert Act(a, c).syncs == FalseNotFoundState(ref, spec, d, payload, now, i + 1).syncs;
  }

  // ---------------------------------------------------------------------
  // A registration is lost

  /** An ObjectSync for one source, with an empty list of destinations; a user edits its
      spec, a check reads it, the user takes the edit back, and the check, moving the
      registration, writes the status it made from its read. */
  function MovedBackRun(ref: NamespacedName, spec: ObjectSyncSpec, other: ObjectSyncSpec,
                        status: Option<ObjectSyncStatus>): Run {
    [ User(PutSync(ref, spec, [])),
      Action.Controller(ref, SetSyncFinalizers(ref, [FINALIZER]), false),
      Action.Controller(ref, PutStatus(ref, 0, 2, Some(ObjectSyncStatus(None, Some([])))), false),
      User(PutSync(ref, other, [FINALIZER])),
      User(PutSync(ref, spec, [FINALIZER])),
      Action.Controller(ref, PutStatus(ref, 0, 5, status), false) ]
  }

  function MovedBackState(ref: NamespacedName, spec: ObjectSyncSpec, other: ObjectSyncSpec, status: Option<ObjectSyncStatus>,
                          i: nat): Cluster {
    var s := ObjectSync(Some(ref.namespace), ref.name, 0, 1, [], false, spec, None);
    var held := s.(finalizers := [FINALIZER], version := 2);
    var listed := held.(status := Some(ObjectSyncStatus(None, Some([]))), version := 3);
    var sync := if i == 1 then s else if i == 2 then held else if i == 3 then listed
                else if i == 4 then listed.(spec := other, version := 4)
                else if i == 5 then listed.(version := 5)
                else listed.(status := status, version := 6);
    if i == 0 then EMPTY else Cluster(map[], map[ref := sync], map[], i + 1)
  }

  lemma MovedBackStep(ref: NamespacedName, spec: ObjectSyncSpec, other: ObjectSyncSpec,
                      status: Option<ObjectSyncStatus>, i: nat)
    requires i < 6 && spec != other && DestinationsOf(status) == [] && status != Some(ObjectSyncStatus(None, Some([])))
    ensures
      var a, c := MovedBackRun(ref, spec, other, status)[i], MovedBackState(ref, spec, other, status, i);
      && Act(a, c) == MovedBackState(ref, spec, other, status, i + 1)
      && (a.Controller? ==> Permitted(a.actor, a.call, c))
  {
    var a, c := MovedBackRun(ref, spec, other, status)[i], MovedBackState(ref, spec, other, status, i);
    var c' := MovedBackState(ref, spec, other, status, i + 1);
    assert FINALIZER in [FINALIZER];
    assert Act(a, c).syncs == c'.syncs;
  }

  lemma {:induction false} MovedBackReplay(ref: NamespacedName, spec: ObjectSyncSpec, other: ObjectSyncSpec,
                                           status: Option<ObjectSyncStatus>, i: nat)
    requires i <= 6 && spec != other && DestinationsOf(status) == [] && status != Some(ObjectSyncStatus(None, Some([])))
    ensures
      var run := MovedBackRun(ref, spec, other, status);
      Replay(run[..i]) == MovedBackState(ref, spec, other, status, i) && Legal(run[..i])
  {
    if i > 0 {
      var run := MovedBackRun(ref, spec, other, status);
      MovedBackReplay(ref, spec, other, status, i - 1);
      MovedBackStep(ref, spec, other, status, i - 1);
      LegalStep(run, i - 1);
      assert run[..i] == run[..i - 1] + [run[i - 1]];
      ExtendRun(run[..i - 1], run[i - 1]);
    }
  }

  /** What the check, having deleted nothing, writes. */
  function MovedStatus(o: ObjectSync, now: string): Option<ObjectSyncStatus> {
    o.WithCondition(RemovalCondition(0, 0), now).WithDestinations([]).status
  }

  /** The whole story of a lost registration, over a legal run: registered for the
      source of `first`, read as `o`, answered as `reply`. The check decides to move,
      since the registration does not fit what it has read; but by the answer to its
      own status write the ObjectSync names the source it is registered for. */
  lemma MovedBackRegistersTheSame(ref: NamespacedName, spec: ObjectSyncSpec, other: ObjectSyncSpec, gvk: Gvk, now: string)
    returns (run: Run, first: ObjectSync, o: ObjectSync, reply: ObjectSync)
    requires spec.source.name != other.source.name
    ensures Legal(run) && |run| == 6 && run == MovedBackRun(ref, spec, other, MovedStatus(o, now))
    ensures ref in Replay(run[..3]).syncs && first == Replay(run[..3]).syncs[ref]
    ensures ref in Replay(run[..4]).syncs && o == Replay(run[..4]).syncs[ref]
    ensures first.namespace == Some(ref.namespace) && first.spec == spec && reply.spec == spec && o.spec == other
    ensures reply.namespace == first.namespace
    ensures o.Ref() == ref && o.StatusDestinations() == Some([]) && run[3] == User(PutSync(ref, other, [FINALIZER]))
    ensures ref in Replay(run[..5]).syncs && run[4] == User(PutSync(ref, spec, [FINALIZER]))
    ensures run[5].Controller? && run[5].call == PutStatus(ref, o.uid, Replay(run[..5]).syncs[ref].version, MovedStatus(o, now))
    ensures Enabled(run[5].call, Replay(run[..5])) && ref in Replay(run).syncs && reply == Replay(run).syncs[ref]
    ensures Binding(gvk, first.SourceRef()) != Binding(gvk, o.SourceRef())
    ensures Binding(gvk, first.SourceRef()) == Binding(gvk, reply.SourceRef())
  {
    o := ObjectSync(Some(ref.namespace), ref.name, 0, 4, [FINALIZER], false, other, Some(ObjectSyncStatus(None, Some([]))));
    var status := MovedStatus(o, now);
    run := MovedBackRun(ref, spec, other, status);
    MovedBackReplay(ref, spec, other, status, 3);
    MovedBackReplay(ref, spec, other, status, 4);
    MovedBackReplay(ref, spec, other, status, 5);
    MovedBackReplay(ref, spec, other, status, 6);
    assert run[..6] == run;
    first, reply := Replay(run[..3]).syncs[ref], Replay(run).syncs[ref];
  }

  /** In the terms of the check itself: whatever it made of its registration, having
      found it for the source of `first`, read `o` and registered for `reply`, it has
      moved it and lost it. */
  lemma MovedBackIsLost(ref: NamespacedName, spec: ObjectSyncSpec, other: ObjectSyncSpec, gvk: Gvk, now: string, moved: bool,
                        before: map<Holder, Binding>, erasedBefore: set<Holder>, after: map<Holder, Binding>, erased: set<Holder>)
    returns (run: Run, first: ObjectSync, o: ObjectSync, reply: ObjectSync)
    requires spec.source.name != other.source.name && Holder(ref, false) in before
    ensures Legal(run) && |run| == 6 && run == MovedBackRun(ref, spec, other, MovedStatus(o, now))
    ensures ref in Replay(run[..3]).syncs && first == Replay(run[..3]).syncs[ref]
    ensures ref in Replay(run[..4]).syncs && o == Replay(run[..4]).syncs[ref]
    ensures ref in Replay(run).syncs && reply == Replay(run).syncs[ref]
    ensures
      && before[Holder(ref, false)] == Binding(gvk, first.SourceRef())
      && (moved <==> before[Holder(ref, false)] != Binding(gvk, o.SourceRef()))
      && Enlisted(true, ref, Binding(gvk, reply.SourceRef()), moved, before, erasedBefore, after, erased) ==>
        moved && Holder(ref, false) in erased
  {
    run, first, o, reply := MovedBackRegistersTheSame(ref, spec, other, gvk, now);
    assert Unfold(0);
  }

  /** What the registry does in a check that moves from `src` to `src`. */
  method MoveBack(ref: NamespacedName, src: NamespacedName, gvk: Gvk) returns (registry: Registry)
    ensures fresh(registry) && registry.AtRest()
    ensures ref in registry.instances && Holder(ref, false) in registry.registrations
    ensures registry.registrations[Holder(ref, false)] == Binding(gvk, src)
    ensures !Enrolled(registry.Sources(gvk), src, ref)
  {
    registry := new Registry();
    registry.Add(ref, src, gvk);
    var active := registry.Lookup(ref);
    registry.Detach(ref, active.value);
    registry.Conclude(ref, true, src, gvk, active.value);
    IndexBetweenChecks(registry.Content(), registry.registrations, registry.erased, registry.instances, registry.next, gvk, src, ref, 0);
  }

  /** So the check loses the registration: the table keeps an instance that is in no
      index, and the controller of the source the ObjectSync names never hears of it. */
  method MovingBackLoses(ref: NamespacedName, spec: ObjectSyncSpec, other: ObjectSyncSpec, gvk: Gvk, now: string)
    returns (registry: Registry, ghost run: Run)
    requires spec.source.name != other.source.name
    ensures Legal(run) && |run| == 6 && ref in Replay(run[..3]).syncs && ref in Replay(run[..4]).syncs && ref in Replay(run).syncs
    ensures
      var first, o, reply := Replay(run[..3]).syncs[ref], Replay(run[..4]).syncs[ref], Replay(run).syncs[ref];
      && run[5].Controller? && run[5].call.PutStatus? && run[5].call.status == MovedStatus(o, now)
      && Binding(gvk, first.SourceRef()) != Binding(gvk, o.SourceRef())
      && fresh(registry) && registry.AtRest()
      && ref in registry.instances && Holder(ref, false) in registry.registrations
      && registry.registrations[Holder(ref, false)] == Binding(gvk, first.SourceRef()) == Binding(gvk, reply.SourceRef())
      && !Enrolled(registry.Sources(gvk), reply.SourceRef(), ref)
  {
    ghost var first, o, reply;
    run, first, o, reply := MovedBackRegistersTheSame(ref, spec, other, gvk, now);
    var src := NamespacedName(spec.source.namespace.GetOr(ref.namespace), spec.source.name);
    assert src == first.SourceRef() == reply.SourceRef();
    registry := MoveBack(ref, src, gvk);
  }
}
