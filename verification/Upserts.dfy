/** Creating and updating destination objects. */
module Upserts {
  import opened Common
  import opened Apis
  import opened ClusterModel
  import opened Interference
  import opened Runs
  import opened ApiServers
  import opened Utils

  /** The source object as the reconcile has it in hand. */
  datatype Source = Source(key: Key, seen: Object) {
    function Template(): Payload {
      ClusterModel.Template(Snapshot(key, seen.uid, seen.payload))
    }

    function Revision(): Revision {
      seen.Revision()
    }
  }

  /** What a copy of the source holds, in the source object's own terms: every field as
      it is there, but for the two marks of a copy, and these marks. */
  predicate Carries(payload: Payload, source: Source) {
    && (forall f | f in source.seen.payload && f != Label("app.kubernetes.io/managed-by")
                   && f != Annotation("sync.rustrial.org/source-object") ::
          f in payload && payload[f] == source.seen.payload[f])
    && Label("app.kubernetes.io/managed-by") in payload
    && payload[Label("app.kubernetes.io/managed-by")] == "rustrial-object-syncer"
    && Annotation("sync.rustrial.org/source-object") in payload
    && payload[Annotation("sync.rustrial.org/source-object")] == source.key.namespace + "/" + source.key.name
  }

  /** It holds nothing else. */
  predicate CarriesOnly(payload: Payload, source: Source) {
    && Carries(payload, source)
    && forall f | f in payload ::
         f in source.seen.payload || f == Label("app.kubernetes.io/managed-by") || f == Annotation("sync.rustrial.org/source-object")
  }

  /** What is left where the spec asks for a strategy: replacing leaves no other field;
      applying, which is also the default, may. */
  predicate CopyOf(payload: Payload, source: Source, strategy: Option<SyncStrategy>) {
    Carries(payload, source) && (strategy == Some(SyncStrategy.Replace) ==> CarriesOnly(payload, source))
  }

  /** Agreement with the template means to be a copy of the source. */
  lemma AgreesMeans(d: DestinationStatus, source: Source, payload: Payload)
    ensures Agrees(d.Strategy(), source.Template(), payload) <==> CopyOf(payload, source, d.strategy)
    ensures CarriesOnly(source.Template(), source)
  {
    var template := source.Template();
    assert forall f :: f in template <==>
              f in source.seen.payload || f == Label("app.kubernetes.io/managed-by") || f == Annotation("sync.rustrial.org/source-object");
    assert CarriesOnly(template, source);
    if CarriesOnly(payload, source) {
      assert payload.Keys == template.Keys;
      assert payload == template;
    }
    if Agrees(d.Strategy(), template, payload) {
      assert CoveredBy(template, payload);
      assert Carries(payload, source) by {
        forall f | f in source.seen.payload && f != Label("app.kubernetes.io/managed-by")
                   && f != Annotation("sync.rustrial.org/source-object")
          ensures f in payload && payload[f] == source.seen.payload[f]
        {
          assert f in template && template[f] == source.seen.payload[f];
        }
        assert Label("app.kubernetes.io/managed-by") in template && Annotation("sync.rustrial.org/source-object") in template;
      }
    }
    if Carries(payload, source) {
      forall f | f in template ensures f in payload && payload[f] == template[f] {
      }
    }
  }

  /** The recorded revisions are those of the live destination and the source. */
  predicate UpToDate(c: Cluster, d: DestinationStatus, source: Source) {
    && d.Identity() in c.objects
    && !c.objects[d.Identity()].terminating
    && d.syncedVersion == Some(c.objects[d.Identity()].Revision())
    && d.sourceVersion == Some(source.Revision())
  }

  /** The destination exists and agrees with the source's template. */
  predicate InAgreement(c: Cluster, d: DestinationStatus, source: Source) {
    && d.Identity() in c.objects
    && Agrees(d.Strategy(), source.Template(), c.objects[d.Identity()].payload)
  }

  /** Live, in agreement, recorded, and held by no foreign finalizer. */
  predicate Synced(c: Cluster, d: DestinationStatus, source: Source) {
    UpToDate(c, d, source) && InAgreement(c, d, source) && OnlyOurs(c.objects[d.Identity()])
  }

  /** Whoever holds the tracked list may write the destination. */
  ghost predicate Writer(c: Cluster, owner: SyncId, keys: set<Key>) {
    && Held(c, owner.ref)
    && c.syncs[owner.ref].uid == owner.uid
    && keys <= KeySet(c.syncs[owner.ref].Tracked())
  }

  /** The record is about this object. */
  predicate OnKey(r: Record, key: Key) {
    match r
    case Saw(k, _, _) => k == key
    case SawSync(_, _) => false
    case Issued(call, _) => (WritesObject(call) || Harmless(call)) && call.key == key
  }

  /** Failures after which the controller does not try again. */
  predicate Hard(r: Record, key: Key) {
    && OnKey(r, key)
    && match r
       case Saw(_, _, answer) => answer.Rejected? && !answer.error.NotFound?
       case SawSync(_, _) => false
       case Issued(call, answer) =>
         answer.Rejected? && (if call.Create? then !answer.error.Conflict? else answer.error.Other?)
  }

  predicate EndsHard(log: seq<Record>, key: Key) {
    log != [] && Hard(log[|log| - 1], key)
  }

  // What the log tells about an upsert.

  /** A write of the destination, in its own terms: where the entry says, with what the
      source holds, under our finalizer, and replacing only if that is asked for. */
  predicate WritesCopy(call: Call, d: DestinationStatus, source: Source) {
    WritesObject(call) ==>
      && call.key == Key(d.group, d.kind, d.namespace, d.name)
      && CarriesOnly(call.payload, source)
      && call.finalizers == ["sync.rustrial.org/rustrial-object-syncer"]
      && (call.Replace? ==> d.strategy == Some(SyncStrategy.Replace))
      && (call.ApplyPatch? ==> d.strategy != Some(SyncStrategy.Replace))
  }

  /** Only calls on the object were issued, and only its copy was written. */
  ghost predicate Worked(before: seq<Record>, after: seq<Record>, d: DestinationStatus, source: Source) {
    forall i: int {:trigger Unseal(i)} :: Unseal(i) ==> WorkedOn(i, before, after, d, source)
  }

  ghost predicate WorkedOn(i: int, before: seq<Record>, after: seq<Record>, d: DestinationStatus, source: Source) {
    && before <= after
    && (forall j | |before| <= j < |after| ::
          after[j].Issued? && OnKey(after[j], d.Identity()) && WritesCopy(after[j].call, d, source))
  }

  /** At most a change of the object's finalizers was issued. */
  predicate Patched(before: seq<Record>, after: seq<Record>, key: Key) {
    && before <= after && |after| <= |before| + 1
    && (after != before ==>
          after[|before|].Issued? && after[|before|].call.SetFinalizers? && after[|before|].call.key == key)
  }

  lemma PatchedIsWorked(before: seq<Record>, after: seq<Record>, d: DestinationStatus, source: Source)
    requires Patched(before, after, d.Identity())
    ensures Worked(before, after, d, source)
  {
  }

  lemma WorkedNone(log: seq<Record>, d: DestinationStatus, source: Source)
    ensures Worked(log, log, d, source)
  {
  }

  lemma WorkedOnce(before: seq<Record>, after: seq<Record>, d: DestinationStatus, source: Source)
    requires before <= after && |after| == |before| + 1
    requires after[|before|].Issued? && OnKey(after[|before|], d.Identity()) && WritesCopy(after[|before|].call, d, source)
    ensures Worked(before, after, d, source)
  {
  }

  lemma WorkedTransitive(a: seq<Record>, b: seq<Record>, c: seq<Record>, d: DestinationStatus, source: Source)
    requires Worked(a, b, d, source) && Worked(b, c, d, source)
    ensures Worked(a, c, d, source)
  {
    assert WorkedOn(0, a, b, d, source) && WorkedOn(0, b, c, d, source) by { assert Unseal(0); }
    assert WorkedOn(0, a, c, d, source);
  }

  /** One attempt: a read and what was done about it. One that is to be repeated has
      called the server again after its read; one that gives up ends in a hard failure. */
  ghost predicate Attempted(before: seq<Record>, after: seq<Record>, d: DestinationStatus, source: Source,
                            verdict: AttemptResult) {
    forall i: int {:trigger Unseal(i)} :: Unseal(i) ==> AttemptedParts(i, before, after, d, source, verdict)
  }

  ghost predicate AttemptedParts(i: int, before: seq<Record>, after: seq<Record>, d: DestinationStatus,
                                 source: Source, verdict: AttemptResult) {
    && before < after
    && after[|before|].Saw? && OnKey(after[|before|], d.Identity())
    && Worked(after[..|before| + 1], after, d, source)
    && (verdict.Retry? ==> |after| >= |before| + 2)
    && (verdict.GiveUp? ==> EndsHard(after, d.Identity()))
  }

  lemma AttemptTold(before: seq<Record>, read: seq<Record>, after: seq<Record>, d: DestinationStatus, source: Source,
                    verdict: AttemptResult)
    requires |read| == |before| + 1 && before <= read <= after && read[|before|].Saw? && OnKey(read[|before|], d.Identity())
    requires Worked(read, after, d, source)
    requires verdict.Retry? ==> |after| >= |before| + 2
    requires verdict.GiveUp? ==> EndsHard(after, d.Identity())
    ensures Attempted(before, after, d, source, verdict)
  {
    assert after[..|before| + 1] == read;
  }

  /** Nothing but `n` attempts to be repeated. */
  ghost predicate Attempts(before: seq<Record>, after: seq<Record>, d: DestinationStatus, source: Source, n: nat)
    decreases n
  {
    if n == 0 then after == before
    else exists m | 0 <= m <= |after| :: Attempts(before, after[..m], d, source, n - 1) && Attempted(after[..m], after, d, source, Retry)
  }

  lemma OneMoreAttempt(before: seq<Record>, mid: seq<Record>, after: seq<Record>, d: DestinationStatus,
                       source: Source, n: nat)
    requires Attempts(before, mid, d, source, n) && Attempted(mid, after, d, source, Retry)
    ensures Attempts(before, after, d, source, n + 1)
  {
    assert mid < after by { assert Unseal(0); }
    assert after[..|mid|] == mid;
  }

  /** What an upsert of one destination logged: up to two attempts that were to be
      repeated and then the last one; or three such attempts, if it failed. */
  ghost predicate UpsertLogged(before: seq<Record>, after: seq<Record>, d: DestinationStatus, source: Source,
                               success: bool) {
    forall i: int {:trigger Unseal(i)} :: Unseal(i) ==> UpsertLoggedParts(i, before, after, d, source, success)
  }

  ghost predicate UpsertLoggedParts(i: int, before: seq<Record>, after: seq<Record>, d: DestinationStatus,
                                    source: Source, success: bool) {
    || (!success && Attempts(before, after, d, source, 3))
    || exists n, m, verdict | 0 <= n < 3 && 0 <= m <= |after| ::
         Attempts(before, after[..m], d, source, n) && Attempted(after[..m], after, d, source, verdict) && !verdict.Retry? && (verdict.GiveUp? <==> !success)
  }

  lemma LastAttempt(before: seq<Record>, mid: seq<Record>, after: seq<Record>, d: DestinationStatus, source: Source,
                    n: nat, verdict: AttemptResult)
    requires n < 3 && Attempts(before, mid, d, source, n) && Attempted(mid, after, d, source, verdict) && !verdict.Retry?
    ensures UpsertLogged(before, after, d, source, !verdict.GiveUp?)
  {
    assert mid < after by { assert Unseal(0); }
    assert after[..|mid|] == mid;
    assert UpsertLoggedParts(0, before, after, d, source, !verdict.GiveUp?);
  }

  /** An upsert gives up only after a failure not worth a retry, or after three attempts. */
  lemma GaveUpForAReason(before: seq<Record>, after: seq<Record>, d: DestinationStatus, source: Source)
    requires UpsertLogged(before, after, d, source, false)
    ensures before < after && (EndsHard(after, d.Identity()) || (Attempts(before, after, d, source, 3) && |after| >= |before| + 6))
  {
    assert UpsertLoggedParts(0, before, after, d, source, false) by { assert Unseal(0); }
    if Attempts(before, after, d, source, 3) {
      AttemptsGrow(before, after, d, source, 3);
    } else {
      var n, m, verdict :| 0 <= n < 3 && 0 <= m <= |after| && Attempts(before, after[..m], d, source, n)
                           && Attempted(after[..m], after, d, source, verdict) && verdict.GiveUp?;
      assert AttemptedParts(0, after[..m], after, d, source, verdict) by { assert Unseal(0); }
      AttemptsGrow(before, after[..m], d, source, n);
    }
  }

  /** Each attempt takes at least two calls, and they all come after what was before. */
  lemma {:induction false} AttemptsGrow(before: seq<Record>, after: seq<Record>, d: DestinationStatus, source: Source,
                                        n: nat)
    requires Attempts(before, after, d, source, n)
    ensures before <= after && |after| >= |before| + 2 * n
  {
    if n > 0 {
      var m :| 0 <= m <= |after| && Attempts(before, after[..m], d, source, n - 1) && Attempted(after[..m], after, d, source, Retry);
      assert AttemptedParts(0, after[..m], after, d, source, Retry) by { assert Unseal(0); }
      AttemptsGrow(before, after[..m], d, source, n - 1);
    }
  }

  datatype AttemptResult = Written | Unchanged | Retry | GiveUp

  function WithRevisions(d: DestinationStatus, o: Object, source: Source): DestinationStatus {
    d.(syncedVersion := Some(o.Revision()), sourceVersion := Some(source.Revision()))
  }

  /** What a fresh write records is true. */
  lemma RecordedIsTrue(c: Cluster, d: DestinationStatus, o: Object, source: Source)
    requires WellFormed(c) && Known(c, source.key, source.seen)
    requires d.Identity() in c.objects && c.objects[d.Identity()] == o
    requires Agrees(d.Strategy(), source.Template(), o.payload)
    ensures RecordIsTrue(c.history, WithRevisions(d, o, source))
  {
  }

  /** Revision-skip soundness where the code relies on it: matching revisions in a
      true record mean that the destination agrees with the template. */
  lemma MatchingRevisionsAgree(c: Cluster, d: DestinationStatus, source: Source)
    requires WellFormed(c) && Known(c, source.key, source.seen)
    requires RecordIsTrue(c.history, d) && d.Identity() in c.objects
    requires d.syncedVersion == Some(c.objects[d.Identity()].Revision()) && d.sourceVersion == Some(source.Revision())
    ensures InAgreement(c, d, source)
  {
  }

  /** Write over the object as just read, in one attempt. */
  method Overwrite(server: ApiServer, scope: Scope, owner: SyncId, source: Source, d: DestinationStatus, current: Object)
    returns (d': DestinationStatus, verdict: AttemptResult)
    requires server.Valid() && owner.ref in scope.reserved
    requires Writer(server.cluster, owner, {d.Identity()})
    requires Known(server.cluster, source.key, source.seen) && RecordIsTrue(server.cluster.history, d)
    requires JustRead(server.log, d.Identity(), Some(current.Revision()))
    modifies server
    ensures server.Advanced(scope.Minus(owner.ref)) && HoldKept(owner.ref, old(server.cluster), server.cluster)
    ensures |server.log| == |old(server.log)| + 1 && server.writes == old(server.writes) + 1
    ensures Worked(old(server.log), server.log, d, source)
    ensures Confined(old(server.issued), server.issued, {d.Identity()}, {d.Identity()})
    ensures verdict in {Written, Retry, GiveUp}
    ensures verdict.Written? ==>
              && InAgreement(server.cluster, d, source)
              && d' == WithRevisions(d, server.cluster.objects[d.Identity()], source)
    ensures !verdict.Written? ==> d' == d
    ensures RecordIsTrue(server.cluster.history, d')
    ensures verdict.GiveUp? <==> EndsHard(server.log, d.Identity())
    ensures server.Alone() ==> Elsewhere({d.Identity()}, old(server.cluster), server.cluster)
    ensures server.Calm() && d.Identity() in old(server.cluster).objects && current == old(server.cluster).objects[d.Identity()] ==>
              !current.terminating ==>
                && verdict.Written? && UpToDate(server.cluster, d', source)
                && (OnlyOurs(current) ==> OnlyOurs(server.cluster.objects[d.Identity()]))
  {
    d' := d;
    ghost var others;
    var reply;
    ghost var issued := server.issued;
    reply, others := server.Update(scope, d.Identity(), owner, current.Revision(), source.Template(), d.Strategy());
    ConfinedOne(issued, UpdateCall(d.Identity(), owner, current.Revision(), source.Template(), d.Strategy(), others),
                {d.Identity()}, {d.Identity()});
    AgreesMeans(d, source, source.Template());
    WorkedOnce(old(server.log), server.log, d, source);
    TruthSurvives(old(server.cluster).history, server.cluster.history, [d]);
    server.IsSound();
    if reply.Ok? {
      RecordedIsTrue(server.cluster, d, reply.value, source);
      return WithRevisions(d, reply.value, source), Written;
    }
    verdict := if reply.error.Other? then GiveUp else Retry;
  }

  /** Create an object that was just seen to be absent. */
  method CreateAbsent(server: ApiServer, scope: Scope, owner: SyncId, source: Source, d: DestinationStatus)
    returns (d': DestinationStatus, verdict: AttemptResult)
    requires server.Valid() && owner.ref in scope.reserved
    requires Writer(server.cluster, owner, {d.Identity()})
    requires Known(server.cluster, source.key, source.seen) && RecordIsTrue(server.cluster.history, d)
    requires JustRead(server.log, d.Identity(), None)
    modifies server
    ensures server.Advanced(scope.Minus(owner.ref)) && HoldKept(owner.ref, old(server.cluster), server.cluster)
    ensures |server.log| == |old(server.log)| + 1 && server.writes == old(server.writes) + 1
    ensures Worked(old(server.log), server.log, d, source)
    ensures Confined(old(server.issued), server.issued, {d.Identity()}, {d.Identity()})
    ensures verdict in {Written, Retry, GiveUp}
    ensures verdict.Written? ==>
              && InAgreement(server.cluster, d, source)
              && UpToDate(server.cluster, d', source)
              && OnlyOurs(server.cluster.objects[d.Identity()])
              && d' == WithRevisions(d, server.cluster.objects[d.Identity()], source)
    ensures !verdict.Written? ==> d' == d
    ensures RecordIsTrue(server.cluster.history, d')
    ensures verdict.GiveUp? <==> EndsHard(server.log, d.Identity())
    ensures server.Alone() ==> Elsewhere({d.Identity()}, old(server.cluster), server.cluster)
    ensures server.Calm() && d.Identity() !in old(server.cluster).objects ==> verdict.Written?
  {
    d' := d;
    var reply := server.Create(scope, d.Identity(), owner, source.Template());
    ConfinedOne(old(server.issued), ClusterModel.Create(d.Identity(), owner, source.Template(), [FINALIZER]), {d.Identity()}, {d.Identity()});
    AgreesMeans(d, source, source.Template());
    WorkedOnce(old(server.log), server.log, d, source);
    TruthSurvives(old(server.cluster).history, server.cluster.history, [d]);
    server.IsSound();
    if reply.Ok? {
      RecordedIsTrue(server.cluster, d, reply.value, source);
      return WithRevisions(d, reply.value, source), Written;
    }
    verdict := if reply.error.Conflict? then Retry else GiveUp;
  }

  /** No foreign finalizer holds the object, if there is one. */
  predicate CleanAt(c: Cluster, key: Key) {
    key in c.objects ==> OnlyOurs(c.objects[key])
  }

  /** What one attempt leaves of its destination when nobody interferes and nothing fails. */
  ghost predicate CalmAttempt(a: Cluster, b: Cluster, d: DestinationStatus, d': DestinationStatus, source: Source,
                              verdict: AttemptResult) {
    var key := d.Identity();
    if key in a.objects && a.objects[key].terminating then
      verdict.Retry? && key !in b.objects
    else
      && Synced(b, d', source)
      && (if UpToDate(a, d, source) then verdict.Unchanged? && b == a else verdict.Written?)
  }

  lemma RecordSurvives(a: Cluster, b: Cluster, d: DestinationStatus)
    requires RecordIsTrue(a.history, d) && Grown(a, b)
    ensures RecordIsTrue(b.history, d)
  {
  }

  /** Finish off an object that was read as terminating: with our finalizer removed
      the server can let it go. */
  method FinishOff(server: ApiServer, scope: Scope, actor: NamespacedName, key: Key, current: Object)
    returns (released: bool)
    requires server.Valid() && current.terminating
    requires key in server.cluster.objects && current == server.cluster.objects[key]
    requires server.log != [] && server.log[|server.log| - 1] == ReadOf(key, Some(current.Revision()))
    modifies server
    ensures server.Advanced(scope)
    ensures |server.log| <= |old(server.log)| + 1 && Patched(old(server.log), server.log, key)
    ensures released ==> |server.log| > |old(server.log)| && server.writes > old(server.writes)
    ensures Confined(old(server.issued), server.issued, {key}, {key})
    ensures !released ==> JustRead(server.log, key, Some(current.Revision()))
    ensures server.Alone() ==> Elsewhere({key}, old(server.cluster), server.cluster)
    ensures server.Calm() && OnlyOurs(current) ==> released && key !in server.cluster.objects
  {
    server.IsSound();
    if OnlyOurs(current) {
      OnlyOursDropped(current.finalizers);
      assert current.finalizers[0] == FINALIZER;
    }
    ConfinedNone(server.issued, {key}, {key});
    ConfinedOne(server.issued, SetFinalizers(key, Dropped(current.finalizers, FINALIZER)), {key}, {key});
    var removed, _ := RemoveFinalizer(server, scope, actor, key, current, FINALIZER);
    released := removed == Success(true);
  }

  /** The attempt continues with an object that was read: a terminating one is
      finished off, a matching one skipped, any other overwritten. */
  method Refresh(server: ApiServer, scope: Scope, owner: SyncId, source: Source, d: DestinationStatus, current: Object)
    returns (d': DestinationStatus, verdict: AttemptResult)
    requires server.Valid() && owner.ref in scope.reserved
    requires Writer(server.cluster, owner, {d.Identity()})
    requires Known(server.cluster, source.key, source.seen) && RecordIsTrue(server.cluster.history, d)
    requires d.Identity() in server.cluster.objects && current == server.cluster.objects[d.Identity()]
    requires server.log != [] && server.log[|server.log| - 1] == ReadOf(d.Identity(), Some(current.Revision()))
    modifies server
    ensures server.Advanced(scope.Minus(owner.ref)) && HoldKept(owner.ref, old(server.cluster), server.cluster)
    ensures RecordIsTrue(server.cluster.history, d')
    ensures |old(server.log)| <= |server.log| <= |old(server.log)| + 2 && Worked(old(server.log), server.log, d, source)
    ensures verdict.Retry? ==> |server.log| > |old(server.log)|
    ensures verdict.GiveUp? ==> EndsHard(server.log, d.Identity())
    ensures verdict.Unchanged? || server.writes > old(server.writes)
    ensures Confined(old(server.issued), server.issued, {d.Identity()}, {d.Identity()})
    ensures verdict.Written? ==>
              && InAgreement(server.cluster, d, source)
              && d' == WithRevisions(d, server.cluster.objects[d.Identity()], source)
    ensures !verdict.Written? ==> d' == d
    ensures verdict.Unchanged? ==>
              && d.syncedVersion == Some(current.Revision()) && d.sourceVersion == Some(source.Revision())
              && (!current.terminating ==> old(server.cluster) == server.cluster && server.writes == old(server.writes))
    ensures server.Alone() ==> Elsewhere({d.Identity()}, old(server.cluster), server.cluster)
    ensures server.Calm() && OnlyOurs(current) ==>
              if current.terminating then verdict.Retry? && d.Identity() !in server.cluster.objects
              else if UpToDate(old(server.cluster), d, source) then verdict.Unchanged?
              else verdict.Written? && UpToDate(server.cluster, d', source) && OnlyOurs(server.cluster.objects[d.Identity()])
  {
    d' := d;
    var key := d.Identity();
    ghost var c0, log0 := server.cluster, server.log;
    ConfinedNone(server.issued, {key}, {key});
    WorkedNone(log0, d, source);
    if current.terminating {
      var released := FinishOff(server, scope, owner.ref, key, current);
      PatchedIsWorked(log0, server.log, d, source);
      if released {
        RecordSurvives(c0, server.cluster, d);
        return d, Retry;
      }
    }
    RecordSurvives(c0, server.cluster, d);
    if d.syncedVersion != Some(current.Revision()) || d.sourceVersion != Some(source.Revision()) {
      ghost var c1, issued, log := server.cluster, server.issued, server.log;
      d', verdict := Overwrite(server, scope, owner, source, d, current);
      WorkedTransitive(log0, log, server.log, d, source);
      KeepsTransitive(scope.Minus(owner.ref), c0, c1, server.cluster);
      ConfinedTransitive(old(server.issued), issued, server.issued, {key}, {key});
      HoldKeptTransitive(owner.ref, c0, c1, server.cluster);
    } else {
      verdict := Unchanged;
    }
  }

  /** The read failed, or said that an object is absent which is there. */
  predicate Misread(c: Cluster, key: Key, reply: Reply<Object>) {
    reply.Err? && !(reply.error.NotFound? && key !in c.objects)
  }

  /** What an attempt makes of a read. */
  method Follow(server: ApiServer, scope: Scope, owner: SyncId, source: Source, d: DestinationStatus, reply: Reply<Object>)
    returns (d': DestinationStatus, verdict: AttemptResult)
    requires server.Valid() && owner.ref in scope.reserved
    requires Writer(server.cluster, owner, {d.Identity()})
    requires Known(server.cluster, source.key, source.seen) && RecordIsTrue(server.cluster.history, d)
    requires reply.Ok? ==> d.Identity() in server.cluster.objects && reply.value == server.cluster.objects[d.Identity()]
    requires
      var seen := if reply.Ok? then Some(reply.value.Revision()) else None;
      server.log != [] && server.log[|server.log| - 1] == Saw(d.Identity(), seen, AnswerOf(reply))
    modifies server
    ensures server.Advanced(scope.Minus(owner.ref)) && HoldKept(owner.ref, old(server.cluster), server.cluster)
    ensures Followed(server.Since(), d, source, Misread(old(server.cluster), d.Identity(), reply), d', verdict)
    ensures |old(server.log)| <= |server.log| <= |old(server.log)| + 2 && Worked(old(server.log), server.log, d, source)
    ensures verdict.Retry? ==> |server.log| > |old(server.log)|
    ensures verdict.GiveUp? ==> EndsHard(server.log, d.Identity())
  {
    d' := d;
    ghost var c := server.cluster;
    ConfinedNone(server.issued, {d.Identity()}, {d.Identity()});
    WorkedNone(server.log, d, source);
    assert reply.Ok? ==> InAgreement(c, d, source) || d.syncedVersion != Some(reply.value.Revision()) || d.sourceVersion != Some(source.Revision()) by {
      server.IsSound();
      if reply.Ok? && d.syncedVersion == Some(reply.value.Revision()) && d.sourceVersion == Some(source.Revision()) {
        MatchingRevisionsAgree(c, d, source);
      }
    }
    if reply.Ok? {
      d', verdict := Refresh(server, scope, owner, source, d, reply.value);
    } else if reply.error.NotFound? {
      d', verdict := CreateAbsent(server, scope, owner, source, d);
    } else {
      verdict := GiveUp;
    }
  }

  /** What the rest of an attempt did after its read; `failed` says that the read
      failed for another reason than absence. */
  ghost predicate Followed(s: Stretch, d: DestinationStatus, source: Source, failed: bool, d': DestinationStatus,
                           verdict: AttemptResult) {
    forall i: int {:trigger Unseal(i)} :: Unseal(i) ==> FollowedParts(i, s, d, source, failed, d', verdict)
  }

  ghost predicate FollowedParts(i: int, s: Stretch, d: DestinationStatus, source: Source, failed: bool,
                                d': DestinationStatus,
                                verdict: AttemptResult) {
    && RecordIsTrue(s.end.history, d')
    && (verdict.Written? ==>
          && InAgreement(s.end, d, source)
          && d' == WithRevisions(d, s.end.objects[d.Identity()], source))
    && (!verdict.Written? ==> d' == d)
    // The skip branch never leaves drift.
    && (verdict.Unchanged? ==>
          && InAgreement(s.start, d, source)
          && d.syncedVersion == Some(s.start.objects[d.Identity()].Revision()) && d.sourceVersion == Some(source.Revision())
          && (!s.start.objects[d.Identity()].terminating ==> s.start == s.end && s.idle))
    && (verdict.Written? || verdict.Retry? ==> !s.idle)
    && Confined(s.before, s.after, {d.Identity()}, {d.Identity()})
    && (s.alone ==> Elsewhere({d.Identity()}, s.start, s.end))
    && (s.calm && CleanAt(s.start, d.Identity()) && !failed ==> CalmAttempt(s.start, s.end, d, d', source, verdict))
  }

  /** One attempt: read, then overwrite, skip, create, or finish off a terminating
      object so that the next attempt can create it anew. `at` is the state in
      which a skipped destination was compared. */
  method Attempt(server: ApiServer, scope: Scope, owner: SyncId, source: Source, d: DestinationStatus)
    returns (d': DestinationStatus, verdict: AttemptResult, ghost at: Cluster)
    requires server.Valid() && owner.ref in scope.reserved
    requires Writer(server.cluster, owner, {d.Identity()})
    requires Known(server.cluster, source.key, source.seen) && RecordIsTrue(server.cluster.history, d)
    modifies server
    ensures server.Advanced(scope.Minus(owner.ref)) && HoldKept(owner.ref, old(server.cluster), server.cluster)
    ensures |server.log| <= |old(server.log)| + 3
    ensures Attempted(old(server.log), server.log, d, source, verdict)
    ensures server.Alone() ==> at == old(server.cluster)
    ensures Followed(server.Since().(start := at), d, source, false, d', verdict)
  {
    ghost var c0 := server.cluster;
    var reply := server.Get(scope, d.Identity());
    at := server.cluster;
    RecordSurvives(c0, at, d);
    label read:
    d', verdict := Follow(server, scope, owner, source, d, reply);
    KeepsTransitive(scope.Minus(owner.ref), c0, at, server.cluster);
    HoldKeptTransitive(owner.ref, c0, at, server.cluster);
    AttemptTold(old(server.log), old@read(server.log), server.log, d, source, verdict);
    FollowedWeaker(server.Since@read(), server.Since().(start := at), d, source, Misread(at, d.Identity(), reply), d', verdict);
  }

  lemma FollowedWeaker(s: Stretch, t: Stretch, d: DestinationStatus, source: Source, failed: bool,
                       d': DestinationStatus, verdict: AttemptResult)
    requires Followed(s, d, source, failed, d', verdict)
    requires t.start == s.start && t.end == s.end
    requires (t.alone ==> s.alone) && (t.calm ==> s.calm && !failed) && (t.idle <==> s.idle)
    requires t.before == s.before && t.after == s.after
    ensures Followed(t, d, source, false, d', verdict)
  {
    assert FollowedParts(0, s, d, source, failed, d', verdict) by { assert Unseal(0); }
  }

  /** What an undisturbed upsert leaves: the destination in sync, and nothing
      touched if it was recorded as up to date. */
  ghost predicate CalmUpsert(a: Cluster, b: Cluster, d: DestinationStatus, d': DestinationStatus, source: Source,
                             changed: bool) {
    && Synced(b, d', source)
    && (UpToDate(a, d, source) ==> !changed && b == a)
  }

  /** What an upsert of one destination did. */
  ghost predicate Upserted(s: Stretch, d: DestinationStatus, d': DestinationStatus, source: Source, changed: bool,
                           success: bool) {
    && RecordIsTrue(s.end.history, d') && d'.Unversioned() == d.Unversioned()
    && (success ==> d'.sourceVersion == Some(source.Revision()) && d'.syncedVersion.Some?)
    && (changed ==>
          success && InAgreement(s.end, d, source) && d' == WithRevisions(d, s.end.objects[d.Identity()], source))
    && (!changed ==> d' == d)
    && (s.alone ==> Elsewhere({d.Identity()}, s.start, s.end))
    && (s.calm && CleanAt(s.start, d.Identity()) ==>
          success && CalmUpsert(s.start, s.end, d, d', source, changed) && (UpToDate(s.start, d, source) <==> s.idle))
    && Confined(s.before, s.after, {d.Identity()}, {d.Identity()})
    && UpsertLogged(s.logBefore, s.logAfter, d, source, success)
  }

  /** The entry records the revision of the source in hand, and one of its destination
      that held a copy of it. */
  predicate RecordsCopy(history: map<nat, Snapshot>, d: DestinationStatus, source: Source) {
    && d.sourceVersion == Some(Apis.Revision.Revision(source.seen.uid, source.seen.version))
    && d.syncedVersion.Some? && d.syncedVersion.value.version in history
    && CopyOf(history[d.syncedVersion.value.version].payload, source, d.strategy)
  }

  /** The entry's destination, at the key the entry spells out, holds a copy of the source
      now, and the entry records the revisions of both. */
  predicate HoldsCopy(c: Cluster, d: DestinationStatus, source: Source) {
    var key := Key(d.group, d.kind, d.namespace, d.name);
    && key in c.objects
    && CopyOf(c.objects[key].payload, source, d.strategy)
    && d.syncedVersion == Some(Apis.Revision.Revision(c.objects[key].uid, c.objects[key].version))
    && d.sourceVersion == Some(Apis.Revision.Revision(source.seen.uid, source.seen.version))
  }

  lemma SyncedHoldsCopy(c: Cluster, d: DestinationStatus, source: Source)
    requires Synced(c, d, source)
    ensures HoldsCopy(c, d, source) && !c.objects[Key(d.group, d.kind, d.namespace, d.name)].terminating
  {
    AgreesMeans(d, source, c.objects[d.Identity()].payload);
  }

  /** What an upsert means for the destination itself. */
  lemma UpsertMeans(s: Stretch, d: DestinationStatus, d': DestinationStatus, source: Source, changed: bool, success: bool)
    requires Upserted(s, d, d', source, changed, success) && Known(s.end, source.key, source.seen)
    ensures d'.Unversioned() == d.Unversioned()
    ensures success ==> RecordsCopy(s.end.history, d', source)
    ensures changed ==> HoldsCopy(s.end, d', source)
    ensures s.calm && CleanAt(s.start, d.Identity()) ==>
              && success && HoldsCopy(s.end, d', source)
              && !s.end.objects[Key(d.group, d.kind, d.namespace, d.name)].terminating
  {
    assert d'.Identity() == d.Identity() && d'.Strategy() == d.Strategy() by {
      assert d'.Unversioned().Identity() == d'.Identity() && d.Unversioned().Identity() == d.Identity();
    }
    if success {
      AgreesMeans(d', source, s.end.history[d'.syncedVersion.value.version].payload);
    }
    if changed {
      AgreesMeans(d, source, s.end.objects[d.Identity()].payload);
    }
    if s.calm && CleanAt(s.start, d.Identity()) {
      SyncedHoldsCopy(s.end, d', source);
    }
  }

  /** While attempts are left: the record is untouched, and if all went well nothing
      has been done yet, or a terminating object has been finished off. */
  ghost predicate Trying(s: Stretch, d: DestinationStatus, source: Source, attempts: int) {
    forall i: int {:trigger Unfold(i)} :: Unfold(i) ==> TryingFor(i, s, d, source, attempts)
  }

  ghost predicate TryingFor(i: int, s: Stretch, d: DestinationStatus, source: Source, attempts: int) {
    && RecordIsTrue(s.end.history, d)
    && 0 <= attempts <= 3 && Attempts(s.logBefore, s.logAfter, d, source, 3 - attempts)
    && (s.alone ==> Elsewhere({d.Identity()}, s.start, s.end))
    && (attempts < 3 ==> !s.idle)
    && Confined(s.before, s.after, {d.Identity()}, {d.Identity()})
    && (s.calm && CleanAt(s.start, d.Identity()) ==>
          if attempts == 3 then s.end == s.start && s.idle
          else attempts == 2 && d.Identity() !in s.end.objects && !UpToDate(s.start, d, source))
  }

  /** `s` is `a` followed by an attempt, whose read saw the start of `b`. */
  ghost predicate Tried(a: Stretch, b: Stretch, s: Stretch) {
    && s.start == a.start && s.end == b.end
    && s.before == a.before && a.after == b.before && s.after == b.after
    && s.logBefore == a.logBefore && a.logAfter == b.logBefore && s.logAfter == b.logAfter
    && (s.alone ==> a.alone && b.alone && b.start == a.end)
    && (s.calm ==> s.alone && a.calm && b.calm)
    && (s.idle <==> a.idle && b.idle)
  }

  lemma TryFirst(s: Stretch, d: DestinationStatus, source: Source)
    requires s.end == s.start && s.idle && s.after == s.before && s.logAfter == s.logBefore && RecordIsTrue(s.start.history, d)
    ensures Trying(s, d, source, 3)
  {
    ConfinedNone(s.before, {d.Identity()}, {d.Identity()});
  }

  lemma TryAgain(a: Stretch, b: Stretch, s: Stretch, d: DestinationStatus, source: Source, attempts: int,
                 d': DestinationStatus)
    requires Trying(a, d, source, attempts) && Followed(b, d, source, false, d', Retry) && Tried(a, b, s)
    requires attempts > 0 && Attempted(b.logBefore, b.logAfter, d, source, Retry)
    ensures Trying(s, d, source, attempts - 1)
  {
    assert TryingFor(0, a, d, source, attempts) by { assert Unfold(0); }
    assert FollowedParts(0, b, d, source, false, d', Retry) by { assert Unseal(0); }
    OneMoreAttempt(a.logBefore, a.logAfter, b.logAfter, d, source, 3 - attempts);
    ConfinedTransitive(a.before, a.after, b.after, {d.Identity()}, {d.Identity()});
    if s.alone {
      ElsewhereTransitive({d.Identity()}, {d.Identity()}, a.start, a.end, b.end);
    }
  }

  lemma TryDone(a: Stretch, b: Stretch, s: Stretch, d: DestinationStatus, source: Source, attempts: int,
                d': DestinationStatus, verdict: AttemptResult)
    requires Trying(a, d, source, attempts) && Followed(b, d, source, false, d', verdict) && Tried(a, b, s) && !verdict.Retry?
    requires attempts > 0 && Attempted(b.logBefore, b.logAfter, d, source, verdict)
    ensures Upserted(s, d, d', source, verdict.Written?, !verdict.GiveUp?)
  {
    assert TryingFor(0, a, d, source, attempts) by { assert Unfold(0); }
    assert FollowedParts(0, b, d, source, false, d', verdict) by { assert Unseal(0); }
    LastAttempt(a.logBefore, a.logAfter, b.logAfter, d, source, 3 - attempts, verdict);
    ConfinedTransitive(a.before, a.after, b.after, {d.Identity()}, {d.Identity()});
    if s.alone {
      ElsewhereTransitive({d.Identity()}, {d.Identity()}, a.start, a.end, b.end);
    }
  }

  lemma TryExhausted(s: Stretch, d: DestinationStatus, source: Source)
    requires Trying(s, d, source, 0)
    ensures Upserted(s, d, d, source, false, false)
  {
    assert Unfold(0);
  }

  /** Bring one destination up to date, in at most three attempts. */
  method UpsertDestination(server: ApiServer, scope: Scope, owner: SyncId, source: Source, d: DestinationStatus)
    returns (d': DestinationStatus, changed: bool, success: bool)
    requires server.Valid() && owner.ref in scope.reserved
    requires Writer(server.cluster, owner, {d.Identity()})
    requires Known(server.cluster, source.key, source.seen) && RecordIsTrue(server.cluster.history, d)
    modifies server
    ensures server.Advanced(scope.Minus(owner.ref)) && HoldKept(owner.ref, old(server.cluster), server.cluster)
    ensures Upserted(server.Since(), d, d', source, changed, success)
    ensures |server.log| <= |old(server.log)| + 9
    // What the destination holds: by the record at least, after a write when it was made,
    // and undisturbed in the end.
    ensures success ==> RecordsCopy(server.cluster.history, d', source)
    ensures changed ==> HoldsCopy(server.cluster, d', source)
    ensures server.Calm() && CleanAt(old(server.cluster), d.Identity()) ==>
              && success && HoldsCopy(server.cluster, d', source)
              && !server.cluster.objects[Key(d.group, d.kind, d.namespace, d.name)].terminating
  {
    ghost var c0 := server.cluster;
    var attempts := 3;
    TryFirst(server.Since(), d, source);
    while attempts > 0
      invariant 0 <= attempts <= 3
      invariant server.Advanced(scope.Minus(owner.ref)) && HoldKept(owner.ref, c0, server.cluster)
      invariant RecordIsTrue(server.cluster.history, d) && Trying(server.Since(), d, source, attempts)
      invariant |server.log| <= |old(server.log)| + 3 * (3 - attempts)
    {
      attempts := attempts - 1;
      ghost var c1, a := server.cluster, server.Since();
      label before:
      var d1, verdict := TryOnce(server, scope, owner, source, d, a, attempts);
      KeepsTransitive(scope.Minus(owner.ref), c0, c1, server.cluster);
      HoldKeptTransitive(owner.ref, c0, c1, server.cluster);
      assert Joined(a, server.Since@before(), server.Since());
      if !verdict.Retry? {
        UpsertMeans(server.Since(), d, d1, source, verdict.Written?, !verdict.GiveUp?);
        return d1, verdict.Written?, !verdict.GiveUp?;
      }
    }
    TryExhausted(server.Since(), d, source);
    UpsertMeans(server.Since(), d, d, source, false, false);
    return d, false, false;
  }

  /** What an upsert has come to with one more attempt `b` after `a`. */
  ghost predicate TriedOn(a: Stretch, b: Stretch, d: DestinationStatus, source: Source, attempts: int, d': DestinationStatus,
                          verdict: AttemptResult) {
    forall s | Joined(a, b, s) ::
      if verdict.Retry? then Trying(s, d, source, attempts)
      else Upserted(s, d, d', source, verdict.Written?, !verdict.GiveUp?)
  }

  /** One attempt more, after `a`, with `attempts` left after it. */
  method TryOnce(server: ApiServer, scope: Scope, owner: SyncId, source: Source, d: DestinationStatus, ghost a: Stretch,
                 ghost attempts: int)
    returns (d': DestinationStatus, verdict: AttemptResult)
    requires server.Valid() && owner.ref in scope.reserved
    requires Writer(server.cluster, owner, {d.Identity()})
    requires Known(server.cluster, source.key, source.seen) && RecordIsTrue(server.cluster.history, d)
    requires attempts >= 0 && Trying(a, d, source, attempts + 1)
    requires a.end == server.cluster
    modifies server
    ensures server.Advanced(scope.Minus(owner.ref)) && HoldKept(owner.ref, old(server.cluster), server.cluster)
    ensures |server.log| <= |old(server.log)| + 3
    ensures TriedOn(a, server.Since(), d, source, attempts, d', verdict)
    ensures RecordIsTrue(server.cluster.history, d)
  {
    ghost var c1, at := server.cluster, server.cluster;
    d', verdict, at := Attempt(server, scope, owner, source, d);
    RecordSurvives(c1, server.cluster, d);
    TryOn(a, server.Since(), at, d, source, attempts, d', verdict);
  }

  lemma TryOn(a: Stretch, b: Stretch, at: Cluster, d: DestinationStatus, source: Source, attempts: int,
              d': DestinationStatus,
              verdict: AttemptResult)
    requires attempts >= 0 && Trying(a, d, source, attempts + 1) && a.end == b.start
    requires (b.alone ==> at == b.start) && (b.calm ==> b.alone)
    requires Followed(b.(start := at), d, source, false, d', verdict)
    requires Attempted(b.logBefore, b.logAfter, d, source, verdict)
    ensures TriedOn(a, b, d, source, attempts, d', verdict)
  {
    forall s | Joined(a, b, s)
      ensures if verdict.Retry? then Trying(s, d, source, attempts)
              else Upserted(s, d, d', source, verdict.Written?, !verdict.GiveUp?)
    {
      if verdict.Retry? {
        TryAgain(a, b.(start := at), s, d, source, attempts + 1, d');
      } else {
        TryDone(a, b.(start := at), s, d, source, attempts + 1, d', verdict);
      }
    }
  }

  // ---------------------------------------------------------------------
  // All destinations

  function CountTrue(flags: seq<bool>): nat {
    if flags == [] then 0 else CountTrue(flags[..|flags| - 1]) + if flags[|flags| - 1] then 1 else 0
  }

  /** How many destinations are not remnants of a failed deletion. */
  function CountExpected(destinations: seq<DestinationStatus>, remnants: set<Key>): nat {
    if destinations == [] then 0
    else CountExpected(destinations[..|destinations| - 1], remnants)
         + if destinations[|destinations| - 1].Identity() in remnants then 0 else 1
  }

  /** Which of the destinations were brought up to date, and what is recorded. */
  ghost predicate Accounted(destinations: seq<DestinationStatus>, remnants: set<Key>, revision: Revision,
                            ds: seq<DestinationStatus>, counted: seq<bool>) {
    && |counted| <= |ds| == |destinations|
    && (forall j | 0 <= j < |ds| :: ds[j].Unversioned() == destinations[j].Unversioned())
    && (forall j | 0 <= j < |ds| :: (j >= |counted| || ds[j].Identity() in remnants) ==> ds[j] == destinations[j])
    && (forall j | 0 <= j < |counted| :: counted[j] ==>
          ds[j].Identity() !in remnants && ds[j].sourceVersion == Some(revision) && ds[j].syncedVersion.Some?)
  }

  /** The log tells of each of the first |counted| destinations in turn: nothing of a
      remnant, an upsert of any other, which succeeded if it counts. */
  ghost predicate Served(before: seq<Record>, after: seq<Record>, destinations: seq<DestinationStatus>,
                         remnants: set<Key>, source: Source,
                         counted: seq<bool>)
    decreases |counted|
  {
    if counted == [] then after == before
    else
      var n := |counted| - 1;
      && n < |destinations|
      && exists m | 0 <= m <= |after| ::
           && Served(before, after[..m], destinations, remnants, source, counted[..n])
           && ServedOne(after[..m], after, destinations[n], remnants, source, counted[n])
  }

  ghost predicate ServedOne(before: seq<Record>, after: seq<Record>, d: DestinationStatus, remnants: set<Key>,
                            source: Source, success: bool) {
    if d.Identity() in remnants then after == before && !success else UpsertLogged(before, after, d, source, success)
  }

  lemma ServedStep(before: seq<Record>, mid: seq<Record>, after: seq<Record>, destinations: seq<DestinationStatus>,
                   remnants: set<Key>, source: Source, counted: seq<bool>, success: bool)
    requires Served(before, mid, destinations, remnants, source, counted) && |counted| < |destinations|
    requires ServedOne(mid, after, destinations[|counted|], remnants, source, success)
    ensures Served(before, after, destinations, remnants, source, counted + [success])
  {
    var d := destinations[|counted|];
    if d.Identity() !in remnants { UpsertGrows(mid, after, d, source, success); }
    var more, m := counted + [success], |mid|;
    assert after[..m] == mid && more[..|more| - 1] == counted && more[|more| - 1] == success;
    assert Served(before, after[..m], destinations, remnants, source, more[..|more| - 1]);
  }

  /** Some part of the log between these points tells of all the destinations. */
  ghost predicate ServedWithin(before: seq<Record>, after: seq<Record>, destinations: seq<DestinationStatus>,
                               remnants: set<Key>, source: Source,
                               counted: seq<bool>) {
    exists lo, hi | |before| <= lo <= hi <= |after| ::
      Served(after[..lo], after[..hi], destinations, remnants, source, counted)
  }

  lemma ServedIsWithin(before: seq<Record>, after: seq<Record>, destinations: seq<DestinationStatus>,
                       remnants: set<Key>, source: Source,
                       counted: seq<bool>)
    requires Served(before, after, destinations, remnants, source, counted)
    ensures ServedWithin(before, after, destinations, remnants, source, counted)
  {
    ServedGrows(before, after, destinations, remnants, source, counted);
    assert after[..|before|] == before && after[..|after|] == after;
  }

  lemma ServedWider(a: seq<Record>, b: seq<Record>, c: seq<Record>, d: seq<Record>, destinations: seq<DestinationStatus>,
                    remnants: set<Key>, source: Source, counted: seq<bool>)
    requires a <= b && c <= d && ServedWithin(b, c, destinations, remnants, source, counted)
    ensures ServedWithin(a, d, destinations, remnants, source, counted)
  {
    var lo, hi :| |b| <= lo <= hi <= |c| && Served(c[..lo], c[..hi], destinations, remnants, source, counted);
    assert d[..lo] == c[..lo] && d[..hi] == c[..hi];
  }

  lemma UpsertGrows(before: seq<Record>, after: seq<Record>, d: DestinationStatus, source: Source, success: bool)
    requires UpsertLogged(before, after, d, source, success)
    ensures before < after
  {
    assert UpsertLoggedParts(0, before, after, d, source, success) by { assert Unseal(0); }
    if !success && Attempts(before, after, d, source, 3) {
      AttemptsGrow(before, after, d, source, 3);
    } else {
      var n, m, verdict :| 0 <= n < 3 && 0 <= m <= |after| && Attempts(before, after[..m], d, source, n)
                           && Attempted(after[..m], after, d, source, verdict) && (verdict.GiveUp? <==> !success);
      assert AttemptedParts(0, after[..m], after, d, source, verdict) by { assert Unseal(0); }
      AttemptsGrow(before, after[..m], d, source, n);
    }
  }

  /** Every destination that is neither a remnant nor counted was given up for a reason,
      in its own part of the log and whatever became of the others. */
  lemma {:induction false} UncountedForAReason(before: seq<Record>, after: seq<Record>, destinations: seq<DestinationStatus>,
                                               remnants: set<Key>, source: Source, counted: seq<bool>, j: nat)
    returns (from: nat, to: nat)
    requires Served(before, after, destinations, remnants, source, counted) && j < |counted| <= |destinations|
    requires !counted[j] && destinations[j].Identity() !in remnants
    ensures |before| <= from < to <= |after|
    ensures
      var d := destinations[j];
      EndsHard(after[..to], d.Identity()) || (Attempts(after[..from], after[..to], d, source, 3) && to >= from + 6)
    decreases |counted|
  {
    var n := |counted| - 1;
    var m :| 0 <= m <= |after| && Served(before, after[..m], destinations, remnants, source, counted[..n])
             && ServedOne(after[..m], after, destinations[n], remnants, source, counted[n]);
    ServedGrows(before, after[..m], destinations, remnants, source, counted[..n]);
    if j == n {
      GaveUpForAReason(after[..m], after, destinations[j], source);
      from, to := m, |after|;
      assert after[..to] == after;
    } else {
      from, to := UncountedForAReason(before, after[..m], destinations, remnants, source, counted[..n], j);
      assert after[..m][..from] == after[..from] && after[..m][..to] == after[..to];
    }
  }

  lemma {:induction false} ServedGrows(before: seq<Record>, after: seq<Record>, destinations: seq<DestinationStatus>,
                                       remnants: set<Key>, source: Source, counted: seq<bool>)
    requires Served(before, after, destinations, remnants, source, counted)
    ensures before <= after
    decreases |counted|
  {
    if counted != [] {
      var n := |counted| - 1;
      var m :| 0 <= m <= |after| && Served(before, after[..m], destinations, remnants, source, counted[..n])
               && ServedOne(after[..m], after, destinations[n], remnants, source, counted[n]);
      ServedGrows(before, after[..m], destinations, remnants, source, counted[..n]);
    }
  }

  /** Counted destinations never outnumber the expected ones, and if the numbers
      agree every expected destination was counted. */
  lemma {:induction false} CountsAgree(destinations: seq<DestinationStatus>, remnants: set<Key>, counted: seq<bool>)
    requires |counted| == |destinations|
    requires forall j | 0 <= j < |counted| :: counted[j] ==> destinations[j].Identity() !in remnants
    ensures CountTrue(counted) <= CountExpected(destinations, remnants)
    ensures CountTrue(counted) == CountExpected(destinations, remnants) <==>
            forall j | 0 <= j < |counted| :: destinations[j].Identity() !in remnants ==> counted[j]
  {
    if counted != [] {
      var n := |counted| - 1;
      CountsAgree(destinations[..n], remnants, counted[..n]);
      assert forall j | 0 <= j < n :: counted[..n][j] == counted[j] && destinations[..n][j] == destinations[j];
    }
  }

  /** No later entry among the first `n` has the same key. */
  predicate LastOfKey(ds: seq<DestinationStatus>, j: nat, n: nat)
    requires j < n <= |ds|
  {
    forall l | j < l < n :: ds[l].Identity() != ds[j].Identity()
  }

  ghost predicate AllUpToDate(c: Cluster, destinations: seq<DestinationStatus>, remnants: set<Key>, source: Source) {
    forall j | 0 <= j < |destinations| :: destinations[j].Identity() !in remnants ==> UpToDate(c, destinations[j], source)
  }

  ghost predicate FirstUpToDate(c: Cluster, destinations: seq<DestinationStatus>, remnants: set<Key>, source: Source,
                                n: nat) {
    forall j | 0 <= j < n && j < |destinations| :: destinations[j].Identity() !in remnants ==> UpToDate(c, destinations[j], source)
  }

  /** The undisturbed loop after its first `i` destinations. */
  ghost predicate CalmPass(c0: Cluster, c: Cluster, destinations: seq<DestinationStatus>, ds: seq<DestinationStatus>,
                           remnants: set<Key>, source: Source, i: nat, counted: seq<bool>, changed: bool)
    requires i <= |ds|
  {
    && |counted| == i
    && (forall k | k in KeySet(destinations) && k !in remnants :: CleanAt(c, k))
    && (forall j | 0 <= j < i :: ds[j].Identity() !in remnants ==> counted[j] && (LastOfKey(ds, j, i) ==> Synced(c, ds[j], source)))
    && (AllUpToDate(c0, destinations, remnants, source) ==> !changed && c == c0)
  }

  lemma CalmPassStep(c0: Cluster, c: Cluster, c': Cluster, destinations: seq<DestinationStatus>, ds: seq<DestinationStatus>,
                     remnants: set<Key>, source: Source, i: nat, counted: seq<bool>, changed: bool,
                     d': DestinationStatus, changed': bool)
    requires i < |ds| == |destinations| && ds[i] == destinations[i]
    requires forall j | 0 <= j < |ds| :: ds[j].Identity() == destinations[j].Identity()
    requires CalmPass(c0, c, destinations, ds, remnants, source, i, counted, changed)
    requires ds[i].Identity() !in remnants && d'.Identity() == ds[i].Identity()
    requires Elsewhere({ds[i].Identity()}, c, c')
    requires CalmUpsert(c, c', ds[i], d', source, changed')
    ensures CalmPass(c0, c', destinations, ds[i := d'], remnants, source, i + 1, counted + [true], changed || changed')
  {
    var ds' := ds[i := d'];
    var key := ds[i].Identity();
    forall k | k in KeySet(destinations) && k !in remnants ensures CleanAt(c', k) {
      assert CleanAt(c, k);
      assert k != key ==> (k in c'.objects <==> k in c.objects);
    }
    forall j | 0 <= j < i + 1 && ds'[j].Identity() !in remnants
      ensures (counted + [true])[j] && (LastOfKey(ds', j, i + 1) ==> Synced(c', ds'[j], source))
    {
      if j < i && LastOfKey(ds', j, i + 1) {
        assert ds'[i].Identity() == key;
        assert ds[j].Identity() != key;
        assert LastOfKey(ds, j, i) by {
          forall l | j < l < i ensures ds[l].Identity() != ds[j].Identity() {
            assert ds'[l].Identity() != ds'[j].Identity();
          }
        }
        assert Synced(c, ds[j], source);
      }
    }
    if AllUpToDate(c0, destinations, remnants, source) {
      assert UpToDate(c0, destinations[i], source);
    }
  }

  lemma CalmPassSkip(c0: Cluster, c: Cluster, destinations: seq<DestinationStatus>, ds: seq<DestinationStatus>,
                     remnants: set<Key>, source: Source, i: nat, counted: seq<bool>, changed: bool)
    requires i < |ds| && ds[i].Identity() in remnants
    requires CalmPass(c0, c, destinations, ds, remnants, source, i, counted, changed)
    ensures CalmPass(c0, c, destinations, ds, remnants, source, i + 1, counted + [false], changed)
  {
    forall j | 0 <= j < i + 1 && ds[j].Identity() !in remnants
      ensures (counted + [false])[j] && (LastOfKey(ds, j, i + 1) ==> Synced(c, ds[j], source))
    {
      assert LastOfKey(ds, j, i + 1) ==> LastOfKey(ds, j, i);
    }
  }

  ghost predicate AllClean(c: Cluster, keys: set<Key>) {
    forall k | k in keys :: CleanAt(c, k)
  }

  /** The loop after its first |counted| destinations. */
  ghost predicate Progress(s: Stretch, destinations: seq<DestinationStatus>, ds: seq<DestinationStatus>, remnants: set<Key>,
                           source: Source, counted: seq<bool>, changed: bool) {
    forall i: int {:trigger Unfold(i)} :: Unfold(i) ==> Progressed(i, s, destinations, ds, remnants, source, counted, changed)
  }

  ghost predicate Progressed(i: int, s: Stretch, destinations: seq<DestinationStatus>, ds: seq<DestinationStatus>,
                             remnants: set<Key>,
                             source: Source, counted: seq<bool>, changed: bool) {
    && Accounted(destinations, remnants, source.Revision(), ds, counted)
    && Truthful(s.end.history, ds)
    && (!changed ==> ds == destinations)
    && (s.alone ==> Elsewhere(KeySet(destinations) - remnants, s.start, s.end))
    && (s.calm && AllClean(s.start, KeySet(destinations) - remnants) ==>
          && CalmPass(s.start, s.end, destinations, ds, remnants, source, |counted|, counted, changed)
          && (AllUpToDate(s.start, destinations, remnants, source) ==> s.idle)
          && (s.idle ==> s.end == s.start && FirstUpToDate(s.start, destinations, remnants, source, |counted|)))
    && Confined(s.before, s.after, KeySet(destinations) - remnants, KeySet(destinations) - remnants)
    && Served(s.logBefore, s.logAfter, destinations, remnants, source, counted)
  }

  lemma ProgressStart(s: Stretch, destinations: seq<DestinationStatus>, remnants: set<Key>, source: Source)
    requires s.end == s.start && s.idle && s.after == s.before && s.logAfter == s.logBefore
    requires Truthful(s.start.history, destinations)
    ensures Progress(s, destinations, destinations, remnants, source, [], false)
  {
    ConfinedNone(s.before, KeySet(destinations) - remnants, KeySet(destinations) - remnants);
  }

  /** What progress means for the next entry of the list. */
  lemma ProgressAt(s: Stretch, destinations: seq<DestinationStatus>, ds: seq<DestinationStatus>, remnants: set<Key>,
                   source: Source, counted: seq<bool>, changed: bool)
    requires Progress(s, destinations, ds, remnants, source, counted, changed)
    requires |counted| < |ds| == |destinations|
    ensures ds[|counted|] == destinations[|counted|] && RecordIsTrue(s.end.history, ds[|counted|])
  {
    assert Unfold(0);
    assert ds[|counted|] in ds;
  }

  /** One turn of the loop: a remnant is skipped, anything else upserted. */
  ghost predicate Turn(skip: bool, s: Stretch, d: DestinationStatus, d': DestinationStatus, source: Source,
                       changed: bool, success: bool) {
    if skip then s.start == s.end && s.after == s.before && s.logAfter == s.logBefore && d' == d && !changed && !success && s.idle
    else Upserted(s, d, d', source, changed, success)
  }

  lemma ProgressStep(a: Stretch, b: Stretch, s: Stretch, destinations: seq<DestinationStatus>, ds: seq<DestinationStatus>,
                     remnants: set<Key>, source: Source, counted: seq<bool>, changed: bool,
                     d': DestinationStatus, written: bool, success: bool)
    requires Progress(a, destinations, ds, remnants, source, counted, changed)
    requires |counted| < |ds| == |destinations|
    requires Joined(a, b, s) && Grown(b.start, b.end)
    requires Turn(ds[|counted|].Identity() in remnants, b, ds[|counted|], d', source, written, success)
    ensures Progress(s, destinations, ds[|counted| := d'], remnants, source, counted + [success], changed || written)
  {
    assert Unfold(0);
    var i := |counted|;
    var d, ds' := ds[i], ds[i := d'];
    if d.Identity() in remnants {
      assert ds' == ds;
      if s.calm && AllClean(s.start, KeySet(destinations) - remnants) {
        CalmPassSkip(a.start, a.end, destinations, ds, remnants, source, i, counted, changed);
      }
      ServedStep(a.logBefore, a.logAfter, b.logAfter, destinations, remnants, source, counted, success);
      assert Progressed(0, s, destinations, ds', remnants, source, counted + [success], changed || written);
    } else {
      ProgressUpsert(a, b, s, destinations, ds, remnants, source, counted, changed, d', written, success);
    }
  }

  lemma ProgressUpsert(a: Stretch, b: Stretch, s: Stretch, destinations: seq<DestinationStatus>, ds: seq<DestinationStatus>,
                       remnants: set<Key>, source: Source, counted: seq<bool>, changed: bool,
                       d': DestinationStatus, written: bool, success: bool)
    requires Progressed(0, a, destinations, ds, remnants, source, counted, changed)
    requires |counted| < |ds| == |destinations| && ds[|counted|].Identity() !in remnants
    requires Joined(a, b, s) && Grown(b.start, b.end)
    requires Upserted(b, ds[|counted|], d', source, written, success)
    ensures Progressed(0, s, destinations, ds[|counted| := d'], remnants, source, counted + [success], changed || written)
  {
    var i := |counted|;
    var d, ds' := ds[i], ds[i := d'];
    assert destinations[i] in destinations && d.Identity() == destinations[i].Identity();
    assert d'.Identity() == d.Identity();
    ServedStep(a.logBefore, a.logAfter, b.logAfter, destinations, remnants, source, counted, success);
    assert Truthful(s.end.history, ds') by {
      TruthSurvives(b.start.history, b.end.history, ds);
    }
    ConfinedWider(b.before, b.after, {d.Identity()}, {d.Identity()}, KeySet(destinations) - remnants, KeySet(destinations) - remnants);
    ConfinedTransitive(a.before, a.after, b.after, KeySet(destinations) - remnants, KeySet(destinations) - remnants);
    if s.alone {
      ElsewhereTransitive(KeySet(destinations) - remnants, {d.Identity()}, a.start, a.end, b.end);
    }
    if s.calm && AllClean(s.start, KeySet(destinations) - remnants) {
      forall j | 0 <= j < |ds| ensures ds[j].Identity() == destinations[j].Identity() {
        assert ds[j].Unversioned() == destinations[j].Unversioned();
      }
      assert CleanAt(b.start, d.Identity());
      CalmPassStep(a.start, a.end, b.end, destinations, ds, remnants, source, i, counted, changed, d', written);
      if AllUpToDate(s.start, destinations, remnants, source) {
        assert UpToDate(s.start, destinations[i], source);
      }
    }
  }

  /** Upsert a destination unless it is a remnant of a failed deletion. */
  method UpsertUnlessRemnant(server: ApiServer, scope: Scope, owner: SyncId, source: Source, d: DestinationStatus,
                             remnants: set<Key>)
    returns (d': DestinationStatus, changed: bool, success: bool)
    requires server.Valid() && owner.ref in scope.reserved
    requires Writer(server.cluster, owner, {d.Identity()})
    requires Known(server.cluster, source.key, source.seen) && RecordIsTrue(server.cluster.history, d)
    modifies server
    ensures server.Advanced(scope.Minus(owner.ref)) && HoldKept(owner.ref, old(server.cluster), server.cluster)
    ensures Turn(d.Identity() in remnants, server.Since(), d, d', source, changed, success)
    ensures |server.log| <= |old(server.log)| + if d.Identity() in remnants then 0 else 9
  {
    if d.Identity() in remnants {
      return d, false, false;
    }
    d', changed, success := UpsertDestination(server, scope, owner, source, d);
  }

  /** What the loop has achieved with one more turn. */
  ghost predicate ProgressedOn(a: Stretch, b: Stretch, destinations: seq<DestinationStatus>, ds: seq<DestinationStatus>,
                               remnants: set<Key>, source: Source, counted: seq<bool>, changed: bool) {
    forall s | Joined(a, b, s) :: Progress(s, destinations, ds, remnants, source, counted, changed)
  }

  lemma ProgressOn(a: Stretch, b: Stretch, destinations: seq<DestinationStatus>, ds: seq<DestinationStatus>,
                   remnants: set<Key>, source: Source, counted: seq<bool>, changed: bool,
                   d': DestinationStatus, written: bool, success: bool)
    requires Progress(a, destinations, ds, remnants, source, counted, changed)
    requires |counted| < |ds| == |destinations| && Grown(b.start, b.end)
    requires Turn(ds[|counted|].Identity() in remnants, b, ds[|counted|], d', source, written, success)
    ensures ProgressedOn(a, b, destinations, ds[|counted| := d'], remnants, source, counted + [success], changed || written)
  {
    forall s | Joined(a, b, s)
      ensures Progress(s, destinations, ds[|counted| := d'], remnants, source, counted + [success], changed || written)
    {
      ProgressStep(a, b, s, destinations, ds, remnants, source, counted, changed, d', written, success);
    }
  }

  /** The turn of the next destination; `a` is what the loop has done before. */
  method UpsertNext(server: ApiServer, scope: Scope, owner: SyncId, source: Source,
                    ghost destinations: seq<DestinationStatus>,
                    ds: seq<DestinationStatus>, remnants: set<Key>, i: nat,
                    ghost a: Stretch, ghost counted: seq<bool>, ghost changed: bool)
    returns (d': DestinationStatus, written: bool, success: bool)
    requires server.Valid() && owner.ref in scope.reserved
    requires i == |counted| < |ds| == |destinations| && a.end == server.cluster
    requires Writer(server.cluster, owner, {destinations[i].Identity()})
    requires Known(server.cluster, source.key, source.seen)
    requires Progress(a, destinations, ds, remnants, source, counted, changed)
    modifies server
    ensures server.Advanced(scope.Minus(owner.ref)) && HoldKept(owner.ref, old(server.cluster), server.cluster)
    ensures ProgressedOn(a, server.Since(), destinations, ds[i := d'], remnants, source, counted + [success], changed || written)
    ensures |server.log| <= |old(server.log)| + if destinations[i].Identity() in remnants then 0 else 9
  {
    ProgressAt(a, destinations, ds, remnants, source, counted, changed);
    d', written, success := UpsertUnlessRemnant(server, scope, owner, source, ds[i], remnants);
    ProgressOn(a, server.Since(), destinations, ds, remnants, source, counted, changed, d', written, success);
  }

  /** Bring all expected destinations up to date, in the order of the list, leaving
      the remnants alone. `counted` marks the destinations that count as observed. */
  method UpsertDestinations(server: ApiServer, scope: Scope, owner: SyncId, source: Source,
                            destinations: seq<DestinationStatus>, remnants: seq<DestinationStatus>)
    returns (ds: seq<DestinationStatus>, changed: bool, expected: nat, observed: nat, ghost counted: seq<bool>)
    requires server.Valid() && owner.ref in scope.reserved
    requires Writer(server.cluster, owner, KeySet(destinations))
    requires Known(server.cluster, source.key, source.seen) && Truthful(server.cluster.history, destinations)
    modifies server
    ensures server.Advanced(scope.Minus(owner.ref)) && HoldKept(owner.ref, old(server.cluster), server.cluster)
    ensures |counted| == |ds| == |destinations|
    ensures Progress(server.Since(), destinations, ds, KeySet(remnants), source, counted, changed)
    ensures expected == CountExpected(destinations, KeySet(remnants))
    ensures observed == CountTrue(counted) && observed <= expected
    ensures observed == expected <==>
            forall j | 0 <= j < |ds| :: ds[j].Identity() !in KeySet(remnants) ==> counted[j]
    ensures |server.log| <= |old(server.log)| + 9 * expected
  {
    ghost var c0 := server.cluster;
    var kept := KeySet(remnants);
    ds, changed, observed, counted := destinations, false, 0, [];
    expected := CountExpected(destinations, kept);
    ProgressStart(server.Since(), destinations, kept, source);
    for i := 0 to |destinations|
      invariant server.Advanced(scope.Minus(owner.ref)) && HoldKept(owner.ref, c0, server.cluster)
      invariant |counted| == i && |ds| == |destinations|
      invariant Progress(server.Since(), destinations, ds, kept, source, counted, changed)
      invariant observed == CountTrue(counted)
      invariant |server.log| <= |old(server.log)| + 9 * CountExpected(destinations[..i], kept)
    {
      CountExpectedStep(destinations, kept, i);
      ghost var c1, a := server.cluster, server.Since();
      assert destinations[i] in destinations;
      label before:
      var d', written, success := UpsertNext(server, scope, owner, source, destinations, ds, kept, i, a, counted, changed);
      KeepsTransitive(scope.Minus(owner.ref), c0, c1, server.cluster);
      HoldKeptTransitive(owner.ref, c0, c1, server.cluster);
      assert Joined(a, server.Since@before(), server.Since());
      ds := ds[i := d'];
      changed := changed || written;
      observed := observed + if success then 1 else 0;
      CountTrueStep(counted, success);
      counted := counted + [success];
    }
    assert destinations[..|destinations|] == destinations;
    ProgressTally(server.Since(), destinations, ds, kept, source, counted, changed);
  }

  lemma CountTrueStep(flags: seq<bool>, flag: bool)
    ensures CountTrue(flags + [flag]) == CountTrue(flags) + if flag then 1 else 0
  {
    assert (flags + [flag])[..|flags|] == flags;
  }

  lemma CountExpectedStep(destinations: seq<DestinationStatus>, remnants: set<Key>, i: nat)
    requires i < |destinations|
    ensures CountExpected(destinations[..i + 1], remnants)
         == CountExpected(destinations[..i], remnants) + if destinations[i].Identity() in remnants then 0 else 1
  {
    assert destinations[..i + 1][..i] == destinations[..i];
  }

  lemma ProgressTally(s: Stretch, destinations: seq<DestinationStatus>, ds: seq<DestinationStatus>, remnants: set<Key>,
                      source: Source, counted: seq<bool>, changed: bool)
    requires Progress(s, destinations, ds, remnants, source, counted, changed)
    requires |counted| == |ds| == |destinations|
    ensures CountTrue(counted) <= CountExpected(destinations, remnants)
    ensures CountTrue(counted) == CountExpected(destinations, remnants) <==>
            forall j | 0 <= j < |ds| :: ds[j].Identity() !in remnants ==> counted[j]
  {
    assert Unfold(0);
    forall j | 0 <= j < |ds| ensures ds[j].Identity() == destinations[j].Identity() {
      assert ds[j].Unversioned() == destinations[j].Unversioned();
    }
    CountsAgree(destinations, remnants, counted);
  }
}
