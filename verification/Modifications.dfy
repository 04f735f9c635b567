/** An ObjectSync as it was read and as it is being modified. */
module Modifications {
  import opened Common
  import opened Apis
  import opened ClusterModel
  import opened Interference
  import opened Runs
  import opened ApiServers

  /** What a patch of the finalizers came to, told by the log from position `n` on: a read
      of the ObjectSync first, which may fail; no call if what was stored there is what is
      wanted; a conflict if its version has moved on; or else the patch, which may fail. */
  ghost predicate PatchLogged(t: Trace, n: nat, ref: NamespacedName, wanted: ObjectSync, r: Result<()>) {
    forall i: int {:trigger Unseal(i)} :: Unseal(i) ==> PatchLoggedParts(i, t, n, ref, wanted, r)
  }

  ghost predicate PatchLoggedParts(i: int, t: Trace, n: nat, ref: NamespacedName, wanted: ObjectSync, r: Result<()>) {
    && n < |t.log| == |t.moments| && t.moments[n] <= |t.run| && t.log[n].SawSync? && t.log[n].ref == ref
    && match t.log[n].answer
       case Rejected(error) => r == Failure(KubeApi(error)) && |t.log| == n + 1
       case Accepted =>
         var stored := Replay(t.run[..t.moments[n]]).syncs;
         ref in stored && PatchDecided(t.log[..n + 1], t.log, ref, stored[ref], wanted, r)
  }

  predicate PatchDecided(before: seq<Record>, after: seq<Record>, ref: NamespacedName, latest: ObjectSync,
                         wanted: ObjectSync, r: Result<()>) {
    if latest.(status := None) == wanted.(status := None) then r.Success? && after == before
    else if latest.version != wanted.version || latest.uid != wanted.uid then r == Failure(KubeApi(Conflict)) && after == before
    else |after| == |before| + 1 && PatchAnswered(after[|before|], ref, wanted.finalizers, r)
  }

  predicate PatchAnswered(record: Record, ref: NamespacedName, finalizers: seq<string>, r: Result<()>) {
    && record.Issued? && record.call == SetSyncFinalizers(ref, finalizers)
    && match record.answer
       case Accepted => r.Success?
       case Rejected(error) => r == Failure(KubeApi(error))
  }

  lemma PatchStays(a: Trace, b: Trace, n: nat, ref: NamespacedName, read: Reply<ObjectSync>, wanted: ObjectSync,
                   r: Result<()>)
    requires |a.log| == n + 1 && |a.moments| == |a.log| && a.moments[n] == |a.run| && a.log[n] == SawSync(ref, AnswerOf(read))
    requires a.run <= b.run && a.log <= b.log && a.moments <= b.moments && |b.moments| == |b.log|
    requires
      if read.Err? then r == Failure(KubeApi(read.error)) && b == a
      else
        && ref in Replay(a.run).syncs && Replay(a.run).syncs[ref] == read.value
        && PatchDecided(a.log, b.log, ref, read.value, wanted, r)
    ensures PatchLogged(b, n, ref, wanted, r)
  {
    assert b.run[..a.moments[n]] == a.run && b.log[..n + 1] == a.log;
    assert PatchLoggedParts(0, b, n, ref, wanted, r);
  }

  lemma PatchLength(t: Trace, n: nat, ref: NamespacedName, wanted: ObjectSync, r: Result<()>)
    requires PatchLogged(t, n, ref, wanted, r)
    ensures n < |t.log| <= n + 2 && t.log[n].SawSync?
    ensures |t.log| == n + 2 ==> t.log[n + 1].Issued? && t.log[n + 1].call == SetSyncFinalizers(ref, wanted.finalizers)
  {
    assert PatchLoggedParts(0, t, n, ref, wanted, r) by { assert Unseal(0); }
  }

  class ObjectSyncModifications {
    var original: ObjectSync
    var modified: ObjectSync

    constructor (o: ObjectSync)
      ensures original == o && modified == o
    {
      original, modified := o, o;
    }

    function Id(): NamespacedName
      reads this
    {
      modified.Ref()
    }

    ghost predicate Identified()
      reads this
    {
      original.Ref() == modified.Ref() && original.uid == modified.uid
    }

    /** The status about to be written lists every live copy and records nothing
        false. Only the ObjectSync's own reconcile can change that. */
    ghost predicate Writable(c: Cluster)
      reads this
    {
      Identified() && Lists(c, Id(), modified.Tracked()) && Truthful(c.history, modified.Tracked())
    }

    /** The read status is the persisted one, and the finalizer protects it. */
    ghost predicate Fresh(c: Cluster)
      reads this
    {
      Identified() && Held(c, Id()) && c.syncs[Id()].uid == modified.uid && c.syncs[Id()].status == original.status
    }

    /** Nothing has been modified since the read, and the persisted one is as read. */
    ghost predicate JustRead(c: Cluster)
      reads this
    {
      Mirrors(c) && modified == original
    }

    /** The read object is exactly the persisted one. */
    ghost predicate Mirrors(c: Cluster)
      reads this
    {
      && Id() in c.syncs && c.syncs[Id()] == original
      && original.Ref() == Id()
      && original.uid == modified.uid
      && original.version == modified.version
    }

    method UpdateCondition(c: Condition, now: string)
      modifies this`modified
      ensures modified == old(modified).WithCondition(c, now)
    {
      var status := modified.status.GetOr(DEFAULT_STATUS);
      var stamped := c.(lastTransitionTime := Some(now));
      var conditions := status.conditions.GetOr([]);
      var existing := FindType(conditions, c.type_);
      if existing.Some? {
        if !existing.value.SameContent(c) {
          conditions := WithoutType(conditions, c.type_);
          conditions := conditions + [stamped];
        }
      } else {
        conditions := conditions + [stamped];
      }
      modified := modified.(status := Some(status.(conditions := Some(conditions))));
    }

    method UpdateDestinations(destinations: seq<DestinationStatus>)
      modifies this`modified
      ensures modified == old(modified).WithDestinations(destinations)
    {
      var status := modified.status.GetOr(DEFAULT_STATUS);
      modified := modified.(status := Some(status.(destinations := Some(destinations))));
    }

    lemma WritableIsStable(a: Cluster, b: Cluster)
      requires Writable(a) && NoNewCopies(Id(), a, b) && Grown(a, b)
      ensures Writable(b)
    {
      ListsIsStable(Id(), modified.Tracked(), a, b);
      TruthSurvives(a.history, b.history, modified.Tracked());
    }

    lemma ReadIsWritable(server: ApiServer)
      requires server.Valid() && JustRead(server.cluster)
      ensures Writable(server.cluster)
      ensures Held(server.cluster, Id()) <==> FINALIZER in modified.finalizers
      ensures Held(server.cluster, Id()) ==> Fresh(server.cluster)
    {
      server.IsSound();
      PersistedLists(server.cluster, Id());
      assert Truthful(server.cluster.history, server.cluster.syncs[Id()].Tracked());
    }

    /** Persist the status if it differs from the one read. */
    method ReplaceStatus(server: ApiServer, scope: Scope) returns (r: Result<()>)
      requires server.Valid() && Id() in scope.reserved
      requires Writable(server.cluster)
      modifies this, server
      ensures server.Advanced(scope.Minus(old(Id())))
      ensures Id() == old(Id()) && modified.uid == old(modified.uid)
      ensures modified.status == old(modified.status)
      ensures NoNewCopies(Id(), old(server.cluster), server.cluster)
      ensures Writable(server.cluster)
      ensures Held(old(server.cluster), Id()) ==> Held(server.cluster, Id())
      // On success the read, the modified and the persisted status agree.
      ensures r.Success? ==> original.status == modified.status
      ensures r.Success? && old(modified.status != original.status) ==>
                Id() in server.cluster.syncs && server.cluster.syncs[Id()] == modified == original
      ensures r.Success? && old(Fresh(server.cluster)) ==> Fresh(server.cluster)
      ensures r.Failure? ==> original == old(original) && modified == old(modified).(version := modified.version)
      // Without a difference there is no call at all.
      ensures old(modified.status == original.status) ==>
                && r.Success? && server.log == old(server.log) && server.writes == old(server.writes)
                && server.issued == old(server.issued) && server.cluster == old(server.cluster)
                && modified == old(modified) && original == old(original)
                && server.Calm()
      ensures |server.log| <= |old(server.log)| + 2
      ensures Confined(old(server.issued), server.issued, {}, {})
      // It fails only if the read or the write does.
      ensures r.Failure? ==> EndsUnstored(server.Since(), Id()) && LastFailedAs(server.log, r.error)
      // With one, success takes a write.
      ensures r.Success? && old(modified.status != original.status) ==> server.writes > old(server.writes)
      ensures server.Alone() ==> server.cluster.objects == old(server.cluster.objects)
      ensures server.Calm() && old(Id() in server.cluster.syncs && server.cluster.syncs[Id()].uid == modified.uid) ==> r.Success?
      ensures r.Success? && old(modified == original.(status := modified.status)) ==> modified == original
      ensures server.Calm() && old(Mirrors(server.cluster) && modified == original.(status := modified.status)) ==>
                && Mirrors(server.cluster)
                && original == old(original).(status := original.status, version := original.version)
    {
      r := Success(());
      ConfinedNone(server.issued, {}, {});
      if modified.status != original.status {
        ghost var c0 := server.cluster;
        var latest := server.GetSync(scope, Id());
        ghost var c1 := server.cluster;
        WritableIsStable(c0, c1);
        if latest.Err? {
          return Failure(KubeApi(latest.error));
        }
        r := StoreStatus(server, scope, latest.value);
        NoNewCopiesTransitive(Id(), c0, c1, server.cluster);
        KeepsTransitive(scope.Minus(Id()), c0, c1, server.cluster);
      }
    }

    /** Replace the persisted status, with the resource version of `latest`. */
    method StoreStatus(server: ApiServer, scope: Scope, latest: ObjectSync) returns (r: Result<()>)
      requires server.Valid() && Id() in scope.reserved
      requires Writable(server.cluster)
      requires Id() in server.cluster.syncs && latest == server.cluster.syncs[Id()]
      modifies this, server
      ensures server.Advanced(scope.Minus(old(Id())))
      ensures Id() == old(Id()) && modified.uid == old(modified.uid) && modified.status == old(modified.status)
      ensures NoNewCopies(Id(), old(server.cluster), server.cluster)
      ensures Writable(server.cluster)
      ensures Held(old(server.cluster), Id()) ==> Held(server.cluster, Id())
      ensures r.Success? ==> Id() in server.cluster.syncs && server.cluster.syncs[Id()] == modified == original
      ensures r.Failure? ==> original == old(original) && modified == old(modified).(version := modified.version)
      ensures |server.log| == |old(server.log)| + 1
      ensures r.Failure? ==> EndsUnstored(server.Since(), Id()) && LastFailedAs(server.log, r.error)
      ensures server.writes == old(server.writes) + 1 && Confined(old(server.issued), server.issued, {}, {})
      ensures server.Alone() ==> server.cluster.objects == old(server.cluster.objects)
      ensures server.Calm() && latest.uid == old(modified.uid) ==>
                r.Success? && modified == latest.(status := old(modified.status), version := modified.version)
    {
      ghost var c1 := server.cluster;
      modified := modified.(version := latest.version);
      ConfinedOne(server.issued, PutStatus(Id(), modified.uid, modified.version, modified.status), {}, {});
      var reply := server.WriteStatus(scope, Id(), modified.uid, modified.version, modified.status);
      WritableIsStable(c1, server.cluster);
      if reply.Err? {
        return Failure(KubeApi(reply.error));
      }
      modified := reply.value;
      original := modified;
      r := Success(());
    }

    /** Persist a change of the finalizers. The patch is computed against the latest
        object, so a resource version that has moved on makes it a conflict. */
    method PatchSpec(server: ApiServer, scope: Scope) returns (r: Result<()>)
      requires server.Valid() && Id() in scope.reserved
      requires Writable(server.cluster)
      requires FINALIZER in modified.finalizers || (Lists(server.cluster, Id(), []) && Id() !in scope.pinned)
      modifies this, server
      ensures server.Advanced(scope.Minus(old(Id())))
      ensures Id() == old(Id())
      ensures NoNewCopies(Id(), old(server.cluster), server.cluster)
      ensures Writable(server.cluster)
      ensures Confined(old(server.issued), server.issued, {}, {})
      ensures r.Failure? ==> modified == old(modified) && original == old(original)
      ensures r.Success? && old(modified.(status := None) != original.(status := None)) ==>
                if FINALIZER in old(modified).finalizers then Held(server.cluster, Id()) && FINALIZER in modified.finalizers
                else !Held(server.cluster, Id())
      // Without a difference there is no call; otherwise the log tells all.
      ensures
        if old(modified.(status := None) == original.(status := None)) then
          r.Success? && server.log == old(server.log) && server.cluster == old(server.cluster) && modified == old(modified)
        else PatchLogged(server.Past(), |old(server.log)|, Id(), old(modified), r)
      ensures server.Alone() ==> server.cluster.objects == old(server.cluster.objects)
      ensures server.Calm() && old(Mirrors(server.cluster)) ==> r.Success?
      ensures server.Calm() && old(Mirrors(server.cluster)) && old(modified == original.(finalizers := modified.finalizers)) ==>
                if old(modified).terminating && old(modified).finalizers == [] then
                  old(original).finalizers != [] ==> Id() !in server.cluster.syncs
                else
                  Mirrors(server.cluster) && modified == original && modified == old(modified).(version := modified.version)
    {
      if modified.(status := None) == original.(status := None) {
        ConfinedNone(server.issued, {}, {});
        return Success(());
      }
      r := PatchLatest(server, scope);
    }

    /** Read the ObjectSync once more and patch what was read. */
    method PatchLatest(server: ApiServer, scope: Scope) returns (r: Result<()>)
      requires server.Valid() && Id() in scope.reserved
      requires Writable(server.cluster)
      requires FINALIZER in modified.finalizers || (Lists(server.cluster, Id(), []) && Id() !in scope.pinned)
      modifies this, server
      ensures server.Advanced(scope.Minus(old(Id())))
      ensures Id() == old(Id())
      ensures NoNewCopies(Id(), old(server.cluster), server.cluster)
      ensures Writable(server.cluster)
      ensures Confined(old(server.issued), server.issued, {}, {})
      ensures r.Failure? ==> modified == old(modified) && original == old(original)
      ensures r.Success? ==>
                if FINALIZER in old(modified).finalizers then Held(server.cluster, Id()) && FINALIZER in modified.finalizers
                else !Held(server.cluster, Id())
      ensures PatchLogged(server.Past(), |old(server.log)|, Id(), old(modified), r)
      ensures server.Alone() ==> server.cluster.objects == old(server.cluster.objects)
      ensures server.Calm() && old(Mirrors(server.cluster)) ==> r.Success?
      ensures server.Calm() && old(Mirrors(server.cluster) && modified.(status := None) != original.(status := None)) ==>
                if old(original).terminating && old(modified).finalizers == [] then Id() !in server.cluster.syncs
                else Mirrors(server.cluster) && modified == original
                     && modified == old(original).(finalizers := old(modified).finalizers, version := modified.version)
    {
      ghost var c0, wanted := server.cluster, modified;
      ConfinedNone(server.issued, {}, {});
      server.IsLogged();
      var latest := server.GetSync(scope, Id());
      server.IsReplayed();
      ghost var c1, t := server.cluster, server.Past();
      WritableIsStable(c0, c1);
      if FINALIZER !in modified.finalizers { ListsIsStable(Id(), [], c0, c1); }
      if latest.Err? {
        r := Failure(KubeApi(latest.error));
      } else {
        r := PatchFrom(server, scope, latest.value);
        server.IsLogged();
        NoNewCopiesTransitive(Id(), c0, c1, server.cluster);
        KeepsTransitive(scope.Minus(Id()), c0, c1, server.cluster);
      }
      PatchStays(t, server.Past(), |old(server.log)|, Id(), latest, wanted, r);
    }

    /** Patch what was just read: nothing if it is what is wanted, a conflict if its
        version has moved on. */
    method PatchFrom(server: ApiServer, scope: Scope, latest: ObjectSync) returns (r: Result<()>)
      requires server.Valid() && Id() in scope.reserved
      requires Writable(server.cluster)
      requires FINALIZER in modified.finalizers || (Lists(server.cluster, Id(), []) && Id() !in scope.pinned)
      requires Id() in server.cluster.syncs && latest == server.cluster.syncs[Id()]
      modifies this, server
      ensures server.Advanced(scope.Minus(old(Id())))
      ensures Id() == old(Id())
      ensures NoNewCopies(Id(), old(server.cluster), server.cluster)
      ensures Writable(server.cluster)
      ensures Confined(old(server.issued), server.issued, {}, {})
      ensures r.Failure? ==> modified == old(modified) && original == old(original)
      ensures r.Success? ==>
                if FINALIZER in old(modified).finalizers then Held(server.cluster, Id()) && FINALIZER in modified.finalizers
                else !Held(server.cluster, Id())
      ensures PatchDecided(old(server.log), server.log, Id(), latest, old(modified), r)
      ensures server.Alone() ==> server.cluster.objects == old(server.cluster.objects)
      ensures server.Calm() && latest.version == old(modified).version && latest.uid == old(modified).uid ==> r.Success?
      ensures server.Calm() && latest == old(original) && latest.version == old(modified).version && latest.uid == old(modified).uid
              && latest.(status := None) != old(modified).(status := None) ==>
                if latest.terminating && old(modified).finalizers == [] then Id() !in server.cluster.syncs
                else Mirrors(server.cluster) && modified == original
                     && modified == latest.(finalizers := old(modified).finalizers, version := modified.version)
    {
      ConfinedNone(server.issued, {}, {});
      server.IsSound();
      if latest.(status := None) == modified.(status := None) {
        return Success(());
      }
      if latest.version != modified.version || latest.uid != modified.uid {
        return Failure(KubeApi(Conflict));
      }
      r := StoreFinalizers(server, scope, latest);
    }

    method StoreFinalizers(server: ApiServer, scope: Scope, latest: ObjectSync) returns (r: Result<()>)
      requires server.Valid() && Id() in scope.reserved
      requires Writable(server.cluster)
      requires FINALIZER in modified.finalizers || (Lists(server.cluster, Id(), []) && Id() !in scope.pinned)
      requires Id() in server.cluster.syncs && latest == server.cluster.syncs[Id()] && latest.Ref() == Id()
      modifies this, server
      ensures server.Advanced(scope.Minus(old(Id())))
      ensures Id() == old(Id())
      ensures NoNewCopies(Id(), old(server.cluster), server.cluster)
      ensures Writable(server.cluster)
      ensures Confined(old(server.issued), server.issued, {}, {})
      ensures r.Failure? ==> modified == old(modified) && original == old(original)
      ensures r.Success? ==>
                if FINALIZER in old(modified).finalizers then Held(server.cluster, Id()) && FINALIZER in modified.finalizers
                else !Held(server.cluster, Id())
      ensures |server.log| == |old(server.log)| + 1
      ensures PatchAnswered(server.log[|old(server.log)|], Id(), old(modified).finalizers, r)
      ensures server.Alone() ==> server.cluster.objects == old(server.cluster.objects)
      ensures server.Calm() ==>
                && r.Success?
                && (if latest.terminating && old(modified).finalizers == [] then Id() !in server.cluster.syncs
                    else Mirrors(server.cluster) && modified == original
                         && modified == latest.(finalizers := old(modified).finalizers, version := modified.version))
    {
      ghost var c1 := server.cluster;
      var ref := Id();
      ConfinedOne(server.issued, SetSyncFinalizers(ref, modified.finalizers), {}, {});
      var reply := server.WriteSyncFinalizers(scope, ref, modified.finalizers);
      WritableIsStable(c1, server.cluster);
      if reply.Err? {
        return Failure(KubeApi(reply.error));
      }
      r := Success(());
      if reply.value.Some? {
        modified := reply.value.value;
        original := modified;
        server.IsSound();
        PersistedLists(server.cluster, ref);
        assert Truthful(server.cluster.history, server.cluster.syncs[ref].Tracked());
      }
    }
  }
}
