/** Deleting everything an ObjectSync has created. */
module Removals {
  import opened Common
  import opened Apis
  import opened ClusterModel
  import opened Interference
  import opened ApiServers
  import opened Modifications
  import opened Utils
  import opened ResourceControllers

  function RemovalCondition(total: nat, remaining: nat): Condition {
    if remaining > 0 then
      NewCondition(IN_SYNC, Some(false), FAILURE,
                   "failed to remove " + Decimal(remaining) + " out of " + Decimal(total) + " destination objects")
    else
      NewCondition(IN_SYNC, Some(true), SUCCESS, "successfully removed all " + Decimal(total) + " destination objects")
  }

  /** No live object written for the ObjectSync is left. */
  predicate NoCopies(c: Cluster, ref: NamespacedName) {
    Lists(c, ref, [])
  }

  predicate TellsRemoved(o: ObjectSync, total: nat) {
    o.Tells("InSync", "True", "Success", "successfully removed all " + Decimal(total) + " destination objects")
  }

  predicate TellsRemaining(o: ObjectSync, total: nat, remaining: nat) {
    o.Tells("InSync", "False", "Failure",
            "failed to remove " + Decimal(remaining) + " out of " + Decimal(total) + " destination objects")
  }

  /** What the condition submitted after a removal tells. */
  lemma RemovalTold(before: ObjectSync, after: ObjectSync, total: nat, remaining: nat, now: string)
    requires after.Conditions() == Submit(before.Conditions(), RemovalCondition(total, remaining), now)
    ensures if remaining == 0 then TellsRemoved(after, total) else TellsRemaining(after, total, remaining)
  {
    SubmittedIsFound(before.Conditions(), RemovalCondition(total, remaining), now);
  }

  /** What could not be deleted covers every live copy. */
  lemma RemainingIsSafe(c: Cluster, ref: NamespacedName, tracked: seq<DestinationStatus>, remaining: seq<DestinationStatus>)
    requires Lists(c, ref, tracked) && Truthful(c.history, tracked)
    requires Subsequence(remaining, tracked)
    requires NoneLiveFor(c, ref, KeySet(tracked), KeySet(remaining))
    ensures Lists(c, ref, remaining) && Truthful(c.history, remaining)
  {
    SubsequenceMembers(remaining, tracked);
  }

  /** What a removal did: after a success nothing is tracked and nothing live is left. */
  ghost predicate Removed(s: Stretch, ok: bool, ref: NamespacedName, before: ObjectSync, after: ObjectSync, now: string) {
    forall i: int {:trigger Unseal(i)} :: Unseal(i) ==> RemovedParts(i, s, ok, ref, before, after, now)
  }

  ghost predicate RemovedParts(i: int, s: Stretch, ok: bool, ref: NamespacedName, before: ObjectSync, after: ObjectSync,
                               now: string) {
    && (ok ==> after.Tracked() == [] && NoCopies(s.end, ref))
    && (ok && before.StatusDestinations().Some? ==>
          && TellsRemoved(after, |before.Tracked()|)
          && after.Conditions() == Submit(before.Conditions(), RemovalCondition(|before.Tracked()|, 0), now))
    && (s.alone ==> SameObjects(KeySet(before.Tracked()), s.start, s.end))
    && (s.calm && AllOnlyOurs(s.start, KeySet(before.Tracked())) ==> AllAbsent(s.end, KeySet(before.Tracked())))
    && (s.calm && ref in s.start.syncs && s.start.syncs[ref].uid == before.uid ==> ok)
    && (before.StatusDestinations().None? ==> ok && s.end == s.start && s.idle && after == before)
    // Nobody's live copy is left there, unless others meddled; no other object is deleted, and none is written.
    && (s.alone && ok ==> NoneLive(s.end, KeySet(before.Tracked()), {}))
    && Confined(s.before, s.after, KeySet(before.Tracked()), {})
    // It fails only with a call of its own, or leaves recorded what refused to go.
    && s.logBefore <= s.logAfter
    && (!ok ==>
          || EndsUnread(s, KeySet(before.Tracked()))
          || EndsUnstored(s, ref)
          || (after.Tracked() != [] && AllRefused(s, after.Tracked())
              && TellsRemaining(after, |before.Tracked()|, |after.Tracked()|)))
  }

  lemma RemovalMeans(s: Stretch, ok: bool, ref: NamespacedName, before: ObjectSync, after: ObjectSync, now: string)
    requires Removed(s, ok, ref, before, after, now)
    ensures ok ==> after.Tracked() == [] && NoCopies(s.end, ref)
    // The InSync condition tells what became of it.
    ensures ok && before.StatusDestinations().Some? ==> TellsRemoved(after, |before.Tracked()|)
    ensures !ok && !EndsUnread(s, KeySet(before.Tracked())) && !EndsUnstored(s, ref) ==>
              after.Tracked() != [] && TellsRemaining(after, |before.Tracked()|, |after.Tracked()|)
    ensures s.alone ==> SameObjects(KeySet(before.Tracked()), s.start, s.end)
    ensures s.alone && ok ==> NoneLive(s.end, KeySet(before.Tracked()), {})
    ensures s.calm && AllOnlyOurs(s.start, KeySet(before.Tracked())) ==> AllAbsent(s.end, KeySet(before.Tracked()))
    ensures s.calm && ref in s.start.syncs && s.start.syncs[ref].uid == before.uid ==> ok
    ensures Confined(s.before, s.after, KeySet(before.Tracked()), {})
  {
    assert RemovedParts(0, s, ok, ref, before, after, now) by { assert Unseal(0); }
  }

  lemma NothingToRemove(s: Stretch, ref: NamespacedName, o: ObjectSync, now: string)
    requires o.StatusDestinations().None? && NoCopies(s.end, ref)
    requires s.end == s.start && s.idle && s.after == s.before && s.logAfter == s.logBefore
    ensures Removed(s, true, ref, o, o, now)
  {
    ConfinedNone(s.before, KeySet(o.Tracked()), {});
    assert KeySet(o.Tracked()) == {};
  }

  lemma RemovalAborted(s: Stretch, ref: NamespacedName, before: ObjectSync, error: ControllerError, now: string)
    requires BulkDeleted(ref, true, s, before.Tracked(), Failure(error)) && before.StatusDestinations().Some?
    ensures Removed(s, false, ref, before, before, now)
  {
    assert BulkDeletedParts(0, ref, true, s, before.Tracked(), Failure(error)) by { assert Unseal(0); }
  }

  /** Deleting and recording what is left. */
  lemma StepsRemove(a: Stretch, b: Stretch, s: Stretch, ok: bool, ref: NamespacedName, before: ObjectSync,
                    after: ObjectSync, remaining: Result<seq<DestinationStatus>>, now: string)
    requires Joined(a, b, s) && before.StatusDestinations().Some?
    requires remaining.Success? && BulkDeleted(ref, true, a, before.Tracked(), remaining)
    requires b.logBefore <= b.logAfter
    requires !ok ==> EndsUnstored(b, ref) || remaining.value != []
    requires after.StatusDestinations() == Some(remaining.value)
    requires after.Conditions() == Submit(before.Conditions(), RemovalCondition(|before.Tracked()|, |remaining.value|), now)
    requires ok ==> Lists(b.start, ref, [])
    requires NoNewCopies(ref, b.start, b.end)
    requires b.alone ==> b.end.objects == b.start.objects
    requires Confined(b.before, b.after, {}, {})
    requires ok ==> remaining.value == []
    requires b.calm && remaining.value == [] && ref in b.start.syncs && b.start.syncs[ref].uid == before.uid ==> ok
    ensures Removed(s, ok, ref, before, after, now)
  {
    var keys := KeySet(before.Tracked());
    assert BulkDeletedParts(0, ref, true, a, before.Tracked(), remaining) by { assert Unseal(0); }
    RemovalTold(before, after, |before.Tracked()|, |remaining.value|, now);
    forall d | d in remaining.value ensures Refused(s, d.Identity()) {
      RefusedStays(a, b, s, d.Identity());
    }
    if ok { ListsIsStable(ref, [], b.start, b.end); }
    ConfinedWider(b.before, b.after, {}, {}, keys, {});
    ConfinedTransitive(a.before, a.after, b.after, keys, {});
  }

  /** Delete all tracked destinations and record which of them are left. */
  method DeleteTracked(server: ApiServer, scope: Scope, event: ObjectSyncModifications, now: string) returns (r: Result<()>)
    requires server.Valid() && event.Id() in scope.reserved
    requires event.Writable(server.cluster)
    modifies event, server
    ensures server.Advanced(scope.Minus(old(event.Id())))
    ensures event.Id() == old(event.Id()) && event.modified.uid == old(event.modified.uid)
    ensures NoNewCopies(event.Id(), old(server.cluster), server.cluster) && event.Writable(server.cluster)
    ensures Held(old(server.cluster), event.Id()) ==> Held(server.cluster, event.Id())
    ensures Removed(server.Since(), r.Success?, event.Id(), old(event.modified), event.modified, now)
    ensures r.Success? && old(event.Fresh(server.cluster) && event.modified.status == event.original.status) ==>
              event.Fresh(server.cluster) && event.modified.status == event.original.status
    ensures r.Success? && Held(old(server.cluster), event.Id()) && FINALIZER in old(event.modified).finalizers ==>
              FINALIZER in event.modified.finalizers
    ensures r.Success? && old(event.modified == event.original) ==> event.modified == event.original
    ensures server.Calm() && old(event.Mirrors(server.cluster) && event.modified == event.original) ==>
              && event.Mirrors(server.cluster)
              && event.original == old(event.original).(status := event.original.status, version := event.original.version)
  {
    ghost var c0, ref := server.cluster, event.Id();
    if event.modified.StatusDestinations().None? {
      NothingToRemove(server.Since(), event.Id(), event.modified, now);
      return Success(());
    }
    var tracked := event.modified.Tracked();
    var remaining := DeleteDestinations(server, scope, event.Id(), tracked);
    ghost var c1, a, before := server.cluster, server.Since(), event.modified;
    event.WritableIsStable(c0, c1);
    BulkClears(ref, a, tracked, remaining);
    if remaining.Failure? {
      RemovalAborted(a, ref, before, remaining.error, now);
      return Failure(remaining.error);
    }
    RemainingIsSafe(c1, ref, tracked, remaining.value);
    label deleted:
    r := StoreRemaining(server, scope, event, |tracked|, remaining.value, now);
    StepsRemove(a, server.Since@deleted(), server.Since(), r.Success?, ref, before, event.modified, remaining, now);
    KeepsTransitive(scope.Minus(ref), c0, c1, server.cluster);
    NoNewCopiesTransitive(ref, c0, c1, server.cluster);
  }

  /** Record what is left to delete. */
  method StoreRemaining(server: ApiServer, scope: Scope, event: ObjectSyncModifications, total: nat,
                        remaining: seq<DestinationStatus>, now: string)
    returns (r: Result<()>)
    requires server.Valid() && event.Id() in scope.reserved && event.Identified()
    requires Lists(server.cluster, event.Id(), remaining) && Truthful(server.cluster.history, remaining)
    modifies event, server
    ensures server.Advanced(scope.Minus(old(event.Id())))
    ensures event.Id() == old(event.Id()) && event.modified.uid == old(event.modified.uid)
    ensures NoNewCopies(event.Id(), old(server.cluster), server.cluster) && event.Writable(server.cluster)
    ensures event.modified.StatusDestinations() == Some(remaining)
    ensures event.modified.Conditions() == Submit(old(event.modified.Conditions()), RemovalCondition(total, |remaining|), now)
    ensures Held(old(server.cluster), event.Id()) ==> Held(server.cluster, event.Id())
    ensures r.Failure? ==> EndsUnstored(server.Since(), event.Id()) || remaining != []
    ensures r.Success? ==> remaining == [] && event.modified.status == event.original.status
    ensures r.Success? && old(event.Fresh(server.cluster)) ==> event.Fresh(server.cluster)
    ensures server.Alone() ==> server.cluster.objects == old(server.cluster.objects)
    ensures Confined(old(server.issued), server.issued, {}, {})
    ensures server.Calm() && remaining == [] && old(event.Id() in server.cluster.syncs && server.cluster.syncs[event.Id()].uid == event.modified.uid) ==>
              r.Success?
    ensures r.Success? && Held(old(server.cluster), event.Id()) && FINALIZER in old(event.modified).finalizers ==>
              FINALIZER in event.modified.finalizers
    ensures r.Success? && old(event.modified == event.original) ==> event.modified == event.original
    ensures server.Calm() && old(event.Mirrors(server.cluster) && event.modified == event.original) ==>
              && event.Mirrors(server.cluster)
              && event.original == old(event.original).(status := event.original.status, version := event.original.version)
  {
    event.UpdateCondition(RemovalCondition(total, |remaining|), now);
    event.UpdateDestinations(remaining);
    r := event.ReplaceStatus(server, scope);
    if r.Success? && remaining != [] {
      r := Failure(DestinationRemovalError);
    }
  }
}
