/** Finalizer helpers and the bulk deletion of destinations. */
module Utils {
  import opened Common
  import opened Apis
  import opened ClusterModel
  import opened Interference
  import opened ApiServers

  function Dropped(finalizers: seq<string>, finalizer: string): (r: seq<string>)
    ensures forall f :: f in r <==> f in finalizers && f != finalizer
    ensures multiset(r) == multiset(finalizers)[finalizer := 0]
    ensures |r| <= |finalizers| && (|r| == |finalizers| <==> finalizer !in finalizers)
  {
    if finalizers == [] then []
    else
      var front := Dropped(finalizers[..|finalizers| - 1], finalizer);
      var last := finalizers[|finalizers| - 1];
      assert finalizers == finalizers[..|finalizers| - 1] + [last];
      if last == finalizer then front else front + [last]
  }

  /** Remove a finalizer from an object that was just read. `Success(false)` if it
      did not carry it; on failure the object in hand is restored. */
  method RemoveFinalizer(server: ApiServer, scope: Scope, actor: NamespacedName, key: Key, o: Object, finalizer: string)
    returns (r: Result<bool>, o': Object)
    requires server.Valid()
    modifies server
    ensures server.Advanced(scope)
    ensures o' == if r == Success(true) then o.(finalizers := Dropped(o.finalizers, finalizer)) else o
    ensures r.Success? ==> (r.value <==> finalizer in o.finalizers)
    ensures server.Alone() ==> Elsewhere({key}, old(server.cluster), server.cluster) && NoneRevived(old(server.cluster), server.cluster)
    ensures finalizer !in o.finalizers ==>
              r == Success(false) && server.log == old(server.log)
              && server.writes == old(server.writes) && server.issued == old(server.issued)
              && server.cluster == old(server.cluster) && server.Calm()
    ensures finalizer in o.finalizers ==>
              exists answer ::
                && server.log == old(server.log) + [Issued(SetFinalizers(key, Dropped(o.finalizers, finalizer)), answer)]
                && server.issued == old(server.issued) + multiset{SetFinalizers(key, Dropped(o.finalizers, finalizer))}
                && server.writes == old(server.writes) + 1
                && (r.Success? <==> answer == Accepted || answer == Rejected(NotFound))
                && (r.Failure? ==> r == Failure(KubeApi(answer.error)))
    ensures server.Calm() ==> r.Success?
    ensures server.Calm() && key in old(server.cluster).objects && finalizer in o.finalizers ==>
              Finalized(Dropped(o.finalizers, finalizer), old(server.cluster).objects[key], key, server.cluster)
  {
    o' := o.(finalizers := Dropped(o.finalizers, finalizer));
    if |o'.finalizers| == |o.finalizers| {
      return Success(false), o;
    }
    var reply := server.PatchFinalizers(scope, actor, key, o'.finalizers);
    if reply.Err? && !reply.error.NotFound? {
      return Failure(KubeApi(reply.error)), o;
    }
    r := Success(true);
  }

  /** Add a finalizer unless the object, as last seen, carries it. */
  method AddFinalizerIfMissing(server: ApiServer, scope: Scope, actor: NamespacedName, key: Key, o: Object,
                               finalizer: string)
    returns (r: Result<bool>, o': Object)
    requires server.Valid()
    modifies server
    ensures server.Advanced(scope)
    ensures o' == if r == Success(true) then o.(finalizers := o.finalizers + [finalizer]) else o
    ensures r.Success? ==> (r.value <==> finalizer !in o.finalizers)
    ensures r.Success? && r.value ==> key in server.cluster.objects && finalizer in server.cluster.objects[key].finalizers
    ensures finalizer in o.finalizers ==>
              server.log == old(server.log) && server.issued == old(server.issued) && server.cluster == old(server.cluster) && server.Calm()
    ensures finalizer !in o.finalizers ==>
              exists answer ::
                && server.log == old(server.log) + [Issued(AddFinalizer(key, finalizer), answer)]
                && (r.Success? <==> answer == Accepted)
    ensures Confined(old(server.issued), server.issued, {key}, {})
    ensures server.Alone() ==> Elsewhere({key}, old(server.cluster), server.cluster)
    ensures r == Success(true) ==> AppliedTo(server.Past(), |server.log| - 1, server.cluster, key, finalizer)
    ensures server.Calm() ==> r.Success?
    // On an object that is gone the apply creates one, and an empty one.
    ensures server.Calm() ==>
              (Conjured(old(server.cluster), server.cluster, key) <==>
               finalizer !in o.finalizers && key !in old(server.cluster).objects)
  {
    ConfinedNone(server.issued, {key}, {});
    ConfinedOne(server.issued, AddFinalizer(key, finalizer), {key}, {});
    if finalizer in o.finalizers {
      return Success(false), o;
    }
    var reply := server.ApplyFinalizer(scope, actor, key, finalizer);
    if reply.Err? {
      return Failure(KubeApi(reply.error)), o;
    }
    return Success(true), o.(finalizers := o.finalizers + [finalizer]);
  }

  ghost predicate Subsequence<T(!new)>(a: seq<T>, b: seq<T>) {
    a == [] ||
    (b != [] &&
      (|| (a[|a| - 1] == b[|b| - 1] && Subsequence(a[..|a| - 1], b[..|b| - 1]))
       || Subsequence(a, b[..|b| - 1])))
  }

  lemma {:induction false} SubsequenceMembers<T(!new)>(a: seq<T>, b: seq<T>)
    requires Subsequence(a, b)
    ensures forall x :: x in a ==> x in b
  {
    if a != [] {
      assert a == a[..|a| - 1] + [a[|a| - 1]] && b == b[..|b| - 1] + [b[|b| - 1]];
      if a[|a| - 1] == b[|b| - 1] && Subsequence(a[..|a| - 1], b[..|b| - 1]) {
        SubsequenceMembers(a[..|a| - 1], b[..|b| - 1]);
      } else {
        SubsequenceMembers(a, b[..|b| - 1]);
      }
    }
  }

  /** Where nothing was there is an object, live and with no contents. */
  predicate Conjured(a: Cluster, b: Cluster, key: Key) {
    key !in a.objects && key in b.objects && b.objects[key].payload == map[] && !b.objects[key].terminating
  }

  /** Exactly on an absent object the apply of a finalizer makes an empty one. */
  lemma AppliedConjuresIff(c: Cluster, key: Key, finalizer: string)
    ensures Conjured(c, Effect(AddFinalizer(key, finalizer), c), key) <==> key !in c.objects
  {
  }

  /** The key holds nothing live. */
  predicate NotLive(c: Cluster, key: Key) {
    key in c.objects ==> c.objects[key].terminating
  }

  lemma {:induction false} OnlyOursDropped(finalizers: seq<string>)
    requires forall i | 0 <= i < |finalizers| :: finalizers[i] == FINALIZER
    ensures Dropped(finalizers, FINALIZER) == []
  {
    if finalizers != [] {
      OnlyOursDropped(finalizers[..|finalizers| - 1]);
    }
  }

  /** What deleting one destination did. */
  ghost predicate OneDeleted(s: Stretch, key: Key, r: Result<bool>) {
    var ok := r == Success(true);
    && (ok ==> NotLive(s.end, key))
    && (s.alone ==> Elsewhere({key}, s.start, s.end) && NoneRevived(s.start, s.end))
    && (s.calm ==> ok)
    && (s.calm && (key in s.start.objects ==> OnlyOurs(s.start.objects[key])) ==> key !in s.end.objects)
    && (s.calm ==> !s.idle)
    && Confined(s.before, s.after, {key}, {})
    && DeletionLogged(s.logBefore, s.logAfter, key, r)
  }

  /** First the destination is read. A failed read is the end of it; otherwise the deletion
      is issued, and the log ends with it. */
  predicate DeletionLogged(before: seq<Record>, after: seq<Record>, key: Key, r: Result<bool>) {
    && before < after && after[|before|].Saw? && after[|before|].key == key
    && (r.Failure? <==> Unread(after[|before|], key))
    && (r.Failure? ==> |after| == |before| + 1 && r == Failure(KubeApi(after[|before|].answer.error)))
    && var last := after[|after| - 1];
       r.Success? ==> last.Issued? && last.call == Delete(key) && (r.value <==> !Refusal(last, key))
  }

  /** Release and delete an object as just read, or as just found absent. */
  method DeleteAsRead(server: ApiServer, scope: Scope, actor: NamespacedName, key: Key, seen: Option<Object>)
    returns (ok: bool)
    requires server.Valid()
    modifies server
    ensures server.Advanced(scope)
    ensures ok ==> NotLive(server.cluster, key)
    ensures |old(server.log)| < |server.log| <= |old(server.log)| + 2
    ensures
      var last := server.log[|server.log| - 1];
      last.Issued? && last.call == Delete(key) && (ok <==> !Refusal(last, key))
    ensures server.writes > old(server.writes) && Confined(old(server.issued), server.issued, {key}, {})
    ensures server.Alone() ==> Elsewhere({key}, old(server.cluster), server.cluster) && NoneRevived(old(server.cluster), server.cluster)
    ensures server.Calm() ==> ok
    ensures server.Calm() && seen == (if key in old(server.cluster).objects then Some(old(server.cluster).objects[key]) else None)
            && (seen.Some? ==> OnlyOurs(seen.value)) ==>
              key !in server.cluster.objects
  {
    ghost var c0 := server.cluster;
    ConfinedNone(server.issued, {key}, {});
    if seen.Some? {
      Release(server, scope, actor, key, seen.value);
    }
    ghost var c1, issued := server.cluster, server.issued;
    ConfinedOne(issued, Delete(key), {key}, {});
    var deleted := server.DeleteObject(scope, actor, key);
    ConfinedTransitive(old(server.issued), issued, server.issued, {key}, {});
    KeepsTransitive(scope, c0, c1, server.cluster);
    if server.Alone() {
      ElsewhereTransitive({key}, {key}, c0, c1, server.cluster);
      NoneRevivedTransitive(c0, c1, server.cluster);
    }
    ok := deleted.Ok? || deleted.error.NotFound?;
  }

  /** Delete one destination: `Success(true)` if it is gone or going. */
  method DeleteDestination(server: ApiServer, scope: Scope, actor: NamespacedName, d: DestinationStatus)
    returns (r: Result<bool>)
    requires server.Valid()
    modifies server
    ensures server.Advanced(scope)
    ensures OneDeleted(server.Since(), d.Identity(), r)
    ensures |old(server.log)| < |server.log| <= |old(server.log)| + 3
  {
    var key := d.Identity();
    ghost var c0 := server.cluster;
    var reply := server.Get(scope, key);
    ghost var c1 := server.cluster;
    ConfinedNone(server.issued, {key}, {});
    if reply.Err? && !reply.error.NotFound? {
      return Failure(KubeApi(reply.error));
    }
    var ok := DeleteAsRead(server, scope, actor, key, if reply.Ok? then Some(reply.value) else None);
    KeepsTransitive(scope, c0, c1, server.cluster);
    r := Success(ok);
  }

  /** Remove our finalizer from a destination, ignoring failures. */
  method Release(server: ApiServer, scope: Scope, actor: NamespacedName, key: Key, o: Object)
    requires server.Valid()
    modifies server
    ensures server.Advanced(scope)
    ensures |server.log| <= |old(server.log)| + 1
    ensures Confined(old(server.issued), server.issued, {key}, {})
    ensures server.Alone() ==> Elsewhere({key}, old(server.cluster), server.cluster) && NoneRevived(old(server.cluster), server.cluster)
    ensures server.Calm() && key in old(server.cluster).objects && o == old(server.cluster).objects[key] && OnlyOurs(o) ==>
              key in server.cluster.objects ==> server.cluster.objects[key].finalizers == []
  {
    if OnlyOurs(o) { OnlyOursDropped(o.finalizers); }
    ConfinedNone(server.issued, {key}, {});
    ConfinedOne(server.issued, SetFinalizers(key, Dropped(o.finalizers, FINALIZER)), {key}, {});
    var _, _ := RemoveFinalizer(server, scope, actor, key, o, FINALIZER);
  }

  ghost predicate NoneLiveFor(c: Cluster, ref: NamespacedName, keys: set<Key>, except: set<Key>) {
    forall k | k in keys && k !in except :: !LiveFor(c, ref, k)
  }

  ghost predicate NoneLive(c: Cluster, keys: set<Key>, except: set<Key>) {
    forall k | k in keys && k !in except :: NotLive(c, k)
  }

  ghost predicate AllOnlyOurs(c: Cluster, keys: set<Key>) {
    forall k | k in keys && k in c.objects :: OnlyOurs(c.objects[k])
  }

  ghost predicate AllAbsent(c: Cluster, keys: set<Key>) {
    forall k | k in keys :: k !in c.objects
  }

  lemma ElsewhereTransitive(keys: set<Key>, more: set<Key>, a: Cluster, b: Cluster, c: Cluster)
    requires Elsewhere(keys, a, b) && Elsewhere(more, b, c) && more <= keys
    ensures Elsewhere(keys, a, c)
  {
  }

  lemma NoneRevivedTransitive(a: Cluster, b: Cluster, c: Cluster)
    requires NoneRevived(a, b) && NoneRevived(b, c)
    ensures NoneRevived(a, c)
  {
  }

  /** What the deletion loop has achieved after the keys in `done`. */
  ghost predicate Pass(actor: NamespacedName, reserved: bool, s: Stretch, all: set<Key>, done: set<Key>, errors: set<Key>) {
    forall i: int {:trigger Unfold(i)} :: Unfold(i) ==> Passed(i, actor, reserved, s, all, done, errors)
  }

  ghost predicate Passed(i: int, actor: NamespacedName, reserved: bool, s: Stretch, all: set<Key>, done: set<Key>,
                         errors: set<Key>) {
    && (reserved ==> NoneLiveFor(s.end, actor, done, errors))
    && (s.alone ==> Elsewhere(all, s.start, s.end) && NoneRevived(s.start, s.end) && NoneLive(s.end, done, errors))
    && (s.calm ==> errors == {})
    && (s.calm && AllOnlyOurs(s.start, all) ==> AllOnlyOurs(s.end, all) && AllAbsent(s.end, done))
    && (done == {} ==> errors == {} && s.end == s.start && s.idle)
    && (s.calm && s.idle ==> done == {})
    && Confined(s.before, s.after, all, {})
    && s.logBefore <= s.logAfter && (forall k | k in errors :: Refused(s, k))
  }

  lemma PassStart(actor: NamespacedName, reserved: bool, s: Stretch, all: set<Key>)
    requires s.end == s.start && s.idle && s.after == s.before && s.logAfter == s.logBefore
    ensures Pass(actor, reserved, s, all, {}, {})
  {
    ConfinedNone(s.before, all, {});
  }

  /** One more deletion. */
  lemma PassStep(actor: NamespacedName, reserved: bool, a: Stretch, b: Stretch, s: Stretch, all: set<Key>, done: set<Key>,
                 errors: seq<DestinationStatus>, d: DestinationStatus, ok: bool)
    requires Pass(actor, reserved, a, all, done, KeySet(errors)) && Joined(a, b, s)
    requires d.Identity() in all && OneDeleted(b, d.Identity(), Success(ok))
    requires reserved ==> NoNewCopies(actor, b.start, b.end)
    ensures Pass(actor, reserved, s, all, done + {d.Identity()}, KeySet(if ok then errors else errors + [d]))
  {
    var key, was, errors' := d.Identity(), KeySet(errors), KeySet(if ok then errors else errors + [d]);
    assert Passed(0, actor, reserved, a, all, done, was) by { assert Unfold(0); }
    KeySetOfAppend(errors, d);
    ConfinedWider(b.before, b.after, {key}, {}, all, {});
    ConfinedTransitive(a.before, a.after, b.after, all, {});
    if reserved {
      forall k | k in done + {key} && k !in errors' ensures !LiveFor(s.end, actor, k) {
        assert k != key ==> !LiveFor(b.start, actor, k);
      }
    }
    if s.alone {
      ElsewhereTransitive(all, {key}, a.start, a.end, b.end);
      NoneRevivedTransitive(a.start, a.end, b.end);
      forall k | k in done + {key} && k !in errors' ensures NotLive(s.end, k) {
        assert k != key ==> NotLive(b.start, k);
      }
    }
    forall k | k in errors' ensures Refused(s, k) {
      if k in was { RefusedStays(a, b, s, k); } else { RefusedLast(a, b, s, k); }
    }
    assert Passed(0, actor, reserved, s, all, done + {key}, errors');
  }

  /** What deleting a list of destinations did, whatever others did meanwhile. */
  ghost predicate BulkDeleted(actor: NamespacedName, reserved: bool, s: Stretch, destinations: seq<DestinationStatus>,
                              r: Result<seq<DestinationStatus>>) {
    forall i: int {:trigger Unseal(i)} :: Unseal(i) ==> BulkDeletedParts(i, actor, reserved, s, destinations, r)
  }

  ghost predicate BulkDeletedParts(i: int, actor: NamespacedName, reserved: bool, s: Stretch,
                                   destinations: seq<DestinationStatus>,
                                   r: Result<seq<DestinationStatus>>) {
    && (r.Success? ==> Subsequence(r.value, destinations))
    // What is not returned has no live copy any more.
    && (r.Success? && reserved ==> NoneLiveFor(s.end, actor, KeySet(destinations), KeySet(r.value)))
    && (s.alone ==>
          && Elsewhere(KeySet(destinations), s.start, s.end)
          && NoneRevived(s.start, s.end)
          && (r.Success? ==> NoneLive(s.end, KeySet(destinations), KeySet(r.value))))
    && (s.calm ==> r == Success([]))
    && (s.calm && AllOnlyOurs(s.start, KeySet(destinations)) ==> AllAbsent(s.end, KeySet(destinations)))
    && (destinations == [] ==> r == Success([]) && s.end == s.start && s.idle)
    && (s.calm && s.idle ==> destinations == [])
    && Confined(s.before, s.after, KeySet(destinations), {})
    // What is returned was refused; the loop ends early only at a failed read.
    && s.logBefore <= s.logAfter
    && (r.Success? ==> forall d | d in r.value :: Refused(s, d.Identity()))
    && (r.Failure? ==> EndsUnread(s, KeySet(destinations)))
  }

  lemma PassDone(actor: NamespacedName, reserved: bool, s: Stretch, destinations: seq<DestinationStatus>,
                 errors: seq<DestinationStatus>)
    requires Pass(actor, reserved, s, KeySet(destinations), KeySet(destinations), KeySet(errors))
    requires Subsequence(errors, destinations)
    ensures BulkDeleted(actor, reserved, s, destinations, Success(errors))
  {
    assert Unfold(0);
    assert errors == [] || errors[0].Identity() in KeySet(errors);
    assert destinations == [] || destinations[0].Identity() in KeySet(destinations);
  }

  lemma PassAborted(actor: NamespacedName, reserved: bool, a: Stretch, b: Stretch, s: Stretch,
                    destinations: seq<DestinationStatus>,
                    done: set<Key>, errors: set<Key>, d: DestinationStatus, error: ControllerError)
    requires Pass(actor, reserved, a, KeySet(destinations), done, errors) && Joined(a, b, s)
    requires d in destinations && OneDeleted(b, d.Identity(), Failure(error))
    ensures BulkDeleted(actor, reserved, s, destinations, Failure(error))
  {
    var all, key := KeySet(destinations), d.Identity();
    assert Passed(0, actor, reserved, a, all, done, errors) by { assert Unfold(0); }
    assert key in all;
    ConfinedWider(b.before, b.after, {key}, {}, all, {});
    ConfinedTransitive(a.before, a.after, b.after, all, {});
    if s.alone {
      ElsewhereTransitive(all, {key}, a.start, a.end, b.end);
      NoneRevivedTransitive(a.start, a.end, b.end);
    }
  }

  /** What the loop has achieved with one more deletion. */
  ghost predicate PassedOn(actor: NamespacedName, reserved: bool, a: Stretch, b: Stretch,
                           destinations: seq<DestinationStatus>,
                           i: nat, errors: seq<DestinationStatus>, deleted: Result<bool>)
    requires i <= |destinations|
  {
    forall s | Joined(a, b, s) ::
      if deleted.Failure? then BulkDeleted(actor, reserved, s, destinations, Failure(deleted.error))
      else Pass(actor, reserved, s, KeySet(destinations), KeySet(destinations[..i]), KeySet(errors))
  }

  /** Delete the next destination; `a` is what the loop has done before. */
  method DeleteNext(server: ApiServer, scope: Scope, actor: NamespacedName, destinations: seq<DestinationStatus>, i: nat,
                    so: seq<DestinationStatus>, ghost a: Stretch)
    returns (deleted: Result<bool>, errors: seq<DestinationStatus>)
    requires server.Valid() && i < |destinations| && Subsequence(so, destinations[..i])
    requires Pass(actor, actor in scope.reserved, a, KeySet(destinations), KeySet(destinations[..i]), KeySet(so))
    modifies server
    ensures server.Advanced(scope)
    ensures Subsequence(errors, destinations[..i + 1])
    ensures PassedOn(actor, actor in scope.reserved, a, server.Since(), destinations, i + 1, errors, deleted)
    ensures |server.log| <= |old(server.log)| + 3
  {
    var d := destinations[i];
    DestinationsStep(destinations, i);
    SubsequenceStep(so, destinations[..i], d);
    deleted := DeleteDestination(server, scope, actor, d);
    errors := if deleted == Success(true) then so else so + [d];
    PassOn(actor, actor in scope.reserved, a, server.Since(), destinations, i, so, deleted);
  }

  lemma PassOn(actor: NamespacedName, reserved: bool, a: Stretch, b: Stretch, destinations: seq<DestinationStatus>,
               i: nat, so: seq<DestinationStatus>, deleted: Result<bool>)
    requires i < |destinations| && OneDeleted(b, destinations[i].Identity(), deleted)
    requires Pass(actor, reserved, a, KeySet(destinations), KeySet(destinations[..i]), KeySet(so))
    requires reserved ==> NoNewCopies(actor, b.start, b.end)
    ensures PassedOn(actor, reserved, a, b, destinations, i + 1,
                     if deleted == Success(true) then so else so + [destinations[i]], deleted)
  {
    var d, done := destinations[i], KeySet(destinations[..i]);
    DestinationsStep(destinations, i);
    forall s | Joined(a, b, s)
      ensures if deleted.Failure? then BulkDeleted(actor, reserved, s, destinations, Failure(deleted.error))
              else Pass(actor, reserved, s, KeySet(destinations), KeySet(destinations[..i + 1]),
                        KeySet(if deleted == Success(true) then so else so + [d]))
    {
      if deleted.Failure? {
        PassAborted(actor, reserved, a, b, s, destinations, done, KeySet(so), d, deleted.error);
      } else {
        PassStep(actor, reserved, a, b, s, KeySet(destinations), done, so, d, deleted.value);
      }
    }
  }

  /** Delete all given destinations, in order, and return those whose deletion
      failed. A read that fails for another reason than absence ends the loop. */
  method DeleteDestinations(server: ApiServer, scope: Scope, actor: NamespacedName, destinations: seq<DestinationStatus>)
    returns (r: Result<seq<DestinationStatus>>)
    requires server.Valid()
    modifies server
    ensures server.Advanced(scope)
    ensures BulkDeleted(actor, actor in scope.reserved, server.Since(), destinations, r)
    ensures |server.log| <= |old(server.log)| + 3 * |destinations|
  {
    var errors: seq<DestinationStatus> := [];
    ghost var c0, reserved := server.cluster, actor in scope.reserved;
    PassStart(actor, reserved, server.Since(), KeySet(destinations));
    assert destinations[..0] == [];
    for i := 0 to |destinations|
      invariant server.Advanced(scope)
      invariant Subsequence(errors, destinations[..i])
      invariant Pass(actor, reserved, server.Since(), KeySet(destinations), KeySet(destinations[..i]), KeySet(errors))
      invariant |server.log| <= |old(server.log)| + 3 * i
    {
      ghost var c1, a := server.cluster, server.Since();
      label before:
      var deleted;
      deleted, errors := DeleteNext(server, scope, actor, destinations, i, errors, a);
      KeepsTransitive(scope, c0, c1, server.cluster);
      assert Joined(a, server.Since@before(), server.Since());
      if deleted.Failure? {
        return Failure(deleted.error);
      }
    }
    assert destinations[..|destinations|] == destinations;
    PassDone(actor, reserved, server.Since(), destinations, errors);
    r := Success(errors);
  }

  lemma DestinationsStep(destinations: seq<DestinationStatus>, i: nat)
    requires i < |destinations|
    ensures destinations[..i + 1] == destinations[..i] + [destinations[i]]
    ensures KeySet(destinations[..i + 1]) == KeySet(destinations[..i]) + {destinations[i].Identity()}
    ensures destinations[i].Identity() in KeySet(destinations)
  {
    KeySetOfAppend(destinations[..i], destinations[i]);
    assert destinations[..i + 1] == destinations[..i] + [destinations[i]];
    assert destinations[i] in destinations;
  }

  lemma KeySetOfAppend(s: seq<DestinationStatus>, d: DestinationStatus)
    ensures KeySet(s + [d]) == KeySet(s) + {d.Identity()}
  {
    assert forall e :: e in s + [d] <==> e in s || e == d;
    forall k ensures k in KeySet(s + [d]) <==> k in KeySet(s) + {d.Identity()} {
      if k in KeySet(s) {
        var e :| e in s && e.Identity() == k;
        assert e in s + [d];
      }
      assert d in s + [d];
    }
  }

  lemma SubsequenceStep<T(!new)>(a: seq<T>, b: seq<T>, x: T)
    requires Subsequence(a, b)
    ensures Subsequence(a, b + [x]) && Subsequence(a + [x], b + [x])
  {
    assert (b + [x])[..|b|] == b && (a + [x])[..|a|] == a;
  }
}
