/** Reconciling a source object: for every ObjectSync registered for it. */
module SourceReconciles {
  import opened Common
  import opened Apis
  import opened ClusterModel
  import opened Interference
  import opened Runs
  import opened ApiServers
  import opened Lookups
  import opened Modifications
  import opened Utils
  import opened Upserts
  import opened ResourceControllers
  import opened Rounds
  import opened Removals
  import opened Targets

  /** What a reconcile of a source object amounted to. */
  datatype SourceResult = Unreferenced(r: Result<bool>) | Maintained(finalized: bool, all: bool) | Pending | Released(r: Result<bool>)

  /** The story of one reconcile: what was read and found, and the rounds made for each
      ObjectSync found, from the point `begun` to the point `ended`. */
  datatype Account = Account(readings: seq<Reading>, found: seq<ObjectSync>, begun: Mark, done: seq<Round>, ended: Mark)

  // ---------------------------------------------------------------------
  // The source is being deleted

  /** The finalized ObjectSync tracks nothing, and nothing live is left of it. */
  ghost predicate Cleared(c: Cluster, ref: NamespacedName) {
    Held(c, ref) && c.syncs[ref].Tracked() == [] && NoCopies(c, ref)
  }

  ghost predicate AllCleared(c: Cluster, found: seq<ObjectSync>, n: nat) {
    forall j | 0 <= j < n && j < |found| :: Cleared(c, found[j].Ref())
  }

  /** Steps made for one of `refs` keep what all others rely on. */
  lemma KeepsAround(scope: Scope, refs: set<NamespacedName>, ref: NamespacedName, a: Cluster, b: Cluster, c: Cluster)
    requires Keeps(scope.Without(refs), a, b) && Keeps(scope.Minus(ref), b, c) && ref in refs
    ensures Keeps(scope.Without(refs), a, c)
  {
    KeepsLess(scope.Minus(ref), refs, b, c);
    assert scope.Minus(ref).Without(refs) == scope.Without(refs);
    KeepsTransitive(scope.Without(refs), a, b, c);
  }

  /** All keys the ObjectSyncs track. */
  function TrackedKeys(found: seq<ObjectSync>): set<Key> {
    if found == [] then {} else TrackedKeys(found[..|found| - 1]) + KeySet(found[|found| - 1].Tracked())
  }

  /** Delete everything one ObjectSync has created for the source. */
  method ClearOne(server: ApiServer, scope: Scope, o: ObjectSync, now: string) returns (ok: bool, ghost after: ObjectSync)
    requires server.Valid() && o.Ref() in scope.reserved && UpToDateRead(server.cluster, o)
    modifies server
    ensures server.Advanced(scope.Minus(o.Ref())) && Held(server.cluster, o.Ref())
    ensures ok ==> Cleared(server.cluster, o.Ref())
    ensures Removed(server.Since(), ok, o.Ref(), o, after, now)
    ensures server.Calm() ==> ok
  {
    var event := new ObjectSyncModifications(o);
    FreshIsWritable(server, event);
    var r := DeleteTracked(server, scope, event, now);
    ok, after := r.Success?, event.modified;
    RemovalMeans(server.Since(), ok, o.Ref(), o, after, now);
  }

  /** What clearing the first of them did to the cluster. */
  ghost predicate Swept(s: Stretch, keys: set<Key>, all: bool) {
    forall i: int {:trigger Unseal(i)} :: Unseal(i) ==> SweptKeys(i, s, keys, all)
  }

  ghost predicate SweptKeys(i: int, s: Stretch, keys: set<Key>, all: bool) {
    && (s.alone ==> SameObjects(keys, s.start, s.end))
    && (s.alone && all ==> NoneLive(s.end, keys, {}))
    && Confined(s.before, s.after, keys, {})
  }

  lemma SweepStep(a: Stretch, b: Stretch, s: Stretch, keys: set<Key>, all: bool, ok: bool, o: ObjectSync, after: ObjectSync,
                  now: string)
    requires Joined(a, b, s) && Swept(a, keys, all) && Removed(b, ok, o.Ref(), o, after, now)
    ensures Swept(s, keys + KeySet(o.Tracked()), all && ok)
  {
    var more := KeySet(o.Tracked());
    assert SweptKeys(0, a, keys, all) by { assert Unseal(0); }
    RemovalMeans(b, ok, o.Ref(), o, after, now);
    ConfinedWider(a.before, a.after, keys, {}, keys + more, {});
    ConfinedWider(b.before, b.after, more, {}, keys + more, {});
    ConfinedTransitive(a.before, a.after, b.after, keys + more, {});
    if s.alone && all && ok {
      forall k | k in keys + more ensures NotLive(s.end, k) {
        if k !in more {
          assert NotLive(a.end, k);
        }
      }
    }
  }

  /** Each ObjectSync whose round succeeded is cleared. */
  ghost predicate OkCleared(c: Cluster, found: seq<ObjectSync>, done: seq<Round>) {
    forall j | 0 <= j < |done| && j < |found| :: done[j].ok ==> Cleared(c, found[j].Ref())
  }

  lemma OkClearedStep(scope: Scope, refs: set<NamespacedName>, a: Cluster, b: Cluster, found: seq<ObjectSync>,
                      done: seq<Round>, next: Round, place: NamespacedName)
    requires Lookup(found, refs, place) && |done| < |found| && refs <= scope.reserved
    requires Keeps(scope.Minus(found[|done|].Ref()), a, b) && OkCleared(a, found, done)
    requires next.ok ==> Cleared(b, found[|done|].Ref())
    ensures OkCleared(b, found, done + [next])
  {
    forall j | 0 <= j < |done| && done[j].ok ensures Cleared(b, found[j].Ref()) {
      assert found[j].Ref() in scope.Minus(found[|done|].Ref()).reserved;
      assert Cleared(a, found[j].Ref()) && Kept(found[j].Ref(), a, b);
      ListsIsStable(found[j].Ref(), [], a, b);
    }
  }

  /** The removals made for the ObjectSyncs so far, from one point to another. */
  ghost predicate ClearedInTurn(t: Trace, begun: Mark, ended: Mark, done: seq<Round>, found: seq<ObjectSync>, now: string) {
    Chain(t, begun, ended, done) && AllEmptied(done, found, now)
  }

  /** What the loop has achieved with a removal for each of the first |done|. */
  ghost predicate Clearing(t: Trace, begun: Mark, s: Stretch, done: seq<Round>, found: seq<ObjectSync>, now: string,
                           all: bool) {
    forall i: int {:trigger Unseal(i)} :: Unseal(i) ==> ClearingSoFar(i, t, begun, s, done, found, now, all)
  }

  ghost predicate ClearingSoFar(i: int, t: Trace, begun: Mark, s: Stretch, done: seq<Round>, found: seq<ObjectSync>,
                                now: string,
                                all: bool) {
    && |done| <= |found|
    && ClearedInTurn(t, begun, Present(t), done, found, now)
    && OkCleared(s.end, found, done)
    && (all <==> AllOk(done))
    && Swept(s, TrackedKeys(found[..|done|]), all)
    && (s.calm ==> all)
  }

  ghost predicate ClearedOn(t: Trace, begun: Mark, a: Stretch, b: Stretch, done: seq<Round>, found: seq<ObjectSync>,
                            now: string,
                            all: bool) {
    forall s | Joined(a, b, s) :: Clearing(t, begun, s, done, found, now, all)
  }

  lemma ClearOn(t0: Trace, t: Trace, begun: Mark, a: Stretch, b: Stretch, done: seq<Round>, next: Round,
                found: seq<ObjectSync>, now: string, all: bool, ok: bool)
    requires Clearing(t0, begun, a, done, found, now, all) && |done| < |found|
    requires ClearedInTurn(t, begun, Present(t), done + [next], found, now)
    requires OkCleared(b.end, found, done + [next]) && next.ok == ok && (b.calm ==> ok)
    requires Removed(b, ok, found[|done|].Ref(), found[|done|], next.after, now)
    ensures ClearedOn(t, begun, a, b, done + [next], found, now, all && ok)
  {
    forall s | Joined(a, b, s) ensures Clearing(t, begun, s, done + [next], found, now, all && ok) {
      ClearOnTo(t0, t, begun, a, b, s, done, next, found, now, all, ok);
    }
  }

  lemma ClearOnTo(t0: Trace, t: Trace, begun: Mark, a: Stretch, b: Stretch, s: Stretch, done: seq<Round>, next: Round,
                  found: seq<ObjectSync>, now: string, all: bool, ok: bool)
    requires Clearing(t0, begun, a, done, found, now, all) && |done| < |found|
    requires ClearedInTurn(t, begun, Present(t), done + [next], found, now)
    requires OkCleared(b.end, found, done + [next]) && next.ok == ok && (b.calm ==> ok)
    requires Removed(b, ok, found[|done|].Ref(), found[|done|], next.after, now)
    requires Joined(a, b, s)
    ensures Clearing(t, begun, s, done + [next], found, now, all && ok)
  {
    var i := |done|;
    assert (all <==> AllOk(done)) && Swept(a, TrackedKeys(found[..i]), all) && (a.calm ==> all) by { assert Unseal(0); }
    AllOkStep(done, next);
    assert found[..i + 1][..i] == found[..i];
    SweepStep(a, b, s, TrackedKeys(found[..i]), all, ok, found[i], next.after, now);
    assert ClearingSoFar(0, t, begun, s, done + [next], found, now, all && ok);
  }

  lemma ClearingStart(t: Trace, s: Stretch, found: seq<ObjectSync>, now: string)
    requires s.end == s.start && s.after == s.before
    ensures Clearing(t, Present(t), s, [], found, now, true)
  {
    ConfinedNone(s.before, {}, {});
    ChainStart(t);
    assert TrackedKeys(found[..0]) == {};
    assert ClearingSoFar(0, t, Present(t), s, [], found, now, true);
  }

  /** Delete everything the ObjectSyncs have created for the source, one after the other,
      whatever becomes of each. */
  method ClearAll(server: ApiServer, scope: Scope, refs: set<NamespacedName>, found: seq<ObjectSync>,
                  source: NamespacedName, now: string)
    returns (all: bool, ghost done: seq<Round>)
    requires server.Valid() && refs <= scope.reserved && AllHeld(server.cluster, refs)
    requires Lookup(found, refs, source) && AllRead(server.cluster, found, 0)
    modifies server
    ensures server.Advanced(scope.Without(refs)) && AllHeld(server.cluster, refs)
    ensures |done| == |found|
    ensures ClearedInTurn(server.Past(), old(Present(server.Past())), Present(server.Past()), done, found, now)
    ensures OkCleared(server.cluster, found, done)
    ensures all <==> AllOk(done)
    ensures Swept(server.Since(), TrackedKeys(found), all)
    ensures server.Calm() ==> all
  {
    all, done := true, [];
    ghost var begun := Present(server.Past());
    KeepsLess(scope, refs, server.cluster, server.cluster);
    ClearingStart(server.Past(), server.Since(), found, now);
    for i := 0 to |found|
      invariant server.Advanced(scope.Without(refs)) && AllHeld(server.cluster, refs)
      invariant AllRead(server.cluster, found, i)
      invariant |done| == i && Clearing(server.Past(), begun, server.Since(), done, found, now, all)
    {
      ghost var c, a := server.cluster, server.Since();
      label before:
      var ok;
      ghost var next;
      ok, next := ClearNext(server, scope, refs, found, i, source, now, begun, done, a, all);
      KeepsTransitive(scope.Without(refs), old(server.cluster), c, server.cluster);
      assert Joined(a, server.Since@before(), server.Since());
      done := done + [next];
      all := all && ok;
    }
    assert found[..|found|] == found;
    assert ClearingSoFar(0, server.Past(), begun, server.Since(), done, found, now, all) by { assert Unseal(0); }
  }

  /** Clear the next of them; what is cleared already stays so. `a` is what the loop has
      done before. */
  method ClearNext(server: ApiServer, scope: Scope, refs: set<NamespacedName>, found: seq<ObjectSync>, i: nat,
                   ghost source: NamespacedName, now: string, ghost begun: Mark, ghost done: seq<Round>,
                   ghost a: Stretch, ghost all: bool)
    returns (ok: bool, ghost next: Round)
    requires server.Valid() && refs <= scope.reserved && AllHeld(server.cluster, refs)
    requires Lookup(found, refs, source) && i < |found| && AllRead(server.cluster, found, i)
    requires |done| == i && a.end == server.cluster && Clearing(server.Past(), begun, a, done, found, now, all)
    modifies server
    ensures server.Advanced(scope.Without(refs)) && AllHeld(server.cluster, refs)
    ensures AllRead(server.cluster, found, i + 1)
    ensures ClearedOn(server.Past(), begun, a, server.Since(), done + [next], found, now, all && ok)
  {
    ghost var c, ref, t := server.cluster, found[i].Ref(), server.Past();
    server.IsLogged();
    server.IsReplayed();
    KeepsLess(scope, refs, c, c);
    ghost var after;
    ok, after := ClearOne(server, scope, found[i], now);
    next := Round(Present(t), Present(server.Past()), server.Since(), ok, after);
    server.IsLogged();
    server.IsReplayed();
    LaterOf(t, server.Past());
    assert ClearedInTurn(t, begun, Present(t), done, found, now) && OkCleared(c, found, done) by { assert Unseal(0); }
    ClearStep(t, server.Past(), begun, done, next, found, now);
    KeepsAround(scope, refs, ref, c, c, server.cluster);
    ReadsSurvive(scope.Minus(ref), c, server.cluster, found, i + 1);
    HeldSurvive(scope.Minus(ref), c, server.cluster, refs - {ref});
    OkClearedStep(scope, refs, c, server.cluster, found, done, next, source);
    ClearOn(t, server.Past(), begun, a, server.Since(), done, next, found, now, all, ok);
  }

  lemma ClearStep(a: Trace, b: Trace, begun: Mark, done: seq<Round>, next: Round, found: seq<ObjectSync>, now: string)
    requires ClearedInTurn(a, begun, Present(a), done, found, now) && |done| < |found|
    requires Later(a, b) && a.meddling <= b.meddling && a.faults <= b.faults
    requires next.from == Present(a) && next.to == Present(b)
    requires Since(a, b, next.s) && Removed(next.s, next.ok, found[|done|].Ref(), found[|done|], next.after, now)
    ensures ClearedInTurn(b, begun, Present(b), done + [next], found, now)
  {
    PlacedNow(a, b, next);
    ChainStep(a, b, begun, done, next);
    EmptiedStep(done, next, found, now);
  }

  /** Let the source go: only once every ObjectSync found for it is cleared. */
  method ReleaseSource(server: ApiServer, scope: Scope, ghost found: seq<ObjectSync>, source: Source)
    returns (r: Result<bool>)
    requires server.Valid()
    requires AllCleared(server.cluster, found, |found|)
    modifies server
    ensures server.Advanced(scope)
    ensures ReleaseLogged(server.Past(), |old(server.log)|, source, r)
    ensures server.Calm() ==> r.Success?
    ensures server.Calm() && source.key in old(server.cluster).objects && FINALIZER in source.seen.finalizers ==>
              Finalized(Dropped(source.seen.finalizers, FINALIZER), old(server.cluster).objects[source.key], source.key, server.cluster)
  {
    var removed, _ := RemoveFinalizer(server, scope, NamespacedName(source.key.namespace, source.key.name), source.key, source.seen, FINALIZER);
    r := removed;
  }

  /** From position `n` on the log holds the release of the source and nothing else;
      there is no call if the source as seen does not have the finalizer. */
  ghost predicate ReleaseLogged(t: Trace, n: nat, source: Source, r: Result<bool>) {
    if FINALIZER in source.seen.finalizers then
      && |t.log| == n + 1 && t.log[n].Issued?
      && t.log[n].call == SetFinalizers(source.key, Dropped(source.seen.finalizers, FINALIZER))
      && (r.Success? <==> t.log[n].answer == Accepted || t.log[n].answer == Rejected(NotFound))
      && (r.Success? ==> r.value)
    else
      |t.log| == n && r == Success(false)
  }

  /** The story of reconciling a source that is being deleted: the reads, then a removal
      for each ObjectSync found, touching only tracked destinations, and then, if all
      of them succeeded, the release. At the point `ended` everything whose removal
      succeeded is cleared. */
  ghost predicate Deletion(t0: Trace, t: Trace, a: Account, refs: set<NamespacedName>, place: NamespacedName,
                           source: Source, now: string, result: SourceResult) {
    && LookedUp(t0, t, a.readings, a.found, refs, place)
    && NotAfter(Present(t0), a.begun) && a.begun.logged == |t0.log| + |a.readings|
    && NotAfter(a.ended, Present(t)) && |t.moments| == |t.log|
    && |a.done| == |a.found| && ClearedInTurn(t, a.begun, a.ended, a.done, a.found, now)
    && OkCleared(Replay(t.run[..a.ended.run]), a.found, a.done)
    && (forall i | |t0.log| <= i < a.ended.logged && t.log[i].Issued? :: Within(t.log[i].call, TrackedKeys(a.found), {}))
    && (forall i | a.ended.logged <= i < |t.log| :: a.ended.run <= t.moments[i])
    && match result
       case Pending => !AllOk(a.done) && a.ended == Present(t)
       case Released(r) =>
         var before, c := Replay(t0.run), Replay(t.run[..a.ended.run]);
         && AllOk(a.done) && AllCleared(c, a.found, |a.found|)
         && ReleaseLogged(t, a.ended.logged, source, r)
         && (t0.meddling == t.meddling ==>
               SameObjects(TrackedKeys(a.found), before, c) && NoneLive(c, TrackedKeys(a.found), {}))
       case _ => false
  }

  /** Every live copy written for the ObjectSync is under one of the keys. */
  predicate CopiesWithin(c: Cluster, ref: NamespacedName, keys: set<Key>) {
    forall k | k in c.objects :: LiveFor(c, ref, k) ==> k in keys
  }

  predicate StillNames(r: Reading, source: NamespacedName) {
    r.reply.Some? && r.reply.value.SourceRef() == source
  }

  lemma NamedIsCleared(t0: Trace, t: Trace, a: Account, refs: set<NamespacedName>, place: NamespacedName,
                       source: Source, now: string, result: SourceResult, r: Reading)
    requires Deletion(t0, t, a, refs, place, source, now, result) && result.Released?
    requires r in a.readings && StillNames(r, place)
    ensures NoCopies(Replay(t.run[..a.ended.run]), r.ref)
  {
    FoundWasRead(a.readings, place, r.reply.value);
    var j :| 0 <= j < |a.found| && a.found[j] == r.reply.value;
    assert Cleared(Replay(t.run[..a.ended.run]), a.found[j].Ref());
  }

  /** When a source is let go, no live copy of any registered ObjectSync is left exactly
      if each of them either was read and still named the source, or has none anyway. */
  lemma ReleaseIsCompleteIff(t0: Trace, t: Trace, a: Account, refs: set<NamespacedName>, place: NamespacedName,
                             source: Source, now: string, result: SourceResult)
    requires Deletion(t0, t, a, refs, place, source, now, result) && result.Released?
    ensures
      var c := Replay(t.run[..a.ended.run]);
      (forall ref | ref in refs :: NoCopies(c, ref)) <==>
      (forall r | r in a.readings :: StillNames(r, place) || NoCopies(c, r.ref))
  {
    var c := Replay(t.run[..a.ended.run]);
    if forall r | r in a.readings :: StillNames(r, place) || NoCopies(c, r.ref) {
      forall ref | ref in refs ensures NoCopies(c, ref) {
        var r :| r in a.readings && r.ref == ref;
        if StillNames(r, place) {
          NamedIsCleared(t0, t, a, refs, place, source, now, result, r);
        }
      }
    }
    forall r | r in a.readings ensures r.ref in refs {
    }
  }

  /** Undisturbed, what decides is the state in which the reconcile started: a copy of
      an ObjectSync that was not read, or names another source by then, goes only
      where one of those found tracks the same key. */
  lemma UndisturbedReleaseIsCompleteIff(t0: Trace, t: Trace, a: Account, refs: set<NamespacedName>, place: NamespacedName,
                                        source: Source, now: string, result: SourceResult)
    requires Deletion(t0, t, a, refs, place, source, now, result) && result.Released? && t0.meddling == t.meddling
    ensures
      (forall ref | ref in refs :: NoCopies(Replay(t.run[..a.ended.run]), ref)) <==>
      (forall r | r in a.readings :: StillNames(r, place) || CopiesWithin(Replay(t0.run), r.ref, TrackedKeys(a.found)))
  {
    var before, c, keys := Replay(t0.run), Replay(t.run[..a.ended.run]), TrackedKeys(a.found);
    ReleaseIsCompleteIff(t0, t, a, refs, place, source, now, result);
    forall ref ensures NoCopies(c, ref) <==> CopiesWithin(before, ref, keys) {
      SweptOf(before, c, ref, keys);
    }
    forall r | r in a.readings
      ensures StillNames(r, place) || NoCopies(c, r.ref) <==> StillNames(r, place) || CopiesWithin(before, r.ref, keys)
    {
    }
  }

  /** What is left after sweeping some keys. */
  lemma SweptOf(before: Cluster, c: Cluster, ref: NamespacedName, keys: set<Key>)
    requires SameObjects(keys, before, c) && NoneLive(c, keys, {})
    ensures NoCopies(c, ref) <==> CopiesWithin(before, ref, keys)
  {
    forall k ensures LiveFor(c, ref, k) <==> LiveFor(before, ref, k) && k !in keys {
      if k in keys {
        assert NotLive(c, k);
      } else if k in c.objects {
        assert c.objects[k] == before.objects[k];
      }
    }
    assert NoCopies(c, ref) <==> forall k | k in c.objects :: !LiveFor(c, ref, k);
  }

  lemma DeletionPrepared(t0: Trace, t1: Trace, t: Trace, a: Account,
                         refs: set<NamespacedName>, place: NamespacedName, now: string)
    requires LookedUp(t0, t1, a.readings, a.found, refs, place) && |t1.log| == |t0.log| + |a.readings|
    requires Later(t0, t1) && Later(t1, t) && NotAfter(Present(t0), Present(t1)) && NotAfter(Present(t1), Present(t))
    requires a.begun == Present(t1) && a.ended == Present(t)
    requires CallsOf(t1.log) == CallsOf(t0.log) && Confined(CallsOf(t1.log), CallsOf(t.log), TrackedKeys(a.found), {})
    requires |a.done| == |a.found| && ClearedInTurn(t, a.begun, a.ended, a.done, a.found, now)
    requires OkCleared(Replay(t.run), a.found, a.done)
    ensures ClearedUp(t0, t, a, refs, place, now)
  {
    ReadsLater(t1, t, |t0.log|, a.readings);
    RecordsConfined(t0.log, t.log, TrackedKeys(a.found), {});
    assert ClearedUpTo(0, t0, t, a, refs, place, now);
  }

  lemma DeletionReleased(t0: Trace, t1: Trace, t: Trace, a: Account, refs: set<NamespacedName>, place: NamespacedName,
                         source: Source, now: string, r: Result<bool>)
    requires ClearedUp(t0, t1, a, refs, place, now) && AllOk(a.done)
    requires Later(t1, t) && NotAfter(Present(t1), Present(t)) && ReleaseLogged(t, |t1.log|, source, r)
    requires t0.meddling == t1.meddling ==>
               && SameObjects(TrackedKeys(a.found), Replay(t0.run), Replay(t1.run))
               && NoneLive(Replay(t1.run), TrackedKeys(a.found), {})
    ensures Deletion(t0, t, a, refs, place, source, now, Released(r))
  {
    assert ClearedUpTo(0, t0, t1, a, refs, place, now) by { assert Unseal(0); }
    assert t.run[..a.ended.run] == t1.run;
    ReadsLater(t1, t, |t0.log|, a.readings);
    ChainLater(t1, t, a.begun, a.ended, a.done);
    forall i | |t0.log| <= i < a.ended.logged && t.log[i].Issued? ensures Within(t.log[i].call, TrackedKeys(a.found), {}) {
      assert t.log[i] == t1.log[i];
    }
  }

  /** The story up to the release: everything found has had its removal. */
  ghost predicate ClearedUp(t0: Trace, t: Trace, a: Account, refs: set<NamespacedName>, place: NamespacedName, now: string) {
    forall i: int {:trigger Unseal(i)} :: Unseal(i) ==> ClearedUpTo(i, t0, t, a, refs, place, now)
  }

  ghost predicate ClearedUpTo(i: int, t0: Trace, t: Trace, a: Account, refs: set<NamespacedName>, place: NamespacedName,
                              now: string) {
    && LookedUp(t0, t, a.readings, a.found, refs, place)
    && NotAfter(Present(t0), a.begun) && NotAfter(a.begun, a.ended) && a.ended == Present(t)
    && a.begun.logged == |t0.log| + |a.readings| && |t.moments| == |t.log|
    && |a.done| == |a.found| && ClearedInTurn(t, a.begun, a.ended, a.done, a.found, now)
    && OkCleared(Replay(t.run), a.found, a.done)
    && (forall i | |t0.log| <= i < |t.log| && t.log[i].Issued? :: Within(t.log[i].call, TrackedKeys(a.found), {}))
  }

  lemma DeletionPending(t0: Trace, t: Trace, a: Account, refs: set<NamespacedName>, place: NamespacedName,
                        source: Source, now: string)
    requires ClearedUp(t0, t, a, refs, place, now) && !AllOk(a.done)
    ensures Deletion(t0, t, a, refs, place, source, now, Pending)
  {
    assert ClearedUpTo(0, t0, t, a, refs, place, now) by { assert Unseal(0); }
    assert t.run[..a.ended.run] == t.run;
  }

  /** A source that is being deleted is released only after everything found to be made
      from it is gone. */
  method ReconcileDeleted(server: ApiServer, scope: Scope, refs: set<NamespacedName>, source: Source,
                          place: NamespacedName, now: string)
    returns (result: SourceResult, ghost account: Account)
    requires server.Valid() && refs <= scope.reserved && AllHeld(server.cluster, refs)
    modifies server
    ensures server.Advanced(scope.Without(refs)) && AllHeld(server.cluster, refs)
    ensures Deletion(old(server.Past()), server.Past(), account, refs, place, source, now, result)
    ensures Lookup(account.found, refs, place)
    ensures server.Calm() ==>
              && result.Released? && result.r.Success?
              && AllAnswered(old(server.cluster), account.readings) && NoneMissed(old(server.cluster), account.found, refs, place)
  {
    ghost var t0, c0 := server.Past(), server.cluster;
    server.IsReplayed();
    var all, syncs;
    all, syncs, account := ClearFound(server, scope, refs, place, now);
    ghost var t1, c1 := server.Past(), server.cluster;
    server.IsLogged();
    server.IsReplayed();
    if !all {
      DeletionPending(t0, t1, account, refs, place, source, now);
      return Pending, account;
    }
    var released := ReleaseSource(server, scope, syncs, source);
    server.IsLogged();
    LaterOf(t1, server.Past());
    HeldSurvive(scope, c1, server.cluster, refs);
    KeepsLess(scope, refs, c1, server.cluster);
    KeepsTransitive(scope.Without(refs), c0, c1, server.cluster);
    DeletionReleased(t0, t1, server.Past(), account, refs, place, source, now, released);
    result := Released(released);
  }

  /** Find the ObjectSyncs that still name the source and clear them. */
  method ClearFound(server: ApiServer, scope: Scope, refs: set<NamespacedName>,
                    place: NamespacedName, now: string)
    returns (all: bool, found: seq<ObjectSync>, ghost account: Account)
    requires server.Valid() && refs <= scope.reserved && AllHeld(server.cluster, refs)
    modifies server
    ensures server.Advanced(scope.Without(refs)) && AllHeld(server.cluster, refs)
    ensures account.found == found && ClearedUp(old(server.Past()), server.Past(), account, refs, place, now)
    ensures Lookup(found, refs, place)
    ensures all <==> AllOk(account.done)
    ensures OkCleared(server.cluster, found, account.done) && |account.done| == |found|
    ensures server.Alone() ==> SameObjects(TrackedKeys(found), old(server.cluster), server.cluster)
    ensures server.Alone() && all ==> NoneLive(server.cluster, TrackedKeys(found), {})
    ensures server.Calm() ==>
              && all
              && AllAnswered(old(server.cluster), account.readings) && NoneMissed(old(server.cluster), found, refs, place)
  {
    ghost var t0 := server.Past();
    server.IsLogged();
    ghost var readings, done;
    found, readings := LookupObjectSyncs(server, scope, refs, place);
    ghost var t1, c1 := server.Past(), server.cluster;
    server.IsLogged();
    LaterOf(t0, t1);
    KeepsLess(scope, refs, old(server.cluster), c1);
    label looked:
    all, done := ClearAll(server, scope, refs, found, place, now);
    KeepsTransitive(scope.Without(refs), old(server.cluster), c1, server.cluster);
    server.IsLogged();
    server.IsReplayed();
    LaterOf(t1, server.Past());
    account := Account(readings, found, Present(t1), done, Present(server.Past()));
    assert SweptKeys(0, server.Since@looked(), TrackedKeys(found), all) by { assert Unseal(0); }
    DeletionPrepared(t0, t1, server.Past(), account, refs, place, now);
  }

  // ---------------------------------------------------------------------
  // The source is live

  /** Reconcile one of the ObjectSyncs found. */
  method SyncOne(server: ApiServer, scope: Scope, o: ObjectSync, gvk: Gvk, cache: seq<Namespace>, source: Source,
                 now: string)
    returns (ok: bool, ghost after: ObjectSync, ghost remnants: seq<DestinationStatus>, ghost counted: seq<bool>, ghost changed: bool)
    requires server.Valid() && o.Ref() in scope.reserved && UpToDateRead(server.cluster, o)
    requires Known(server.cluster, source.key, source.seen)
    modifies server
    ensures server.Advanced(scope.Minus(o.Ref())) && Held(server.cluster, o.Ref())
    ensures Reconciled(server.Since(), ok, o, after, gvk, Expected(o, cache), source, remnants, counted, changed, now)
    ensures ok ==> Persisted(server.cluster, o.Ref(), after)
    ensures server.Calm() ==> ok
  {
    var event := new ObjectSyncModifications(o);
    var r;
    r, remnants, counted, changed := ReconcileSource(server, scope, event, gvk, cache, source, now);
    ok, after := r.Success?, event.modified;
  }

  /** The reconciles made for the ObjectSyncs so far, from one point to another. */
  ghost predicate SyncedInTurn(t: Trace, begun: Mark, ended: Mark, done: seq<Round>, found: seq<ObjectSync>, gvk: Gvk,
                               cache: seq<Namespace>, source: Source, now: string) {
    Chain(t, begun, ended, done) && AllTold(done, found, gvk, cache, source, now)
  }

  /** Reconcile the next of them. */
  method SyncNext(server: ApiServer, scope: Scope, refs: set<NamespacedName>, found: seq<ObjectSync>, i: nat, gvk: Gvk,
                  cache: seq<Namespace>, source: Source, ghost place: NamespacedName, now: string,
                  ghost begun: Mark, ghost done: seq<Round>)
    returns (ok: bool, ghost next: Round)
    requires server.Valid() && refs <= scope.reserved && AllHeld(server.cluster, refs)
    requires Lookup(found, refs, place) && i < |found| && AllRead(server.cluster, found, i)
    requires Known(server.cluster, source.key, source.seen)
    requires |done| == i && Syncing(server.Past(), begun, server.cluster, done, found, gvk, cache, source, now)
    modifies server
    ensures server.Advanced(scope.Without(refs)) && AllHeld(server.cluster, refs)
    ensures AllRead(server.cluster, found, i + 1)
    ensures Syncing(server.Past(), begun, server.cluster, done + [next], found, gvk, cache, source, now)
    ensures next.ok == ok
    ensures server.Calm() ==> ok
  {
    ghost var c, ref, t := server.cluster, found[i].Ref(), server.Past();
    server.IsLogged();
    server.IsReplayed();
    KeepsLess(scope, refs, c, c);
    ghost var after, remnants, counted, changed;
    ok, after, remnants, counted, changed := SyncOne(server, scope, found[i], gvk, cache, source, now);
    next := Round(Present(t), Present(server.Past()), server.Since(), ok, after);
    server.IsLogged();
    server.IsReplayed();
    LaterOf(t, server.Past());
    assert SyncingSoFar(0, t, begun, c, done, found, gvk, cache, source, now) by { assert Unseal(0); }
    SyncStep(t, server.Past(), begun, done, next, found, gvk, cache, source, remnants, counted, changed, now);
    KeepsAround(scope, refs, ref, c, c, server.cluster);
    ReadsSurvive(scope.Minus(ref), c, server.cluster, found, i + 1);
    HeldSurvive(scope.Minus(ref), c, server.cluster, refs - {ref});
    PersistedStep(scope, refs, c, server.cluster, found, i, done, next, place);
    assert SyncingSoFar(0, server.Past(), begun, server.cluster, done + [next], found, gvk, cache, source, now);
  }

  lemma SyncStep(a: Trace, b: Trace, begun: Mark, done: seq<Round>, next: Round, found: seq<ObjectSync>,
                 gvk: Gvk, cache: seq<Namespace>, source: Source,
                 remnants: seq<DestinationStatus>, counted: seq<bool>, changed: bool, now: string)
    requires SyncedInTurn(a, begun, Present(a), done, found, gvk, cache, source, now) && |done| < |found|
    requires Later(a, b) && a.meddling <= b.meddling && a.faults <= b.faults
    requires next.from == Present(a) && next.to == Present(b) && Since(a, b, next.s)
    requires Reconciled(next.s, next.ok, found[|done|], next.after, gvk, Expected(found[|done|], cache), source,
                        remnants, counted, changed, now)
    ensures SyncedInTurn(b, begun, Present(b), done + [next], found, gvk, cache, source, now)
  {
    PlacedNow(a, b, next);
    ChainStep(a, b, begun, done, next);
    assert Told(next, found[|done|], gvk, cache, source, now);
    ToldStep(done, next, found, gvk, cache, source, now);
  }

  /** What the loop has achieved with a reconcile for each of the first |done|. */
  ghost predicate Syncing(t: Trace, begun: Mark, c: Cluster, done: seq<Round>, found: seq<ObjectSync>, gvk: Gvk,
                          cache: seq<Namespace>, source: Source, now: string) {
    forall i: int {:trigger Unseal(i)} :: Unseal(i) ==> SyncingSoFar(i, t, begun, c, done, found, gvk, cache, source, now)
  }

  ghost predicate SyncingSoFar(i: int, t: Trace, begun: Mark, c: Cluster, done: seq<Round>, found: seq<ObjectSync>, gvk: Gvk,
                               cache: seq<Namespace>, source: Source, now: string) {
    SyncedInTurn(t, begun, Present(t), done, found, gvk, cache, source, now) && AllPersisted(c, found, done)
  }

  /** Reconcile all of them, one after the other, whatever becomes of each. */
  method SyncAll(server: ApiServer, scope: Scope, refs: set<NamespacedName>, found: seq<ObjectSync>, gvk: Gvk,
                 cache: seq<Namespace>, source: Source, place: NamespacedName, now: string)
    returns (all: bool, ghost done: seq<Round>)
    requires server.Valid() && refs <= scope.reserved && AllHeld(server.cluster, refs)
    requires Lookup(found, refs, place) && AllRead(server.cluster, found, 0)
    requires Known(server.cluster, source.key, source.seen)
    modifies server
    ensures server.Advanced(scope.Without(refs)) && AllHeld(server.cluster, refs)
    ensures |done| == |found|
    ensures SyncedInTurn(server.Past(), old(Present(server.Past())), Present(server.Past()), done, found, gvk, cache, source, now)
    ensures AllPersisted(server.cluster, found, done)
    ensures all <==> AllOk(done)
    ensures server.Calm() ==> all
  {
    all, done := true, [];
    ghost var begun := Present(server.Past());
    KeepsLess(scope, refs, server.cluster, server.cluster);
    ChainStart(server.Past());
    for i := 0 to |found|
      invariant server.Advanced(scope.Without(refs)) && AllHeld(server.cluster, refs)
      invariant AllRead(server.cluster, found, i)
      invariant |done| == i && Syncing(server.Past(), begun, server.cluster, done, found, gvk, cache, source, now)
      invariant all <==> AllOk(done)
      invariant server.Calm() ==> all
    {
      ghost var c := server.cluster;
      var ok;
      ghost var next;
      ok, next := SyncNext(server, scope, refs, found, i, gvk, cache, source, place, now, begun, done);
      KeepsTransitive(scope.Without(refs), old(server.cluster), c, server.cluster);
      AllOkStep(done, next);
      done := done + [next];
      all := all && ok;
    }
    assert SyncingSoFar(0, server.Past(), begun, server.cluster, done, found, gvk, cache, source, now) by { assert Unseal(0); }
  }

  /** The preliminaries of a live source's reconcile, up to the point `begun`: the lookup,
      then the call for the finalizer if the source as seen lacks it, and nothing else.
      Where that call is accepted, the state at `begun` is what it made of the state then. */
  ghost predicate FinalizedFirst(t0: Trace, t: Trace, a: Account, source: Source, added: bool) {
    var m := |t0.log| + |a.readings|;
    && NotAfter(Present(t0), a.begun) && NotAfter(a.begun, Present(t)) && |t.moments| == |t.log|
    && (forall i | a.begun.logged <= i < |t.log| :: a.begun.run <= t.moments[i])
    && if FINALIZER in source.seen.finalizers then a.begun.logged == m && added
       else
         && a.begun.logged == m + 1 && t.log[m].Issued? && t.log[m].call == AddFinalizer(source.key, FINALIZER)
         && (added <==> t.log[m].answer == Accepted)
         && (added ==>
               var c := Replay(t.run[..a.begun.run]);
               && AppliedTo(t, m, c, source.key, FINALIZER)
               && source.key in c.objects && FINALIZER in c.objects[source.key].finalizers)
  }

  lemma FinalizedLater(t0: Trace, t1: Trace, t: Trace, a: Account, source: Source, added: bool)
    requires FinalizedFirst(t0, t1, a, source, added) && Later(t1, t) && NotAfter(Present(t1), Present(t))
    requires a.begun == Present(t1)
    ensures FinalizedFirst(t0, t, a, source, added)
  {
    assert t.run[..a.begun.run] == t1.run[..a.begun.run];
    var m := |t0.log| + |a.readings|;
    if FINALIZER !in source.seen.finalizers && added {
      AppliedLater(t1, t, m, Replay(t.run[..a.begun.run]), source.key, FINALIZER);
    }
  }

  /** A source that is gone is brought back empty: exactly if, as seen, it lacks the
      finalizer, and it is absent when the call for the finalizer is carried out. */
  lemma SourceIsConjuredIff(t0: Trace, t: Trace, a: Account, source: Source)
    requires FinalizedFirst(t0, t, a, source, true)
    ensures
      var m := |t0.log| + |a.readings|;
      var c := Replay(t.run[..a.begun.run]);
      var before := if FINALIZER in source.seen.finalizers then c else Replay(t.run[..t.moments[m]]);
      Conjured(before, c, source.key) <==> FINALIZER !in source.seen.finalizers && source.key !in before.objects
  {
    var m := |t0.log| + |a.readings|;
    if FINALIZER !in source.seen.finalizers {
      AppliedConjuresIff(Replay(t.run[..t.moments[m]]), source.key, FINALIZER);
    }
  }

  /** Look the ObjectSyncs up and see to the source's finalizer. */
  method FindAndFinalize(server: ApiServer, scope: Scope, refs: set<NamespacedName>, source: Source, place: NamespacedName)
    returns (found: seq<ObjectSync>, added: bool, ghost account: Account)
    requires server.Valid() && refs <= scope.reserved && AllHeld(server.cluster, refs)
    modifies server
    ensures server.Advanced(scope) && AllHeld(server.cluster, refs)
    ensures Lookup(found, refs, place) && AllRead(server.cluster, found, 0)
    ensures account == Account(account.readings, found, Present(server.Past()), [], Present(server.Past()))
    ensures LookedUp(old(server.Past()), server.Past(), account.readings, found, refs, place)
    ensures FinalizedFirst(old(server.Past()), server.Past(), account, source, added)
    ensures server.Calm() ==>
              added && AllAnswered(old(server.cluster), account.readings) && NoneMissed(old(server.cluster), found, refs, place)
    ensures server.Calm() ==>
              (Conjured(old(server.cluster), server.cluster, source.key) <==>
               FINALIZER !in source.seen.finalizers && source.key !in old(server.cluster).objects)
  {
    ghost var t0 := server.Past();
    server.IsLogged();
    ghost var readings;
    found, readings := LookupObjectSyncs(server, scope, refs, place);
    ghost var t1, c1 := server.Past(), server.cluster;
    server.IsLogged();
    added := AskFinalizer(server, scope, source, place);
    KeepsTransitive(scope, old(server.cluster), c1, server.cluster);
    ReadsSurvive(scope, c1, server.cluster, found, 0);
    HeldSurvive(scope, c1, server.cluster, refs);
    server.IsLogged();
    server.IsReplayed();
    ReadsLater(t1, server.Past(), |t0.log|, readings);
    account := Account(readings, found, Present(server.Past()), [], Present(server.Past()));
    AskedIsFirst(t0, t1, server.Past(), account, source, added, server.cluster);
  }

  /** What the log has of the call for the finalizer. */
  ghost predicate FinalizerAsked(log: seq<Record>, t: Trace, c: Cluster, source: Source, added: bool) {
    if FINALIZER in source.seen.finalizers then t.log == log && added
    else
      && |t.log| == |log| + 1 && t.log == log + [Issued(AddFinalizer(source.key, FINALIZER), t.log[|log|].answer)]
      && (added <==> t.log[|log|].answer == Accepted)
      && (added ==>
            && AppliedTo(t, |log|, c, source.key, FINALIZER)
            && source.key in c.objects && FINALIZER in c.objects[source.key].finalizers)
  }

  /** See to the source's finalizer. */
  method AskFinalizer(server: ApiServer, scope: Scope, source: Source, place: NamespacedName) returns (added: bool)
    requires server.Valid()
    modifies server
    ensures server.Advanced(scope)
    ensures FinalizerAsked(old(server.log), server.Past(), server.cluster, source, added)
    ensures server.Calm() ==> added
    ensures server.Calm() ==>
              (Conjured(old(server.cluster), server.cluster, source.key) <==>
               FINALIZER !in source.seen.finalizers && source.key !in old(server.cluster).objects)
  {
    var finalizer, _ := AddFinalizerIfMissing(server, scope, place, source.key, source.seen, FINALIZER);
    added := finalizer.Success?;
  }

  lemma AskedIsFirst(t0: Trace, t1: Trace, t: Trace, a: Account, source: Source, added: bool, c: Cluster)
    requires |t1.log| == |t0.log| + |a.readings| && NotAfter(Present(t0), Present(t)) && |t.moments| == |t.log|
    requires a.begun == Present(t) && c == Replay(t.run) && FinalizerAsked(t1.log, t, c, source, added)
    ensures FinalizedFirst(t0, t, a, source, added)
  {
    assert t.run[..|t.run|] == t.run;
  }

  /** The story of reconciling a live source: the call for the finalizer first, then, taken
      or not, a reconcile for every ObjectSync found in its turn, until the end. */
  ghost predicate Maintenance(t0: Trace, t: Trace, a: Account, refs: set<NamespacedName>, place: NamespacedName,
                              gvk: Gvk, cache: seq<Namespace>, source: Source, now: string, result: SourceResult) {
    && result.Maintained?
    && LookedUp(t0, t, a.readings, a.found, refs, place)
    && FinalizedFirst(t0, t, a, source, result.finalized)
    && |a.done| == |a.found| && a.ended == Present(t)
    && SyncedInTurn(t, a.begun, a.ended, a.done, a.found, gvk, cache, source, now)
    && (result.all <==> AllOk(a.done))
  }

  lemma MaintenanceTold(t0: Trace, t1: Trace, t: Trace, a: Account, done: seq<Round>, refs: set<NamespacedName>,
                        place: NamespacedName, gvk: Gvk, cache: seq<Namespace>, source: Source, now: string, added: bool, all: bool)
    requires LookedUp(t0, t1, a.readings, a.found, refs, place) && FinalizedFirst(t0, t1, a, source, added)
    requires Later(t1, t) && NotAfter(Present(t1), Present(t)) && a.begun == Present(t1)
    requires |done| == |a.found| && SyncedInTurn(t, a.begun, Present(t), done, a.found, gvk, cache, source, now)
    requires all <==> AllOk(done)
    ensures Maintenance(t0, t, a.(done := done, ended := Present(t)), refs, place, gvk, cache, source, now, Maintained(added, all))
  {
    ReadsLater(t1, t, |t0.log|, a.readings);
    FinalizedLater(t0, t1, t, a, source, added);
  }

  /** A live source that lacks the finalizer is asked to take it before anything is made
      from it; the reconciles follow even if that call is refused. */
  method ReconcileLive(server: ApiServer, scope: Scope, refs: set<NamespacedName>, gvk: Gvk, cache: seq<Namespace>,
                       source: Source, place: NamespacedName, now: string)
    returns (result: SourceResult, ghost account: Account)
    requires server.Valid() && refs <= scope.reserved && AllHeld(server.cluster, refs)
    requires Known(server.cluster, source.key, source.seen)
    modifies server
    ensures server.Advanced(scope.Without(refs)) && AllHeld(server.cluster, refs)
    ensures Maintenance(old(server.Past()), server.Past(), account, refs, place, gvk, cache, source, now, result)
    ensures AllPersisted(server.cluster, account.found, account.done)
    ensures Lookup(account.found, refs, place)
    ensures server.Calm() ==>
              && result == Maintained(true, true)
              && AllAnswered(old(server.cluster), account.readings) && NoneMissed(old(server.cluster), account.found, refs, place)
    // A source that is gone is brought back empty.
    ensures account.begun.run <= |server.run|
    ensures server.Calm() ==>
              (Conjured(old(server.cluster), Replay(server.run[..account.begun.run]), source.key) <==>
               FINALIZER !in source.seen.finalizers && source.key !in old(server.cluster).objects)
  {
    ghost var t0, c0 := server.Past(), server.cluster;
    var syncs, added;
    syncs, added, account := FindAndFinalize(server, scope, refs, source, place);
    ghost var t1, c1 := server.Past(), server.cluster;
    server.IsLogged();
    server.IsReplayed();
    var all;
    ghost var done;
    all, done := SyncAll(server, scope, refs, syncs, gvk, cache, source, place, now);
    KeepsLess(scope, refs, c0, c1);
    KeepsTransitive(scope.Without(refs), c0, c1, server.cluster);
    server.IsLogged();
    LaterOf(t1, server.Past());
    MaintenanceTold(t0, t1, server.Past(), account, done, refs, place, gvk, cache, source, now, added, all);
    AtLater(t1, server.Past(), |t1.run|, c1);
    account := account.(done := done, ended := Present(server.Past()));
    result := Maintained(added, all);
  }

  /** Failures stay with the ObjectSync they happen to. Suppose nobody else acts during the
      rounds, and no two of the ObjectSyncs found share a destination. Then, whatever fails
      for the others, each one for which nothing failed has succeeded and in the end has
      converged: its persisted status lists exactly what is expected, in sync, and what it
      tracked besides is gone. */
  lemma MaintainedConverges(t0: Trace, t: Trace, a: Account, refs: set<NamespacedName>, place: NamespacedName,
                            gvk: Gvk, cache: seq<Namespace>, source: Source, now: string, result: SourceResult)
    requires Maintenance(t0, t, a, refs, place, gvk, cache, source, now, result)
    requires a.begun.meddling == a.ended.meddling && ApartFootprints(a.found, gvk, cache)
    requires forall o | o in a.found :: AllOnlyOurs(Replay(t.run[..a.begun.run]), Footprint(o, gvk, cache))
    ensures forall j | 0 <= j < |a.found| && a.done[j].from.faults == a.done[j].to.faults ::
              a.done[j].ok && ConvergedFor(Replay(t.run), a.done[j], a.found[j], gvk, cache, source)
  {
    var n := |a.done|;
    assert Chained(0, t, a.begun, a.ended, a.done) by { assert Unfold(0); }
    UndisturbedRounds(t, a.begun, a.ended, a.done);
    RoundsConverge(t, a.begun, a.done, n, a.found, gvk, cache, source, now);
    EndsPresent(t, a);
    forall j | 0 <= j < |a.found| && a.done[j].from.faults == a.done[j].to.faults
      ensures a.done[j].ok && ConvergedFor(Replay(t.run), a.done[j], a.found[j], gvk, cache, source)
    {
      assert Placed(t, a.done[j]) && Told(a.done[j], a.found[j], gvk, cache, source, now);
      RoundConverges(a.done[j], a.found[j], gvk, cache, source, now);
    }
  }

  lemma EndsPresent(t: Trace, a: Account)
    requires Chain(t, a.begun, a.ended, a.done) && a.ended == Present(t) && a.begun.run <= |t.run|
    ensures StateAfter(t, a.begun.run, a.done, |a.done|) == Replay(t.run)
  {
    assert Chained(0, t, a.begun, a.ended, a.done) by { assert Unfold(0); }
    assert t.run[..|t.run|] == t.run;
    if |a.done| > 0 { assert Placed(t, a.done[|a.done| - 1]); }
  }

  /** Repetition of the whole: once all the ObjectSyncs found have converged, nobody else
      acts, and no two of them share a destination, then of those for which nothing fails
      it issues no call exactly for the ones whose expected targets are distinct. */
  lemma MaintainedIsQuietIff(t0: Trace, t: Trace, a: Account, refs: set<NamespacedName>, place: NamespacedName,
                             gvk: Gvk, cache: seq<Namespace>, source: Source, now: string, result: SourceResult)
    requires Maintenance(t0, t, a, refs, place, gvk, cache, source, now, result)
    requires a.begun.meddling == a.ended.meddling && ApartFootprints(a.found, gvk, cache)
    requires forall o | o in a.found :: ConvergedBefore(Replay(t.run[..a.begun.run]), o, gvk, cache, source)
    ensures forall j | 0 <= j < |a.found| && a.done[j].from.faults == a.done[j].to.faults ::
              a.done[j].s.idle <==> DistinctTargets(Expected(a.found[j], cache))
  {
    assert Chained(0, t, a.begun, a.ended, a.done) by { assert Unfold(0); }
    UndisturbedRounds(t, a.begun, a.ended, a.done);
    RoundsRepeat(t, a.begun, a.done, |a.done|, a.found, gvk, cache, source, now);
    forall j | 0 <= j < |a.found| && a.done[j].from.faults == a.done[j].to.faults
      ensures a.done[j].s.idle <==> DistinctTargets(Expected(a.found[j], cache))
    {
      assert Placed(t, a.done[j]);
    }
  }

  // ---------------------------------------------------------------------
  // All cases

  /** Whether the object still looks like a destination the controller maintains. */
  predicate IsTarget(o: Object) {
    Annotation(SOURCE_OBJECT_ANNOTATION) in o.payload && !o.terminating
  }

  /** Nobody references the source: it is let go, unless it is itself a destination. */
  method ReconcileUnreferenced(server: ApiServer, scope: Scope, source: Source, place: NamespacedName)
    returns (r: Result<bool>)
    requires server.Valid()
    modifies server
    ensures server.Advanced(scope)
    ensures
      if Annotation("sync.rustrial.org/source-object") in source.seen.payload && !source.seen.terminating
      then r == Success(false) && server.cluster == old(server.cluster) && server.log == old(server.log)
      else ReleaseLogged(server.Past(), |old(server.log)|, source, r)
    ensures server.Calm() ==> r.Success?
    ensures server.Calm() && source.key in old(server.cluster).objects && source.seen == old(server.cluster).objects[source.key]
            && !IsTarget(source.seen) && source.key in server.cluster.objects ==>
              FINALIZER !in server.cluster.objects[source.key].finalizers
  {
    KeepsLess(scope, {}, server.cluster, server.cluster);
    if IsTarget(source.seen) {
      return Success(false);
    }
    var removed, _ := RemoveFinalizer(server, scope, place, source.key, source.seen, FINALIZER);
    r := removed;
  }

  /** Reconcile a source object as the watch delivered it. */
  method Reconcile(server: ApiServer, scope: Scope, sources: SourceIndex, namespaces: Option<set<string>>,
                   gvk: Gvk, cache: seq<Namespace>, source: Source, now: string)
    returns (result: SourceResult, ghost account: Account)
    requires server.Valid() && Known(server.cluster, source.key, source.seen)
    requires
      var place := NamespacedName(source.key.namespace, source.key.name);
      var consulted := namespaces.None? || namespaces.value == {} || place.namespace in namespaces.value || "*" in namespaces.value;
      var refs := if consulted && place in sources then sources[place] else {};
      refs <= scope.reserved && AllHeld(server.cluster, refs)
    modifies server
    // Consulted are the ObjectSyncs registered for the source, if it is in one of the source
    // namespaces; no list, an empty one and a wildcard admit them all.
    ensures
      var place := NamespacedName(source.key.namespace, source.key.name);
      var consulted := namespaces.None? || namespaces.value == {} || place.namespace in namespaces.value || "*" in namespaces.value;
      var refs := if consulted && place in sources then sources[place] else {};
      && server.Advanced(scope.Without(refs)) && AllHeld(server.cluster, refs)
      && (result.Unreferenced? <==> refs == {})
      && (refs != {} ==>
            if source.seen.terminating then
              Deletion(old(server.Past()), server.Past(), account, refs, place, source, now, result)
            else
              && Maintenance(old(server.Past()), server.Past(), account, refs, place, gvk, cache, source, now, result)
              && AllPersisted(server.cluster, account.found, account.done))
      && (server.Calm() && refs != {} ==>
            && AllAnswered(old(server.cluster), account.readings)
            && NoneMissed(old(server.cluster), account.found, refs, place)
            && (if source.seen.terminating then result.Released? && result.r.Success?
                else result == Maintained(true, true)))
    ensures result.Unreferenced? ==>
              if Annotation("sync.rustrial.org/source-object") in source.seen.payload && !source.seen.terminating
              then server.cluster == old(server.cluster) && server.log == old(server.log)
              else ReleaseLogged(server.Past(), |old(server.log)|, source, result.r)
    ensures server.Calm() && result.Unreferenced? ==> result.r.Success?
  {
    var place := NamespacedName(source.key.namespace, source.key.name);
    var refs := Registered(sources, namespaces, place);
    account := Account([], [], Present(server.Past()), [], Present(server.Past()));
    if refs == {} {
      assert scope.Without(refs) == scope;
      var released := ReconcileUnreferenced(server, scope, source, place);
      result := Unreferenced(released);
    } else if source.seen.terminating {
      result, account := ReconcileDeleted(server, scope, refs, source, place, now);
    } else {
      result, account := ReconcileLive(server, scope, refs, gvk, cache, source, place, now);
    }
  }
}
