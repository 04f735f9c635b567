/** The reconciles of a source's ObjectSyncs as rounds between points of the run. */
module Rounds {
  import opened Common
  import opened Apis
  import opened ClusterModel
  import opened Interference
  import opened Runs
  import opened ApiServers
  import opened Lookups
  import opened Utils
  import opened Upserts
  import opened Convergence
  import opened ResourceControllers
  import opened Removals
  import opened Targets

  /** What was done for one ObjectSync found, between two points of the run. */
  datatype Round = Round(from: Mark, to: Mark, s: Stretch, ok: bool, after: ObjectSync)

  // ---------------------------------------------------------------------
  // Rounds follow each other

  /** Run, log and counts bear out what the stretch of the round says. */
  ghost predicate Placed(t: Trace, r: Round) {
    && NotAfter(r.from, r.to) && r.to.logged <= |t.log| == |t.moments|
    && At(t, r.from.run, r.s.start) && At(t, r.to.run, r.s.end)
    && r.s.logBefore == t.log[..r.from.logged] && r.s.logAfter == t.log[..r.to.logged]
    && r.s.before == CallsOf(r.s.logBefore) && r.s.after == CallsOf(r.s.logAfter)
    && (forall i | r.from.logged <= i < r.to.logged :: r.from.run <= t.moments[i] <= r.to.run)
    && (r.s.alone <==> r.from.meddling == r.to.meddling)
    && (r.s.calm <==> r.s.alone && r.from.faults == r.to.faults)
  }

  lemma PlacedLater(a: Trace, b: Trace, r: Round)
    requires Placed(a, r) && Later(a, b)
    ensures Placed(b, r)
  {
    AtLater(a, b, r.from.run, r.s.start);
    AtLater(a, b, r.to.run, r.s.end);
    assert b.log[..r.from.logged] == a.log[..r.from.logged] && b.log[..r.to.logged] == a.log[..r.to.logged];
  }

  /** The stretch from the one past to the other. */
  ghost predicate Since(a: Trace, b: Trace, s: Stretch) {
    && s.start == Replay(a.run) && s.end == Replay(b.run)
    && s.logBefore == a.log && s.logAfter == b.log
    && s.before == CallsOf(a.log) && s.after == CallsOf(b.log)
    && (s.alone <==> a.meddling == b.meddling)
    && (s.calm <==> s.alone && a.faults == b.faults)
  }

  /** A round just made. */
  lemma PlacedNow(a: Trace, b: Trace, r: Round)
    requires Later(a, b) && a.meddling <= b.meddling && a.faults <= b.faults
    requires r.from == Present(a) && r.to == Present(b) && Since(a, b, r.s)
    ensures Placed(b, r)
  {
    assert b.run[..|a.run|] == a.run && b.run[..|b.run|] == b.run;
    assert b.log[..|a.log|] == a.log && b.log[..|b.log|] == b.log;
  }

  /** Where the first `n` rounds have got to. */
  ghost function Reached(start: Mark, done: seq<Round>, n: nat): Mark
    requires n <= |done|
  {
    if n == 0 then start else done[n - 1].to
  }

  ghost predicate AllPlaced(t: Trace, done: seq<Round>) {
    forall j | 0 <= j < |done| :: Placed(t, done[j])
  }

  ghost predicate InTurn(start: Mark, done: seq<Round>) {
    forall j | 0 <= j < |done| :: done[j].from == Reached(start, done, j)
  }

  /** The rounds lead from one point to the other without gaps: each starts in the state,
      with the log and at the counts in which the last one ended. */
  ghost predicate Chain(t: Trace, start: Mark, end: Mark, done: seq<Round>) {
    forall i: int {:trigger Unfold(i)} :: Unfold(i) ==> Chained(i, t, start, end, done)
  }

  ghost predicate Chained(i: int, t: Trace, start: Mark, end: Mark, done: seq<Round>) {
    InTurn(start, done) && AllPlaced(t, done) && Reached(start, done, |done|) == end
  }

  lemma ChainStart(t: Trace)
    ensures Chain(t, Present(t), Present(t), [])
  {
  }

  lemma InTurnStep(start: Mark, done: seq<Round>, next: Round)
    requires InTurn(start, done) && next.from == Reached(start, done, |done|)
    ensures InTurn(start, done + [next]) && Reached(start, done + [next], |done| + 1) == next.to
  {
    var more := done + [next];
    forall j | 0 <= j < |more| ensures more[j].from == Reached(start, more, j) {
      assert Reached(start, more, j) == Reached(start, done, j);
      if j < |done| {
        assert more[j] == done[j];
      }
    }
  }

  lemma ChainLater(a: Trace, b: Trace, start: Mark, end: Mark, done: seq<Round>)
    requires Chain(a, start, end, done) && Later(a, b)
    ensures Chain(b, start, end, done)
  {
    assert Chained(0, a, start, end, done) by { assert Unfold(0); }
    forall j | 0 <= j < |done| ensures Placed(b, done[j]) {
      PlacedLater(a, b, done[j]);
    }
    assert Chained(0, b, start, end, done);
  }

  /** One more round. */
  lemma ChainStep(a: Trace, b: Trace, start: Mark, done: seq<Round>, next: Round)
    requires Chain(a, start, Present(a), done) && Later(a, b)
    requires Placed(b, next) && next.from == Present(a)
    ensures Chain(b, start, next.to, done + [next])
  {
    ChainLater(a, b, start, Present(a), done);
    assert Chained(0, b, start, Present(a), done) by { assert Unfold(0); }
    InTurnStep(start, done, next);
    assert AllPlaced(b, done + [next]);
    assert Chained(0, b, start, next.to, done + [next]);
  }

  predicate AllOk(done: seq<Round>) {
    forall j | 0 <= j < |done| :: done[j].ok
  }

  ghost predicate AllAlone(done: seq<Round>) {
    forall j | 0 <= j < |done| :: done[j].s.alone
  }

  /** Every round lies between the first point and the last. */
  lemma {:induction false} LiesBetween(start: Mark, done: seq<Round>, n: nat, j: nat)
    requires InTurn(start, done) && j < n <= |done|
    requires forall l | 0 <= l < |done| :: NotAfter(done[l].from, done[l].to)
    ensures NotAfter(start, done[j].from) && NotAfter(done[j].to, Reached(start, done, n))
  {
    if n > 1 {
      LiesBetween(start, done, n - 1, if j == n - 1 then n - 2 else j);
    }
    assert done[n - 1].from == Reached(start, done, n - 1);
  }

  /** If nobody meddled from the first to the last point, nobody meddled with any round;
      and if nothing failed either, every round was calm. */
  lemma UndisturbedRounds(t: Trace, start: Mark, end: Mark, done: seq<Round>)
    requires Chain(t, start, end, done)
    ensures NotAfter(start, end)
    ensures start.meddling == end.meddling ==> AllAlone(done)
    ensures start.meddling == end.meddling && start.faults == end.faults ==> forall j | 0 <= j < |done| :: done[j].s.calm
  {
    assert Chained(0, t, start, end, done) by { assert Unfold(0); }
    forall j | 0 <= j < |done| ensures NotAfter(done[j].from, done[j].to) {
      assert Placed(t, done[j]);
    }
    forall j | 0 <= j < |done|
      ensures NotAfter(start, end)
      ensures start.meddling == end.meddling ==> done[j].s.alone
      ensures start.meddling == end.meddling && start.faults == end.faults ==> done[j].s.calm
    {
      LiesBetween(start, done, |done|, j);
      assert Placed(t, done[j]);
    }
    if |done| > 0 { LiesBetween(start, done, |done|, 0); }
  }

  lemma AllOkStep(done: seq<Round>, next: Round)
    ensures AllOk(done + [next]) <==> AllOk(done) && next.ok
  {
    var more := done + [next];
    assert more[|done|] == next;
    if AllOk(more) {
      forall j | 0 <= j < |done| ensures done[j].ok {
        assert more[j] == done[j];
      }
    }
  }

  // ---------------------------------------------------------------------
  // What was done in a round

  /** The round is a reconcile of the ObjectSync for the source. */
  ghost predicate Told(r: Round, o: ObjectSync, gvk: Gvk, cache: seq<Namespace>, source: Source, now: string) {
    exists remnants, counted, changed ::
      Reconciled(r.s, r.ok, o, r.after, gvk, Expected(o, cache), source, remnants, counted, changed, now)
  }

  ghost predicate AllTold(done: seq<Round>, found: seq<ObjectSync>, gvk: Gvk, cache: seq<Namespace>,
                          source: Source, now: string) {
    && |done| <= |found|
    && forall j | 0 <= j < |done| :: Told(done[j], found[j], gvk, cache, source, now)
  }

  lemma ToldStep(done: seq<Round>, next: Round, found: seq<ObjectSync>, gvk: Gvk, cache: seq<Namespace>,
                 source: Source, now: string)
    requires AllTold(done, found, gvk, cache, source, now) && |done| < |found|
    requires Told(next, found[|done|], gvk, cache, source, now)
    ensures AllTold(done + [next], found, gvk, cache, source, now)
  {
  }

  /** The round is a removal of all that the ObjectSync tracks. */
  ghost predicate AllEmptied(done: seq<Round>, found: seq<ObjectSync>, now: string) {
    && |done| <= |found|
    && forall j | 0 <= j < |done| :: Removed(done[j].s, done[j].ok, found[j].Ref(), found[j], done[j].after, now)
  }

  lemma EmptiedStep(done: seq<Round>, next: Round, found: seq<ObjectSync>, now: string)
    requires AllEmptied(done, found, now) && |done| < |found|
    requires Removed(next.s, next.ok, found[|done|].Ref(), found[|done|], next.after, now)
    ensures AllEmptied(done + [next], found, now)
  {
  }

  /** The status the server holds is that of `after`. */
  ghost predicate Persisted(c: Cluster, ref: NamespacedName, after: ObjectSync) {
    Held(c, ref) && c.syncs[ref].status == after.status
  }

  ghost predicate AllPersisted(c: Cluster, found: seq<ObjectSync>, done: seq<Round>) {
    forall j | 0 <= j < |done| && j < |found| :: done[j].ok ==> Persisted(c, found[j].Ref(), done[j].after)
  }

  lemma PersistedStep(scope: Scope, refs: set<NamespacedName>, a: Cluster, b: Cluster, found: seq<ObjectSync>, i: nat,
                      done: seq<Round>, next: Round, place: NamespacedName)
    requires Lookup(found, refs, place) && i == |done| < |found| && refs <= scope.reserved
    requires Keeps(scope.Minus(found[i].Ref()), a, b) && AllPersisted(a, found, done)
    requires next.ok ==> Persisted(b, found[i].Ref(), next.after)
    ensures AllPersisted(b, found, done + [next])
  {
    forall j | 0 <= j < |done| && done[j].ok ensures Persisted(b, found[j].Ref(), done[j].after) {
      assert found[j].Ref() in scope.Minus(found[i].Ref()).reserved;
      assert Kept(found[j].Ref(), a, b);
    }
  }

  // ---------------------------------------------------------------------
  // Where rounds end

  function Footprint(o: ObjectSync, gvk: Gvk, cache: seq<Namespace>): set<Key> {
    KeySet(o.Tracked()) + TargetKeys(gvk, Expected(o, cache))
  }

  /** No two of the ObjectSyncs track or expect the same destination. */
  ghost predicate ApartFootprints(found: seq<ObjectSync>, gvk: Gvk, cache: seq<Namespace>) {
    forall i, j | 0 <= i < |found| && 0 <= j < |found| && i != j ::
      Footprint(found[i], gvk, cache) !! Footprint(found[j], gvk, cache)
  }

  /** The state after the first `n` rounds. */
  ghost function StateAfter(t: Trace, at: nat, done: seq<Round>, n: nat): Cluster
    requires at <= |t.run| && n <= |done|
  {
    if n == 0 then Replay(t.run[..at]) else done[n - 1].s.end
  }

  ghost predicate ConvergedFor(c: Cluster, r: Round, o: ObjectSync, gvk: Gvk, cache: seq<Namespace>, source: Source) {
    Converged(c, r.after, gvk, Expected(o, cache), o.Tracked(), source)
  }

  /** After `n` rounds those of the first `n` in which nothing failed are where they should
      be, and nothing yet keeps the others from getting there. */
  ghost predicate ConvergedSoFar(c: Cluster, n: nat, done: seq<Round>, found: seq<ObjectSync>, gvk: Gvk,
                                 cache: seq<Namespace>, source: Source) {
    && (forall j | 0 <= j < n && j < |done| && j < |found| ::
          done[j].s.calm ==> ConvergedFor(c, done[j], found[j], gvk, cache, source))
    && (forall j | n <= j < |found| :: AllOnlyOurs(c, Footprint(found[j], gvk, cache)))
  }

  lemma ConvergedStays(a: Cluster, b: Cluster, keys: set<Key>, after: ObjectSync, o: ObjectSync, gvk: Gvk,
                       cache: seq<Namespace>,
                       source: Source)
    requires SameObjects(keys, a, b) && keys !! Footprint(o, gvk, cache)
    requires Converged(a, after, gvk, Expected(o, cache), o.Tracked(), source)
    ensures Converged(b, after, gvk, Expected(o, cache), o.Tracked(), source)
  {
    var targets, list := Expected(o, cache), after.Tracked();
    ConvergedMeans(a, after, gvk, targets, o.Tracked(), source);
    forall k | k in KeySet(Without(TargetKeys(gvk, targets), o.Tracked())) ensures k !in b.objects {
      assert k in KeySet(o.Tracked());
    }
    forall j | 0 <= j < |list| && LastOfKey(list, j, |list|) ensures Synced(b, list[j], source) {
      assert Synced(a, list[j], source) && list[j].Identity() in KeySet(list);
    }
  }

  lemma OursStays(a: Cluster, b: Cluster, keys: set<Key>, footprint: set<Key>)
    requires SameObjects(keys, a, b) && keys !! footprint && AllOnlyOurs(a, footprint)
    ensures AllOnlyOurs(b, footprint)
  {
    forall k | k in footprint && k in b.objects ensures OnlyOurs(b.objects[k]) {
      assert k in a.objects;
    }
  }

  /** What one round says, whatever the other rounds did: left alone it stays within its
      footprint, and if nothing failed in it, it succeeds and ends converged. */
  lemma RoundConverges(r: Round, o: ObjectSync, gvk: Gvk, cache: seq<Namespace>, source: Source, now: string)
    requires Told(r, o, gvk, cache, source, now) && (r.s.calm ==> r.s.alone)
    ensures r.s.alone ==> SameObjects(Footprint(o, gvk, cache), r.s.start, r.s.end)
    ensures r.s.calm ==> r.ok
    ensures r.s.calm && AllOnlyOurs(r.s.start, Footprint(o, gvk, cache)) ==>
              ConvergedFor(r.s.end, r, o, gvk, cache, source)
  {
    assert Unseal(0);
  }

  /** A failed round has a failed call of its own: the read of something stale, or a read
      or status write of the ObjectSync itself. */
  lemma RoundFailsByItself(r: Round, o: ObjectSync, gvk: Gvk, cache: seq<Namespace>, source: Source, now: string)
    requires Told(r, o, gvk, cache, source, now) && !r.ok
    ensures EndsUnread(r.s, KeySet(Without(TargetKeys(gvk, Expected(o, cache)), o.Tracked()))) || EndsUnstored(r.s, o.Ref())
  {
    assert Unseal(0);
  }

  lemma SoFarStep(n: nat, done: seq<Round>, found: seq<ObjectSync>, gvk: Gvk, cache: seq<Namespace>,
                  source: Source, now: string)
    requires n < |done| == |found| && ApartFootprints(found, gvk, cache)
    requires Told(done[n], found[n], gvk, cache, source, now) && done[n].s.alone
    requires ConvergedSoFar(done[n].s.start, n, done, found, gvk, cache, source)
    ensures ConvergedSoFar(done[n].s.end, n + 1, done, found, gvk, cache, source)
  {
    var a, b, keys := done[n].s.start, done[n].s.end, Footprint(found[n], gvk, cache);
    RoundConverges(done[n], found[n], gvk, cache, source, now);
    forall j | 0 <= j < n && done[j].s.calm ensures ConvergedFor(b, done[j], found[j], gvk, cache, source) {
      ConvergedStays(a, b, keys, done[j].after, found[j], gvk, cache, source);
    }
    forall j | n + 1 <= j < |found| ensures AllOnlyOurs(b, Footprint(found[j], gvk, cache)) {
      OursStays(a, b, keys, Footprint(found[j], gvk, cache));
    }
  }

  lemma {:induction false} RoundsConverge(t: Trace, start: Mark, done: seq<Round>, n: nat,
                                          found: seq<ObjectSync>, gvk: Gvk, cache: seq<Namespace>, source: Source, now: string)
    requires start.run <= |t.run| && n <= |done| == |found|
    requires InTurn(start, done) && AllPlaced(t, done) && AllTold(done, found, gvk, cache, source, now)
    requires AllAlone(done) && ApartFootprints(found, gvk, cache)
    requires forall o | o in found :: AllOnlyOurs(Replay(t.run[..start.run]), Footprint(o, gvk, cache))
    ensures ConvergedSoFar(StateAfter(t, start.run, done, n), n, done, found, gvk, cache, source)
  {
    if n > 0 {
      RoundsConverge(t, start, done, n - 1, found, gvk, cache, source, now);
      assert Placed(t, done[n - 1]) && done[n - 1].from == Reached(start, done, n - 1);
      assert done[n - 1].s.start == StateAfter(t, start.run, done, n - 1) by {
        if n > 1 { assert Placed(t, done[n - 2]); }
      }
      SoFarStep(n - 1, done, found, gvk, cache, source, now);
    }
  }

  // ---------------------------------------------------------------------
  // Repeated rounds

  ghost predicate ConvergedBefore(c: Cluster, o: ObjectSync, gvk: Gvk, cache: seq<Namespace>, source: Source) {
    Converged(c, o, gvk, Expected(o, cache), o.Tracked(), source)
  }

  /** What a round leaves is what the next one, from a fresh read, starts from. */
  lemma ConvergedCarriesOver(c: Cluster, r: Round, o: ObjectSync, next: ObjectSync, gvk: Gvk, cache: seq<Namespace>,
                             source: Source)
    requires ConvergedFor(c, r, o, gvk, cache, source)
    requires next.StatusDestinations() == r.after.StatusDestinations() && next.spec == o.spec && next.namespace == o.namespace
    ensures ConvergedBefore(c, next, gvk, cache, source)
  {
    ExpectedDependsOn(o.spec.destinations, o, next, cache);
    assert Converged(c, next, gvk, Expected(next, cache), o.Tracked(), source);
    ConvergedAgain(c, next, gvk, Expected(next, cache), o.Tracked(), source);
  }

  /** What one round after a converged state says. */
  lemma RoundIsQuietIff(r: Round, o: ObjectSync, gvk: Gvk, cache: seq<Namespace>, source: Source, now: string)
    requires Told(r, o, gvk, cache, source, now)
    requires ConvergedBefore(r.s.start, o, gvk, cache, source)
    ensures r.s.calm ==> (r.s.idle <==> DistinctTargets(Expected(o, cache)))
    ensures r.s.alone ==> SameObjects(Footprint(o, gvk, cache), r.s.start, r.s.end)
  {
    var remnants, counted, changed :|
      Reconciled(r.s, r.ok, o, r.after, gvk, Expected(o, cache), source, remnants, counted, changed, now);
    RepeatedReconcile(r.s, r.ok, o, r.after, gvk, Expected(o, cache), source, remnants, counted, changed, now);
    assert Unseal(0);
  }

  /** Those of the first `n` rounds in which nothing failed were quiet exactly as they should
      be, and the others are about to start from converged states. */
  ghost predicate QuietSoFar(c: Cluster, n: nat, done: seq<Round>, found: seq<ObjectSync>, gvk: Gvk,
                             cache: seq<Namespace>, source: Source) {
    && (forall j | 0 <= j < n && j < |done| && j < |found| ::
          done[j].s.calm ==> (done[j].s.idle <==> DistinctTargets(Expected(found[j], cache))))
    && (forall j | n <= j < |found| :: ConvergedBefore(c, found[j], gvk, cache, source))
  }

  lemma QuietStep(n: nat, done: seq<Round>, found: seq<ObjectSync>, gvk: Gvk, cache: seq<Namespace>,
                  source: Source, now: string)
    requires n < |done| == |found| && ApartFootprints(found, gvk, cache)
    requires Told(done[n], found[n], gvk, cache, source, now) && done[n].s.alone
    requires QuietSoFar(done[n].s.start, n, done, found, gvk, cache, source)
    ensures QuietSoFar(done[n].s.end, n + 1, done, found, gvk, cache, source)
  {
    RoundIsQuietIff(done[n], found[n], gvk, cache, source, now);
    forall j | n + 1 <= j < |found| ensures ConvergedBefore(done[n].s.end, found[j], gvk, cache, source) {
      ConvergedStays(done[n].s.start, done[n].s.end, Footprint(found[n], gvk, cache), found[j], found[j], gvk, cache, source);
    }
  }

  lemma {:induction false} RoundsRepeat(t: Trace, start: Mark, done: seq<Round>, n: nat,
                                        found: seq<ObjectSync>, gvk: Gvk, cache: seq<Namespace>, source: Source, now: string)
    requires start.run <= |t.run| && n <= |done| == |found|
    requires InTurn(start, done) && AllPlaced(t, done) && AllTold(done, found, gvk, cache, source, now)
    requires AllAlone(done) && ApartFootprints(found, gvk, cache)
    requires forall o | o in found :: ConvergedBefore(Replay(t.run[..start.run]), o, gvk, cache, source)
    ensures QuietSoFar(StateAfter(t, start.run, done, n), n, done, found, gvk, cache, source)
  {
    if n > 0 {
      RoundsRepeat(t, start, done, n - 1, found, gvk, cache, source, now);
      assert Placed(t, done[n - 1]) && done[n - 1].from == Reached(start, done, n - 1);
      assert done[n - 1].s.start == StateAfter(t, start.run, done, n - 1) by {
        if n > 1 { assert Placed(t, done[n - 2]); }
      }
      QuietStep(n - 1, done, found, gvk, cache, source, now);
    }
  }
}
