/** Looking up the ObjectSyncs to consult for a source object. */
module Lookups {
  import opened Common
  import opened Apis
  import opened ClusterModel
  import opened Interference
  import opened Runs
  import opened ApiServers

  type SourceIndex = map<NamespacedName, set<NamespacedName>>

  /** No list, an empty one and a wildcard admit every namespace. */
  predicate InNamespaces(namespaces: Option<set<string>>, namespace: string) {
    namespaces.None? || namespaces.value == {} || namespace in namespaces.value || "*" in namespaces.value
  }

  /** The ObjectSyncs to consult for a source: those registered for it, provided its
      namespace is one of the source namespaces. */
  function Registered(sources: SourceIndex, namespaces: Option<set<string>>, source: NamespacedName): set<NamespacedName> {
    if InNamespaces(namespaces, source.namespace) && source in sources then sources[source] else {}
  }

  /** An ObjectSync as read whose finalizer and status still are as read. */
  ghost predicate UpToDateRead(c: Cluster, o: ObjectSync) {
    Held(c, o.Ref()) && c.syncs[o.Ref()].uid == o.uid && c.syncs[o.Ref()].status == o.status
  }

  ghost predicate AllHeld(c: Cluster, refs: set<NamespacedName>) {
    forall ref | ref in refs :: Held(c, ref)
  }

  /** The ObjectSyncs from position `i` on are as read. */
  ghost predicate AllRead(c: Cluster, found: seq<ObjectSync>, i: nat) {
    forall j | i <= j < |found| :: UpToDateRead(c, found[j])
  }

  /** What a lookup returns: some of the registered ObjectSyncs, each once, and
      only such as still name this source. */
  ghost predicate Lookup(found: seq<ObjectSync>, refs: set<NamespacedName>, source: NamespacedName) {
    && (forall j | 0 <= j < |found| :: found[j].Ref() in refs && found[j].SourceRef() == source)
    && (forall i, j | 0 <= i < j < |found| :: found[i].Ref() != found[j].Ref())
  }

  predicate Has(found: seq<ObjectSync>, ref: NamespacedName) {
    exists j | 0 <= j < |found| :: found[j].Ref() == ref
  }

  /** No registered ObjectSync that names this source is missing. */
  ghost predicate NoneMissed(c: Cluster, found: seq<ObjectSync>, refs: set<NamespacedName>, source: NamespacedName) {
    forall ref | ref in refs && ref in c.syncs && c.syncs[ref].SourceRef() == source :: Has(found, ref)
  }

  lemma ReadsSurvive(scope: Scope, a: Cluster, b: Cluster, found: seq<ObjectSync>, i: nat)
    requires Keeps(scope, a, b) && AllRead(a, found, i)
    requires forall j | i <= j < |found| :: found[j].Ref() in scope.reserved
    ensures AllRead(b, found, i)
  {
  }

  lemma HeldSurvive(scope: Scope, a: Cluster, b: Cluster, refs: set<NamespacedName>)
    requires Keeps(scope, a, b) && AllHeld(a, refs)
    requires refs <= scope.reserved + scope.pinned
    ensures AllHeld(b, refs)
  {
    forall ref | ref in refs ensures Held(b, ref) {
      assert Held(a, ref);
    }
  }

  // ---------------------------------------------------------------------
  // The readings of a lookup

  /** One read of a registered ObjectSync; a failure leaves no reply. */
  datatype Reading = Reading(ref: NamespacedName, reply: Option<ObjectSync>)

  /** The ObjectSyncs that were read and still name the source. */
  function StillNaming(readings: seq<Reading>, source: NamespacedName): seq<ObjectSync> {
    if readings == [] then []
    else
      var front, reply := StillNaming(readings[..|readings| - 1], source), readings[|readings| - 1].reply;
      if reply.Some? && reply.value.SourceRef() == source then front + [reply.value] else front
  }

  function Asked(readings: seq<Reading>): set<NamespacedName> {
    set r | r in readings :: r.ref
  }

  /** Every registered ObjectSync was asked for, once. */
  ghost predicate Covers(readings: seq<Reading>, refs: set<NamespacedName>) {
    && Asked(readings) == refs
    && (forall i, j | 0 <= i < j < |readings| :: readings[i].ref != readings[j].ref)
  }

  /** Replies carry the name they were asked for. */
  predicate WellNamed(readings: seq<Reading>) {
    forall r | r in readings :: r.reply.Some? ==> r.reply.value.Ref() == r.ref
  }

  /** The record `i` of the log is this read: it failed, or it answered with what was
      stored at its moment. */
  ghost predicate ReadAt(t: Trace, i: nat, r: Reading) {
    && i < |t.log| && i < |t.moments| && t.moments[i] <= |t.run|
    && t.log[i].SawSync? && t.log[i].ref == r.ref && (t.log[i].answer.Accepted? <==> r.reply.Some?)
    && (r.reply.Some? ==>
          var c := Replay(t.run[..t.moments[i]]);
          r.ref in c.syncs && c.syncs[r.ref] == r.reply.value)
  }

  /** The readings are the records of the log from position `from` on. */
  ghost predicate ReadsOf(t: Trace, from: nat, readings: seq<Reading>) {
    forall i | 0 <= i < |readings| :: ReadAt(t, from + i, readings[i])
  }

  lemma ReadsLater(a: Trace, b: Trace, from: nat, readings: seq<Reading>)
    requires ReadsOf(a, from, readings)
    requires a.run <= b.run && a.log <= b.log && a.moments <= b.moments
    ensures ReadsOf(b, from, readings)
  {
    forall i | 0 <= i < |readings| ensures ReadAt(b, from + i, readings[i]) {
      assert ReadAt(a, from + i, readings[i]);
      assert b.run[..a.moments[from + i]] == a.run[..a.moments[from + i]];
    }
  }

  /** One more read. */
  lemma ReadsStep(a: Trace, b: Trace, from: nat, readings: seq<Reading>, r: Reading)
    requires ReadsOf(a, from, readings) && |a.log| == |a.moments| == from + |readings|
    requires a.run <= b.run && a.log <= b.log && a.moments <= b.moments
    requires ReadAt(b, |a.log|, r)
    ensures ReadsOf(b, from, readings + [r])
  {
    ReadsLater(a, b, from, readings);
  }

  lemma AskedStep(readings: seq<Reading>, refs: set<NamespacedName>, todo: set<NamespacedName>, r: Reading)
    requires todo <= refs && r.ref in todo && Covers(readings, refs - todo) && WellNamed(readings)
    requires r.reply.Some? ==> r.reply.value.Ref() == r.ref
    ensures Covers(readings + [r], refs - (todo - {r.ref})) && WellNamed(readings + [r])
  {
    var more := readings + [r];
    forall ref ensures ref in Asked(more) <==> ref in Asked(readings) || ref == r.ref {
      assert r in more;
      if ref in Asked(readings) {
        var x :| x in readings && x.ref == ref;
        assert x in more;
      }
    }
    forall i, j | 0 <= i < j < |more| ensures more[i].ref != more[j].ref {
      if j == |readings| {
        assert readings[i] in readings;
      }
    }
  }

  /** What was found was read and names the source. */
  lemma {:induction false} FoundWasRead(readings: seq<Reading>, source: NamespacedName, o: ObjectSync)
    ensures o in StillNaming(readings, source) <==> Reading(o.Ref(), Some(o)) in readings && o.SourceRef() == source
    requires WellNamed(readings)
  {
    if readings != [] {
      var front, r := readings[..|readings| - 1], readings[|readings| - 1];
      FoundWasRead(front, source, o);
      assert readings == front + [r] && r in readings;
      assert o == r.reply.GetOr(o) && r.reply.Some? ==> r == Reading(o.Ref(), Some(o));
    }
  }

  lemma {:induction false} FoundOnce(readings: seq<Reading>, refs: set<NamespacedName>, source: NamespacedName)
    requires Covers(readings, refs) && WellNamed(readings)
    ensures Lookup(StillNaming(readings, source), refs, source)
  {
    if readings != [] {
      var front, r := readings[..|readings| - 1], readings[|readings| - 1];
      assert readings == front + [r] && r in readings;
      assert r.ref !in Asked(front) by {
        assert forall i | 0 <= i < |front| :: readings[i].ref != readings[|front|].ref;
      }
      FoundOnce(front, Asked(front), source);
      assert Asked(front) <= refs by {
        forall ref | ref in Asked(front) ensures ref in refs {
          var x :| x in front && x.ref == ref;
          assert x in readings;
        }
      }
    }
  }

  /** The finalizers and status of what was found still are as read. */
  lemma {:induction false} FoundAsRead(c: Cluster, readings: seq<Reading>, source: NamespacedName)
    requires forall r | r in readings && r.reply.Some? :: UpToDateRead(c, r.reply.value)
    ensures AllRead(c, StillNaming(readings, source), 0)
  {
    if readings != [] {
      FoundAsRead(c, readings[..|readings| - 1], source);
      assert readings[|readings| - 1] in readings;
    }
  }

  /** Every read answered with the ObjectSync as it is in `c`. */
  ghost predicate AllAnswered(c: Cluster, readings: seq<Reading>) {
    forall r | r in readings :: r.ref in c.syncs && r.reply == Some(c.syncs[r.ref])
  }

  /** When every read is answered, nobody who names the source is missed. */
  lemma AnsweredMissesNone(c: Cluster, readings: seq<Reading>, refs: set<NamespacedName>, source: NamespacedName)
    requires AllAnswered(c, readings) && Covers(readings, refs) && WellNamed(readings)
    ensures NoneMissed(c, StillNaming(readings, source), refs, source)
  {
    var found := StillNaming(readings, source);
    forall ref | ref in refs && ref in c.syncs && c.syncs[ref].SourceRef() == source ensures Has(found, ref) {
      var r :| r in readings && r.ref == ref;
      FoundWasRead(readings, source, c.syncs[ref]);
      var j :| 0 <= j < |found| && found[j] == c.syncs[ref];
    }
  }

  /** Read one ObjectSync. Failures are swallowed. */
  method GetObjectSync(server: ApiServer, scope: Scope, ref: NamespacedName) returns (r: Option<ObjectSync>)
    requires server.Valid() && Held(server.cluster, ref) && ref in scope.reserved
    modifies server
    ensures server.Advanced(scope) && Held(server.cluster, ref)
    ensures r.Some? ==> r.value.Ref() == ref && UpToDateRead(server.cluster, r.value)
    ensures |server.log| == |old(server.log)| + 1 && ReadAt(server.Past(), |old(server.log)|, Reading(ref, r))
    ensures server.writes == old(server.writes) && server.issued == old(server.issued)
    ensures server.Alone() ==> server.cluster == old(server.cluster)
    ensures server.Calm() ==> ref in server.cluster.syncs && r == Some(server.cluster.syncs[ref])
  {
    server.IsLogged();
    var reply := server.GetSync(scope, ref);
    server.IsSound();
    server.IsReplayed();
    r := if reply.Ok? then Some(reply.value) else None;
  }

  /** What a lookup did: one read for each registered ObjectSync, and what they found. */
  ghost predicate LookedUp(t0: Trace, t: Trace, readings: seq<Reading>, found: seq<ObjectSync>, refs: set<NamespacedName>,
                           source: NamespacedName) {
    && Covers(readings, refs) && WellNamed(readings)
    && ReadsOf(t, |t0.log|, readings)
    && found == StillNaming(readings, source)
  }

  /** The lookup with `todo` still to be asked for. */
  ghost predicate Asking(t0: Trace, t: Trace, c: Cluster, readings: seq<Reading>, found: seq<ObjectSync>,
                         refs: set<NamespacedName>, source: NamespacedName, calm: bool) {
    forall i: int {:trigger Unfold(i)} :: Unfold(i) ==> AskedSoFar(i, t0, t, c, readings, found, refs, source, calm)
  }

  ghost predicate AskedSoFar(i: int, t0: Trace, t: Trace, c: Cluster, readings: seq<Reading>, found: seq<ObjectSync>,
                         refs: set<NamespacedName>, source: NamespacedName, calm: bool) {
    && LookedUp(t0, t, readings, found, refs, source)
    && |t.log| == |t0.log| + |readings|
    && AnswersCurrent(c, readings)
    && (calm ==> AllAnswered(c, readings))
  }

  lemma AskingStart(t: Trace, c: Cluster, source: NamespacedName)
    ensures Asking(t, t, c, [], [], {}, source, true)
  {
  }

  lemma AskingStep(scope: Scope, t0: Trace, a: Trace, b: Trace, ca: Cluster, cb: Cluster, readings: seq<Reading>,
                   found: seq<ObjectSync>,
                   refs: set<NamespacedName>, todo: set<NamespacedName>, source: NamespacedName, wasCalm: bool, calm: bool, r: Reading)
    requires Asking(t0, a, ca, readings, found, refs - todo, source, wasCalm)
    requires Keeps(scope, ca, cb) && todo <= refs <= scope.reserved && r.ref in todo
    requires |a.moments| == |a.log|
    requires a.run <= b.run && a.log <= b.log && a.moments <= b.moments && |b.log| == |a.log| + 1
    requires ReadAt(b, |a.log|, r)
    requires r.reply.Some? ==> r.reply.value.Ref() == r.ref && UpToDateRead(cb, r.reply.value)
    requires calm ==> wasCalm && cb == ca && r.ref in cb.syncs && r.reply == Some(cb.syncs[r.ref])
    ensures
      var found' := if r.reply.Some? && r.reply.value.SourceRef() == source then found + [r.reply.value] else found;
      Asking(t0, b, cb, readings + [r], found', refs - (todo - {r.ref}), source, calm)
  {
    assert AskedSoFar(0, t0, a, ca, readings, found, refs - todo, source, wasCalm) by { assert Unfold(0); }
    assert (readings + [r])[..|readings|] == readings;
    AskedStep(readings, refs, todo, r);
    ReadsStep(a, b, |t0.log|, readings, r);
    AnswersStep(scope, ca, cb, refs, readings, r);
  }

  lemma AskingDone(t0: Trace, t: Trace, c: Cluster, readings: seq<Reading>, found: seq<ObjectSync>,
                   refs: set<NamespacedName>, source: NamespacedName, calm: bool)
    requires Asking(t0, t, c, readings, found, refs, source, calm)
    ensures LookedUp(t0, t, readings, found, refs, source) && |t.log| == |t0.log| + |readings|
    ensures Lookup(found, refs, source) && AllRead(c, found, 0)
    ensures calm ==> AllAnswered(c, readings) && NoneMissed(c, found, refs, source)
  {
    assert AskedSoFar(0, t0, t, c, readings, found, refs, source, calm) by { assert Unfold(0); }
    FoundOnce(readings, refs, source);
    FoundAsRead(c, readings, source);
    if calm { AnsweredMissesNone(c, readings, refs, source); }
  }

  /** Ask for one more ObjectSync. */
  method AskNext(server: ApiServer, scope: Scope, ref: NamespacedName, so: seq<ObjectSync>, source: NamespacedName,
                 ghost t0: Trace, ghost readings: seq<Reading>, ghost refs: set<NamespacedName>, ghost todo: set<NamespacedName>,
                 ghost calm: bool)
    returns (found: seq<ObjectSync>, ghost r: Reading)
    requires server.Valid() && AllHeld(server.cluster, refs) && ref in todo && todo <= refs <= scope.reserved
    requires Asking(t0, server.Past(), server.cluster, readings, so, refs - todo, source, calm)
    modifies server
    ensures server.Advanced(scope) && AllHeld(server.cluster, refs)
    ensures Asking(t0, server.Past(), server.cluster, readings + [r], found, refs - (todo - {ref}), source, calm && server.Calm())
    ensures server.writes == old(server.writes) && server.issued == old(server.issued)
    ensures server.Alone() ==> server.cluster == old(server.cluster)
  {
    ghost var c, t := server.cluster, server.Past();
    server.IsLogged();
    var o := GetObjectSync(server, scope, ref);
    r := Reading(ref, o);
    HeldSurvive(scope, c, server.cluster, refs);
    AskingStep(scope, t0, t, server.Past(), c, server.cluster, readings, so, refs, todo, source, calm, calm && server.Calm(), r);
    found := if o.Some? && o.value.SourceRef() == source then so + [o.value] else so;
  }

  /** Read the registered ObjectSyncs, in any order. */
  method LookupObjectSyncs(server: ApiServer, scope: Scope, refs: set<NamespacedName>, source: NamespacedName)
    returns (found: seq<ObjectSync>, ghost readings: seq<Reading>)
    requires server.Valid() && refs <= scope.reserved && AllHeld(server.cluster, refs)
    modifies server
    ensures server.Advanced(scope)
    ensures LookedUp(old(server.Past()), server.Past(), readings, found, refs, source)
    ensures |server.log| == |old(server.log)| + |readings|
    ensures Lookup(found, refs, source) && AllRead(server.cluster, found, 0) && AllHeld(server.cluster, refs)
    ensures server.writes == old(server.writes) && server.issued == old(server.issued)
    ensures server.Alone() ==> server.cluster == old(server.cluster)
    // A failed read is swallowed; without one, none is missed.
    ensures server.Calm() ==> AllAnswered(server.cluster, readings) && NoneMissed(server.cluster, found, refs, source)
  {
    found, readings := [], [];
    var todo := refs;
    ghost var t0 := server.Past();
    AskingStart(t0, server.cluster, source);
    assert refs - todo == {};
    while todo != {}
      invariant todo <= refs
      invariant server.Advanced(scope) && AllHeld(server.cluster, refs)
      invariant Asking(t0, server.Past(), server.cluster, readings, found, refs - todo, source, server.Calm())
      invariant server.writes == old(server.writes) && server.issued == old(server.issued)
      invariant server.Alone() ==> server.cluster == old(server.cluster)
      decreases todo
    {
      var ref :| ref in todo;
      ghost var c, r := server.cluster, *;
      found, r := AskNext(server, scope, ref, found, source, t0, readings, refs, todo, server.Calm());
      KeepsTransitive(scope, old(server.cluster), c, server.cluster);
      readings := readings + [r];
      todo := todo - {ref};
    }
    assert refs - todo == refs;
    AskingDone(t0, server.Past(), server.cluster, readings, found, refs, source, server.Calm());
  }

  ghost predicate AnswersCurrent(c: Cluster, readings: seq<Reading>) {
    forall r | r in readings && r.reply.Some? :: UpToDateRead(c, r.reply.value)
  }

  lemma AnswersStep(scope: Scope, a: Cluster, b: Cluster, refs: set<NamespacedName>, readings: seq<Reading>, r: Reading)
    requires AnswersCurrent(a, readings) && Keeps(scope, a, b) && refs <= scope.reserved
    requires Asked(readings) <= refs && WellNamed(readings)
    requires r.reply.Some? ==> UpToDateRead(b, r.reply.value)
    ensures AnswersCurrent(b, readings + [r])
  {
    forall x | x in readings + [r] && x.reply.Some? ensures UpToDateRead(b, x.reply.value) {
      if x in readings {
        assert x.ref in Asked(readings) && Kept(x.ref, a, b);
      }
    }
  }
}
