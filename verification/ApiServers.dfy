/** The API server as the controller meets it: before any call other actors may
    have acted, a call may fail, and a failed call may still have taken effect. */
module ApiServers {
  import opened Common
  import opened Apis
  import opened ClusterModel
  import opened Interference
  import opened Runs

  datatype Answer = Accepted | Rejected(error: ApiError)

  /** One own API call as the log of a reconcile records it. */
  datatype Record =
    | Saw(key: Key, seen: Option<Revision>, answer: Answer)
    | SawSync(ref: NamespacedName, answer: Answer)
    | Issued(call: Call, answer: Answer)

  predicate WritesObject(call: Call) {
    call.Create? || call.Replace? || call.ApplyPatch?
  }

  /** Calls that cannot break what anyone relies on. */
  predicate Harmless(call: Call) {
    call.AddFinalizer? || call.SetFinalizers? || call.Delete?
  }

  /** The revision a write replaces; none if it has to find nothing. */
  function Replaced(call: Call): Option<Revision>
    requires WritesObject(call)
  {
    if call.Create? then None else Some(call.expected)
  }

  function ReadOf(key: Key, seen: Option<Revision>): Record {
    Saw(key, seen, if seen.Some? then Accepted else Rejected(NotFound))
  }

  /** The log ends with the read of `key` that saw `seen`, with at most a refused
      finalizer removal on the same object after it. */
  predicate JustRead(log: seq<Record>, key: Key, seen: Option<Revision>) {
    var n := |log|;
    || (n > 0 && log[n - 1] == ReadOf(key, seen))
    || (n > 1 && log[n - 2] == ReadOf(key, seen) && log[n - 1].Issued?
        && log[n - 1].call.SetFinalizers? && log[n - 1].call.key == key && log[n - 1].answer.Rejected?)
  }

  predicate Informed(log: seq<Record>, call: Call) {
    WritesObject(call) ==> JustRead(log, call.key, Replaced(call))
  }

  /** Compare-and-swap discipline: no destination is ever written blindly. */
  ghost predicate NeverBlind(log: seq<Record>) {
    log == [] ||
    (var front, r := log[..|log| - 1], log[|log| - 1];
     NeverBlind(front) && (r.Issued? ==> Informed(front, r.call)))
  }

  lemma {:induction false} RecordIsInformed(log: seq<Record>, i: nat)
    requires NeverBlind(log) && i < |log| && log[i].Issued?
    ensures Informed(log[..i], log[i].call)
  {
    if i < |log| - 1 {
      var front := log[..|log| - 1];
      assert front[i] == log[i] && front[..i] == log[..i];
      RecordIsInformed(front, i);
    }
  }

  /** The calls issued, as often as they were. */
  ghost function CallsOf(log: seq<Record>): multiset<Call> {
    if log == [] then multiset{}
    else
      var front, r := CallsOf(log[..|log| - 1]), log[|log| - 1];
      if r.Issued? then front + multiset{r.call} else front
  }

  lemma {:induction false} CallsOfConcat(a: seq<Record>, b: seq<Record>)
    ensures CallsOf(a + b) == CallsOf(a) + CallsOf(b)
  {
    if b == [] {
      assert a + b == a;
    } else {
      assert (a + b)[..|a + b| - 1] == a + b[..|b| - 1];
      CallsOfConcat(a, b[..|b| - 1]);
    }
  }

  lemma {:induction false} IssuedIsCounted(log: seq<Record>, i: nat)
    requires i < |log| && log[i].Issued?
    ensures log[i].call in CallsOf(log)
  {
    if i < |log| - 1 {
      assert log[..|log| - 1][i] == log[i];
      IssuedIsCounted(log[..|log| - 1], i);
    }
  }

  /** Object writes hit only keys in `written`, deletions and finalizer patches of
      objects only keys in `touched`. */
  predicate Within(call: Call, touched: set<Key>, written: set<Key>) {
    && (WritesObject(call) ==> call.key in written)
    && (Harmless(call) ==> call.key in touched)
  }

  /** The log and the run tell the same story: a record knows how long the run was
      when its call was answered, and each call of ours that the run holds is the one
      recorded at its place. */
  ghost predicate OwnLogged(run: Run, log: seq<Record>, moments: seq<nat>) {
    && |moments| == |log|
    && (forall i | 0 <= i < |moments| :: moments[i] <= |run|)
    && (forall i, j | 0 <= i < j < |moments| :: moments[i] <= moments[j])
    && (forall j | 0 <= j < |run| && run[j].Controller? && run[j].own :: LoggedAt(run[j].call, log, moments, j))
  }

  ghost predicate LoggedAt(call: Call, log: seq<Record>, moments: seq<nat>, j: nat) {
    exists i | 0 <= i < |log| && i < |moments| :: moments[i] == j && log[i].Issued? && log[i].call == call
  }

  lemma LoggedMore(call: Call, log: seq<Record>, moments: seq<nat>, j: nat, r: Record, m: nat)
    requires |moments| == |log| && LoggedAt(call, log, moments, j)
    ensures LoggedAt(call, log + [r], moments + [m], j)
  {
    var i :| 0 <= i < |log| && moments[i] == j && log[i].Issued? && log[i].call == call;
    assert (log + [r])[i] == log[i] && (moments + [m])[i] == j;
  }

  lemma NoteKeepsLogged(run: Run, log: seq<Record>, moments: seq<nat>, r: Record)
    requires OwnLogged(run, log, moments)
    ensures OwnLogged(run, log + [r], moments + [|run|])
  {
    forall j | 0 <= j < |run| && run[j].Controller? && run[j].own
      ensures LoggedAt(run[j].call, log + [r], moments + [|run|], j)
    {
      LoggedMore(run[j].call, log, moments, j, r, |run|);
    }
  }

  lemma ActionKeepsLogged(run: Run, log: seq<Record>, moments: seq<nat>, a: Action)
    requires OwnLogged(run, log, moments)
    requires a.Controller? && a.own ==>
               log != [] && log[|log| - 1].Issued? && log[|log| - 1].call == a.call && moments[|log| - 1] == |run|
    ensures OwnLogged(run + [a], log, moments)
  {
    var run' := run + [a];
    forall j | 0 <= j < |run'| && run'[j].Controller? && run'[j].own ensures LoggedAt(run'[j].call, log, moments, j) {
      if j < |run| {
        assert run'[j] == run[j];
      } else {
        assert moments[|log| - 1] == j;
      }
    }
  }

  datatype Fate = Normal | Refuse(error: ApiError) | LoseReply

  /** The answer of a server that neither fails nor loses anything. */
  function Verdict(call: Call, c: Cluster): Answer {
    if Enabled(call, c) then Accepted
    else match call
      case Create(_, _, _, _) => Rejected(Conflict)
      case Replace(k, _, _, _, _) => Rejected(if k in c.objects then Conflict else NotFound)
      case ApplyPatch(_, _, _, _, _, _) => Rejected(Conflict)
      case PutStatus(ref, _, _, _) => Rejected(if ref in c.syncs then Conflict else NotFound)
      case _ => Rejected(NotFound)
  }

  /** The server may refuse to put our finalizer onto a terminating object. */
  predicate Refusable(call: Call, c: Cluster) {
    (call.Replace? || call.ApplyPatch?) && call.key in c.objects && c.objects[call.key].terminating
  }

  lemma LogMore(log: seq<Record>, r: Record)
    requires NeverBlind(log)
    requires r.Issued? ==> Informed(log, r.call)
    ensures NeverBlind(log + [r])
  {
    assert (log + [r])[..|log|] == log;
  }

  /** How a call may turn out in a given state: the answer, whether the call was
      carried out, and whether something went wrong. */
  method Respond(call: Call, c: Cluster) returns (answer: Answer, delivered: bool, fault: bool)
    ensures delivered ==> Enabled(call, c)
    ensures answer.Accepted? ==> delivered
    ensures answer.Rejected? && delivered ==> answer.error.Other?
    ensures call.Delete? && answer == Rejected(NotFound) ==> call.key !in c.objects
    ensures !fault && !Refusable(call, c) ==> answer == Verdict(call, c)
  {
    var fate: Fate := *;
    var refused: bool := *;
    delivered, fault := false, false;
    if fate.Refuse? && !(call.Delete? && fate.error.NotFound? && call.key in c.objects) {
      answer, fault := Rejected(fate.error), true;
    } else if fate.LoseReply? {
      answer, delivered, fault := Rejected(Other), Enabled(call, c), true;
    } else if Refusable(call, c) && refused {
      answer := Rejected(Other);
    } else {
      answer, delivered := Verdict(call, c), Enabled(call, c);
    }
  }

  /** A stretch of the run: whether others left us alone, whether it was calm, that
      is, nothing failed either, whether we wrote nothing, where it led, which calls
      had been issued before and after, and the log before and after. */
  datatype Stretch = Stretch(alone: bool, calm: bool, idle: bool, start: Cluster, end: Cluster,
                             before: multiset<Call>, after: multiset<Call>,
                             logBefore: seq<Record>, logAfter: seq<Record>)

  /** `s` is `a` followed by `b`. */
  ghost predicate Joined(a: Stretch, b: Stretch, s: Stretch) {
    && s.start == a.start && a.end == b.start && s.end == b.end
    && s.before == a.before && a.after == b.before && s.after == b.after
    && s.logBefore == a.logBefore && a.logAfter == b.logBefore && s.logAfter == b.logAfter
    && (s.alone ==> a.alone && b.alone)
    && (s.calm ==> s.alone && a.calm && b.calm)
    && (s.idle <==> a.idle && b.idle)
  }

  // What a stretch of the log tells about failures.

  /** A read of the object that failed. */
  predicate Unread(r: Record, key: Key) {
    r.Saw? && r.key == key && r.answer.Rejected? && !r.answer.error.NotFound?
  }

  /** A deletion of the object that was refused, or whose reply was lost. */
  predicate Refusal(r: Record, key: Key) {
    r.Issued? && r.call == Delete(key) && r.answer.Rejected? && !r.answer.error.NotFound?
  }

  /** A read or a status write of the ObjectSync that failed. */
  predicate Unstored(r: Record, ref: NamespacedName) {
    match r
    case Saw(_, _, _) => false
    case SawSync(x, answer) => x == ref && answer.Rejected?
    case Issued(call, answer) => call.PutStatus? && call.ref == ref && answer.Rejected?
  }

  ghost predicate Refused(s: Stretch, key: Key) {
    exists i | |s.logBefore| <= i < |s.logAfter| :: Refusal(s.logAfter[i], key)
  }

  /** The stretch ends with a failed read of one of the objects. */
  ghost predicate EndsUnread(s: Stretch, keys: set<Key>) {
    s.logBefore < s.logAfter && exists k | k in keys :: Unread(s.logAfter[|s.logAfter| - 1], k)
  }

  /** The stretch ends with a failed read or status write of the ObjectSync. */
  ghost predicate EndsUnstored(s: Stretch, ref: NamespacedName) {
    s.logBefore < s.logAfter && Unstored(s.logAfter[|s.logAfter| - 1], ref)
  }

  /** The error is that of the last call. */
  predicate LastFailedAs(log: seq<Record>, error: ControllerError) {
    log != [] && error.KubeApi? && log[|log| - 1].answer == Rejected(error.error)
  }

  lemma RefusedStays(a: Stretch, b: Stretch, s: Stretch, key: Key)
    requires Joined(a, b, s) && b.logBefore <= b.logAfter && Refused(a, key)
    ensures Refused(s, key)
  {
    var i :| |a.logBefore| <= i < |a.logAfter| && Refusal(a.logAfter[i], key);
    assert s.logAfter[i] == a.logAfter[i];
  }

  lemma RefusedLast(a: Stretch, b: Stretch, s: Stretch, key: Key)
    requires Joined(a, b, s) && a.logBefore <= a.logAfter && b.logBefore < b.logAfter
    requires Refusal(b.logAfter[|b.logAfter| - 1], key)
    ensures Refused(s, key)
  {
    assert Refusal(s.logAfter[|s.logAfter| - 1], key);
  }

  /** Of the calls issued between two points, object writes hit only keys in `written`,
      deletions and finalizer patches of objects only keys in `touched`. */
  ghost predicate Confined(before: multiset<Call>, after: multiset<Call>, touched: set<Key>, written: set<Key>) {
    forall i: int {:trigger Unseal(i)} :: Unseal(i) ==> ConfinedCalls(i, before, after, touched, written)
  }

  ghost predicate ConfinedCalls(i: int, before: multiset<Call>, after: multiset<Call>, touched: set<Key>,
                                written: set<Key>) {
    forall call: Call :: after[call] != before[call] ==> Within(call, touched, written)
  }

  lemma ConfinedNone(a: multiset<Call>, touched: set<Key>, written: set<Key>)
    ensures Confined(a, a, touched, written)
  {
  }

  lemma ConfinedOne(a: multiset<Call>, call: Call, touched: set<Key>, written: set<Key>)
    requires Within(call, touched, written)
    ensures Confined(a, a + multiset{call}, touched, written)
  {
  }

  lemma ConfinedTransitive(a: multiset<Call>, b: multiset<Call>, c: multiset<Call>, touched: set<Key>, written: set<Key>)
    requires Confined(a, b, touched, written) && Confined(b, c, touched, written)
    ensures Confined(a, c, touched, written)
  {
    assert Unseal(0);
  }

  lemma ConfinedWider(a: multiset<Call>, b: multiset<Call>, touched: set<Key>, written: set<Key>,
                      touched': set<Key>, written': set<Key>)
    requires Confined(a, b, touched, written) && touched <= touched' && written <= written'
    ensures Confined(a, b, touched', written')
  {
    assert Unseal(0);
  }

  lemma ConfinedHere(a: multiset<Call>, b: multiset<Call>, touched: set<Key>, written: set<Key>, call: Call)
    requires Confined(a, b, touched, written) && a[call] != b[call]
    ensures Within(call, touched, written)
  {
    assert Unseal(0);
  }

  lemma MoreIsIssued(a: seq<Record>, b: seq<Record>, i: nat)
    requires a <= b && |a| <= i < |b| && b[i].Issued?
    ensures CallsOf(b)[b[i].call] != CallsOf(a)[b[i].call]
  {
    var more, call := b[|a|..], b[i].call;
    assert b == a + more && more[i - |a|] == b[i];
    CallsOfConcat(a, more);
    IssuedIsCounted(more, i - |a|);
    var was, added := CallsOf(a), CallsOf(more);
    assert (was + added)[call] == was[call] + added[call];
  }

  /** What confines a stretch confines every record of it. */
  lemma RecordsConfined(a: seq<Record>, b: seq<Record>, touched: set<Key>, written: set<Key>)
    requires a <= b && Confined(CallsOf(a), CallsOf(b), touched, written)
    ensures forall i | |a| <= i < |b| && b[i].Issued? :: Within(b[i].call, touched, written)
  {
    forall i | |a| <= i < |b| && b[i].Issued? ensures Within(b[i].call, touched, written) {
      MoreIsIssued(a, b, i);
      ConfinedHere(CallsOf(a), CallsOf(b), touched, written, b[i].call);
    }
  }

  ghost predicate Recorded(i: int, run: Run, c: Cluster, log: seq<Record>, moments: seq<nat>, issued: multiset<Call>,
                           writes: nat) {
    && Legal(run) && c == Replay(run) && NeverBlind(log)
    && OwnLogged(run, log, moments)
    && issued == CallsOf(log) && writes == |issued|
  }

  /** A past: the run, the log, how long the run was at each record, and how often
      others acted and calls failed. */
  datatype Trace = Trace(run: Run, log: seq<Record>, moments: seq<nat>, meddling: nat, faults: nat)

  /** A point of a past, by the lengths of run and log and by the two counts. */
  datatype Mark = Mark(run: nat, logged: nat, meddling: nat, faults: nat)

  function Present(t: Trace): Mark {
    Mark(|t.run|, |t.log|, t.meddling, t.faults)
  }

  /** One point is not after another. */
  predicate NotAfter(a: Mark, b: Mark) {
    a.run <= b.run && a.logged <= b.logged && a.meddling <= b.meddling && a.faults <= b.faults
  }

  /** After `n` actions of the run the state was `c`. */
  ghost predicate At(t: Trace, n: nat, c: Cluster) {
    n <= |t.run| && Replay(t.run[..n]) == c
  }

  /** `b` continues `a`; what it adds to the log was recorded after the run of `a`. */
  ghost predicate Later(a: Trace, b: Trace) {
    && a.run <= b.run && a.log <= b.log && a.moments <= b.moments
    && |a.moments| == |a.log| && |b.moments| == |b.log|
    && (forall i | |a.log| <= i < |b.log| :: |a.run| <= b.moments[i] <= |b.run|)
  }

  lemma LaterOf(a: Trace, b: Trace)
    requires a.run <= b.run && a.log <= b.log && a.moments <= b.moments
    requires |a.moments| == |a.log| && |b.moments| == |b.log|
    requires |a.moments| < |b.moments| ==> |a.run| <= b.moments[|a.moments|]
    requires forall i, j | 0 <= i < j < |b.moments| :: b.moments[i] <= b.moments[j]
    requires forall i | 0 <= i < |b.moments| :: b.moments[i] <= |b.run|
    ensures Later(a, b)
  {
  }

  lemma AtLater(a: Trace, b: Trace, n: nat, c: Cluster)
    requires At(a, n, c) && a.run <= b.run
    ensures At(b, n, c)
  {
    assert b.run[..n] == a.run[..n];
  }

  /** The last record of the log was made when the state was `c`. */
  ghost predicate AnsweredIn(t: Trace, c: Cluster) {
    forall i: int {:trigger Unseal(i)} :: Unseal(i) ==> AnsweredAt(i, t, c)
  }

  ghost predicate AnsweredAt(i: int, t: Trace, c: Cluster) {
    |t.moments| == |t.log| > 0 && At(t, t.moments[|t.log| - 1], c)
  }

  /** `c` is what applying the finalizer, by the record at position `m`, made of the state then. */
  ghost predicate AppliedTo(t: Trace, m: int, c: Cluster, key: Key, finalizer: string) {
    && 0 <= m < |t.moments| && t.moments[m] <= |t.run|
    && c == Effect(AddFinalizer(key, finalizer), Replay(t.run[..t.moments[m]]))
  }

  lemma AppliedLater(a: Trace, b: Trace, m: int, c: Cluster, key: Key, finalizer: string)
    requires AppliedTo(a, m, c, key, finalizer) && a.run <= b.run && a.moments <= b.moments
    ensures AppliedTo(b, m, c, key, finalizer)
  {
    assert b.run[..b.moments[m]] == a.run[..a.moments[m]];
  }

  lemma AnsweredNow(t: Trace, c: Cluster)
    requires |t.moments| == |t.log| > 0 && t.moments[|t.log| - 1] == |t.run| && Replay(t.run) == c
    ensures AnsweredIn(t, c)
  {
    assert t.run[..|t.run|] == t.run;
  }

  lemma AnsweredLater(a: Trace, b: Trace, c: Cluster)
    requires AnsweredIn(a, c) && a.run <= b.run && a.log == b.log && a.moments == b.moments
    ensures AnsweredIn(b, c)
  {
    assert AnsweredAt(0, a, c) by { assert Unseal(0); }
    AtLater(a, b, a.moments[|a.log| - 1], c);
  }

  class ApiServer {
    var cluster: Cluster
    /** Every action so far, ours and the others'. */
    ghost var run: Run
    /** Our own calls and what they answered, how long the run was each time, and
        the calls that were no reads, as a whole and in number. */
    ghost var log: seq<Record>
    ghost var moments: seq<nat>
    ghost var issued: multiset<Call>
    ghost var writes: nat
    /** How often others acted between our calls, and how often a call failed
        that a faultless server would have answered differently. */
    ghost var meddling: nat
    ghost var faults: nat

    /** The state is what the recorded run led to, every controller call of it met
        its guard, no write was blind, and the log has all our calls of the run. */
    ghost predicate Valid()
      reads this
    {
      forall i: int {:trigger Unfold(i)} :: Unfold(i) ==> Recorded(i, run, cluster, log, moments, issued, writes)
    }

    constructor ()
      ensures Valid() && cluster == EMPTY && Past() == Trace([], [], [], 0, 0)
    {
      cluster := EMPTY;
      run, log, moments := [], [], [];
      issued, writes := multiset{}, 0;
      meddling, faults := 0, 0;
    }

    /** What every call, and every composition of calls, leaves true. */
    twostate predicate Advanced(scope: Scope)
      reads this
    {
      && Valid()
      && old(run) <= run
      && old(log) <= log
      && old(moments) <= moments
      && (|old(moments)| < |moments| ==> |old(run)| <= moments[|old(moments)|])
      && old(writes) <= writes
      && old(meddling) <= meddling
      && old(faults) <= faults
      && Keeps(scope, old(cluster), cluster)
    }

    /** Nobody else acted. */
    twostate predicate Alone()
      reads this
    {
      meddling == old(meddling)
    }

    /** Nobody else acted and nothing failed. */
    twostate predicate Calm()
      reads this
    {
      meddling == old(meddling) && faults == old(faults)
    }

    twostate function Since(): Stretch
      reads this
    {
      Stretch(Alone(), Calm(), writes == old(writes), old(cluster), cluster, old(issued), issued, old(log), log)
    }

    lemma IsSound()
      requires Valid()
      ensures Sound(cluster)
    {
      assert Unfold(0);
      LegalRunIsSound(run);
    }

    /** The state is a point of the run, namely its present end. */
    lemma IsReplayed()
      requires Valid()
      ensures cluster == Replay(run) && Replay(run[..|run|]) == cluster && |moments| == |log|
    {
      assert Unfold(0);
      assert run[..|run|] == run;
    }

    /** Compare-and-swap: every write of a destination that the run holds of ours comes
        right after the read that entitles to it, so that what it replaces, or finds
        absent, is what that read saw. */
    lemma EveryWriteIsInformed(j: nat) returns (i: nat)
      requires Valid() && j < |run| && run[j].Controller? && run[j].own && WritesObject(run[j].call)
      ensures i < |log| == |moments| && moments[i] == j && log[i].Issued? && log[i].call == run[j].call
      ensures JustRead(log[..i], run[j].call.key, Replaced(run[j].call))
      ensures
        var objects, key := Replay(run[..j]).objects, run[j].call.key;
        Replay(run[..j + 1]) != Replay(run[..j]) ==>
          if run[j].call.Create? then key !in objects
          else key in objects && run[j].call.expected == Apis.Revision.Revision(objects[key].uid, objects[key].version)
    {
      assert Unfold(0);
      assert run[..j + 1][..j] == run[..j];
      assert Replay(run[..j + 1]) == Act(run[j], Replay(run[..j]));
      assert LoggedAt(run[j].call, log, moments, j);
      i :| 0 <= i < |log| && moments[i] == j && log[i].Issued? && log[i].call == run[j].call;
      RecordIsInformed(log, i);
    }

    /** Books and log agree, and the moments of the records never decrease. */
    lemma IsLogged()
      requires Valid()
      ensures issued == CallsOf(log) && |moments| == |log|
      ensures forall i, j | 0 <= i < j < |moments| :: moments[i] <= moments[j]
      ensures forall i | 0 <= i < |moments| :: moments[i] <= |run|
    {
      assert Unfold(0);
    }

    /** All that has happened so far. */
    ghost function Past(): Trace
      reads this
    {
      Trace(run, log, moments, meddling, faults)
    }

    ghost method Note(r: Record)
      requires Valid() && (r.Issued? ==> Informed(log, r.call))
      modifies this`log, this`moments, this`issued, this`writes
      ensures Valid() && log == old(log) + [r] && moments == old(moments) + [|run|]
      ensures issued == old(issued) + if r.Issued? then multiset{r.call} else multiset{}
      ensures writes == old(writes) + if r.Issued? then 1 else 0
    {
      assert Unfold(0);
      LogMore(log, r);
      NoteKeepsLogged(run, log, moments, r);
      assert (log + [r])[..|log|] == log;
      log := log + [r];
      moments := moments + [|run|];
      issued := issued + if r.Issued? then multiset{r.call} else multiset{};
      writes := writes + if r.Issued? then 1 else 0;
    }

    /** The log still tells the story of the run after one more action. */
    lemma Continue(a: Action)
      requires Valid() && (a.Controller? ==> Permitted(a.actor, a.call, cluster))
      requires a.Controller? && a.own ==>
                 log != [] && log[|log| - 1].Issued? && log[|log| - 1].call == a.call
                 && |moments| == |log| && moments[|log| - 1] == |run|
      ensures Recorded(0, run + [a], Act(a, cluster), log, moments, issued, writes)
    {
      assert Unfold(0);
      ExtendRun(run, a);
      ActionKeepsLogged(run, log, moments, a);
    }

    method Interfere(scope: Scope)
      requires Valid()
      modifies this`cluster, this`run, this`meddling
      ensures Advanced(scope)
      ensures Alone() ==> cluster == old(cluster) && run == old(run)
    {
      var n: nat := *;
      while n > 0
        invariant Advanced(scope)
        invariant Alone() ==> cluster == old(cluster) && run == old(run)
      {
        var a: Action := *;
        if Tolerated(scope, a, cluster) {
          IsSound();
          ToleratedKeeps(scope, a, cluster);
          KeepsTransitive(scope, old(cluster), cluster, Act(a, cluster));
          Continue(a);
          cluster := Act(a, cluster);
          run := run + [a];
          meddling := meddling + 1;
        }
        n := n - 1;
      }
    }

    /** Read an object. */
    method Get(scope: Scope, key: Key) returns (reply: Reply<Object>)
      requires Valid()
      modifies this
      ensures Advanced(scope)
      ensures reply.Ok? ==> key in cluster.objects && reply.value == cluster.objects[key]
      ensures log == old(log) + [Saw(key, if reply.Ok? then Some(reply.value.Revision()) else None, AnswerOf(reply))]
      ensures Alone() ==> cluster == old(cluster)
      ensures Calm() && reply.Err? ==> reply.error.NotFound? && key !in cluster.objects
      ensures writes == old(writes) && issued == old(issued)
    {
      Interfere(scope);
      var fate: Fate := *;
      if fate.Refuse? {
        faults := faults + 1;
        reply := Err(fate.error);
      } else if key in cluster.objects {
        reply := Ok(cluster.objects[key]);
      } else {
        reply := Err(NotFound);
      }
      Note(Saw(key, if reply.Ok? then Some(reply.value.Revision()) else None, AnswerOf(reply)));
    }

    /** Read an ObjectSync. */
    method GetSync(scope: Scope, ref: NamespacedName) returns (reply: Reply<ObjectSync>)
      requires Valid()
      modifies this
      ensures Advanced(scope)
      ensures reply.Ok? ==> ref in cluster.syncs && reply.value == cluster.syncs[ref]
      ensures log == old(log) + [SawSync(ref, AnswerOf(reply))]
      ensures moments == old(moments) + [|run|]
      ensures Alone() ==> cluster == old(cluster)
      ensures Calm() ==> (reply.Ok? <==> ref in cluster.syncs)
      ensures writes == old(writes) && issued == old(issued)
    {
      Interfere(scope);
      var fate: Fate := *;
      if fate.Refuse? {
        faults := faults + 1;
        reply := Err(fate.error);
      } else if ref in cluster.syncs {
        reply := Ok(cluster.syncs[ref]);
      } else {
        reply := Err(NotFound);
      }
      Note(SawSync(ref, AnswerOf(reply)));
    }

    /** A call reaches the server, where its guard still holds. */
    method Arrive(scope: Scope, actor: NamespacedName, call: Call)
      requires Valid() && Permitted(actor, call, cluster)
      requires actor in scope.reserved || Harmless(call)
      modifies this`cluster, this`run, this`meddling
      ensures Advanced(scope)
      ensures Sound(cluster) && Permitted(actor, call, cluster)
      ensures Alone() ==> cluster == old(cluster)
    {
      Interfere(scope);
      if !Harmless(call) {
        PermittedIsStable(actor, call, old(cluster), cluster);
      }
      IsSound();
    }

    /** The server carries the call out. */
    method Deliver(scope: Scope, actor: NamespacedName, call: Call)
      requires Valid() && Permitted(actor, call, cluster) && Enabled(call, cluster)
      requires LetsGo(call) ==> actor !in scope.pinned
      requires log != [] && log[|log| - 1].Issued? && log[|log| - 1].call == call
      requires |moments| == |log| && moments[|log| - 1] == |run|
      modifies this`cluster, this`run
      ensures Valid() && run == old(run) + [Controller(actor, call, true)]
      ensures cluster == Effect(call, old(cluster))
      ensures Keeps(scope.Minus(actor), old(cluster), cluster)
      ensures Harmless(call) ==> Keeps(scope, old(cluster), cluster)
    {
      IsSound();
      OwnCallKeeps(scope, actor, call, cluster);
      if Harmless(call) {
        HarmlessKeeps(scope, actor, call, cluster);
      }
      Continue(Controller(actor, call, true));
      run := run + [Controller(actor, call, true)];
      cluster := Effect(call, cluster);
    }

    /** A call reaches the server and is answered, but not carried out yet. */
    method Submit(scope: Scope, actor: NamespacedName, call: Call) returns (answer: Answer, delivered: bool)
      requires Valid() && Permitted(actor, call, cluster)
      requires actor in scope.reserved || Harmless(call)
      requires Informed(log, call)
      modifies this
      ensures Advanced(scope)
      ensures Sound(cluster) && Permitted(actor, call, cluster)
      ensures delivered ==> Enabled(call, cluster)
      ensures answer.Accepted? ==> delivered
      ensures answer.Rejected? && delivered ==> answer.error.Other?
      ensures call.Delete? && answer == Rejected(NotFound) ==> call.key !in cluster.objects
      ensures log == old(log) + [Issued(call, answer)]
      ensures |moments| == |log| && moments[|log| - 1] == |run|
      ensures AnsweredIn(Past(), cluster)
      ensures issued == old(issued) + multiset{call} && writes == old(writes) + 1
      ensures Alone() ==> cluster == old(cluster)
      ensures Calm() && !Refusable(call, cluster) ==> answer == Verdict(call, cluster)
    {
      Arrive(scope, actor, call);
      var fault;
      answer, delivered, fault := Respond(call, cluster);
      if fault {
        faults := faults + 1;
      }
      Note(Issued(call, answer));
      IsReplayed();
      AnsweredNow(Past(), cluster);
    }

    /** Issue a write. It has to meet its guard; `before` is the state the server
        applied it to. A rejection leaves that state, except that a call failing
        with an `Other` error may have been carried out. */
    method Issue(scope: Scope, actor: NamespacedName, call: Call) returns (answer: Answer, ghost before: Cluster)
      requires Valid() && Permitted(actor, call, cluster)
      requires actor in scope.reserved || Harmless(call)
      requires LetsGo(call) ==> actor !in scope.pinned
      requires Informed(log, call)
      modifies this
      ensures Advanced(scope.Minus(actor))
      ensures Harmless(call) ==> Advanced(scope)
      ensures Sound(before) && Keeps(scope, old(cluster), before)
      ensures Outcome(call, answer, before, cluster)
      ensures log == old(log) + [Issued(call, answer)]
      ensures AnsweredIn(Past(), before)
      // What was carried out is our own step at this moment of the run.
      ensures |moments| == |log| && moments[|log| - 1] <= |run|
      ensures answer.Accepted? || cluster != before ==> run[moments[|log| - 1]..] == [Controller(actor, call, true)]
      ensures issued == old(issued) + multiset{call} && writes == old(writes) + 1
      ensures Alone() ==> before == old(cluster)
      ensures Calm() && !Refusable(call, before) ==> answer == Verdict(call, before)
    {
      var delivered;
      answer, delivered := Submit(scope, actor, call);
      before := cluster;
      ghost var t := Past();
      KeepsLess(scope, {actor}, old(cluster), before);
      assert scope.Without({actor}) == scope.Minus(actor);
      if delivered {
        Deliver(scope, actor, call);
        KeepsTransitive(scope.Minus(actor), old(cluster), before, cluster);
        if Harmless(call) {
          KeepsTransitive(scope, old(cluster), before, cluster);
        }
      }
      AnsweredLater(t, Past(), before);
    }

    // The calls one by one, each with what its caller can conclude.

    method Create(scope: Scope, key: Key, owner: SyncId, payload: Payload) returns (reply: Reply<Object>)
      requires Valid() && MayWrite(owner.ref, key, owner, cluster) && owner.ref in scope.reserved
      requires JustRead(log, key, None)
      modifies this
      ensures Advanced(scope.Minus(owner.ref)) && HoldKept(owner.ref, old(cluster), cluster)
      ensures log == old(log) + [Issued(ClusterModel.Create(key, owner, payload, [FINALIZER]), AnswerOf(reply))]
      ensures issued == old(issued) + multiset{ClusterModel.Create(key, owner, payload, [FINALIZER])} && writes == old(writes) + 1
      ensures reply.Ok? ==>
                && key in cluster.objects && reply.value == cluster.objects[key]
                && !reply.value.terminating && reply.value.finalizers == [FINALIZER] && reply.value.payload == payload
      ensures Alone() ==> Elsewhere({key}, old(cluster), cluster)
      ensures Calm() ==> if key in old(cluster).objects then reply == Err(Conflict) && cluster == old(cluster) else reply.Ok?
    {
      var call := ClusterModel.Create(key, owner, payload, [FINALIZER]);
      var answer, before := Issue(scope, owner.ref, call);
      CreateOutcome(call, answer, owner.ref, old(cluster), before, cluster);
      reply := if answer.Accepted? then Ok(cluster.objects[key]) else Err(answer.error);
    }

    method Update(scope: Scope, key: Key, owner: SyncId, expected: Revision, payload: Payload, strategy: SyncStrategy)
      returns (reply: Reply<Object>, ghost others: Payload)
      requires Valid() && MayWrite(owner.ref, key, owner, cluster) && owner.ref in scope.reserved
      requires JustRead(log, key, Some(expected))
      modifies this
      ensures Advanced(scope.Minus(owner.ref)) && HoldKept(owner.ref, old(cluster), cluster)
      ensures log == old(log) + [Issued(UpdateCall(key, owner, expected, payload, strategy, others), AnswerOf(reply))]
      ensures issued == old(issued) + multiset{UpdateCall(key, owner, expected, payload, strategy, others)} && writes == old(writes) + 1
      ensures reply.Ok? ==>
                && key in cluster.objects && reply.value == cluster.objects[key]
                && Agrees(strategy, payload, reply.value.payload)
                && FINALIZER in reply.value.finalizers
      ensures Alone() ==> Elsewhere({key}, old(cluster), cluster)
      ensures Alone() && reply.Ok? ==>
                && key in old(cluster).objects
                && expected == Apis.Revision.Revision(old(cluster).objects[key].uid, old(cluster).objects[key].version)
                && (old(cluster).objects[key].terminating <==> reply.value.terminating)
                && (OnlyOurs(old(cluster).objects[key]) ==> OnlyOurs(reply.value))
      ensures Calm() && key in old(cluster).objects && !old(cluster).objects[key].terminating ==>
                if expected == Apis.Revision.Revision(old(cluster).objects[key].uid, old(cluster).objects[key].version) then reply.Ok?
                else reply == Err(Conflict) && cluster == old(cluster)
    {
      var unowned: Payload := *;
      others := unowned;
      var call := UpdateCall(key, owner, expected, payload, strategy, unowned);
      var answer, before := Issue(scope, owner.ref, call);
      UpdateOutcome(call, answer, owner.ref, old(cluster), before, cluster);
      reply := if answer.Accepted? then Ok(cluster.objects[key]) else Err(answer.error);
    }

    method PatchFinalizers(scope: Scope, actor: NamespacedName, key: Key, finalizers: seq<string>) returns (reply: Reply<()>)
      requires Valid()
      modifies this
      ensures Advanced(scope)
      ensures log == old(log) + [Issued(SetFinalizers(key, finalizers), AnswerOf(reply))]
      ensures issued == old(issued) + multiset{SetFinalizers(key, finalizers)} && writes == old(writes) + 1
      ensures Alone() ==> Elsewhere({key}, old(cluster), cluster)
      ensures Alone() ==> NoneRevived(old(cluster), cluster)
      ensures Alone() && reply.Ok? ==>
                && key in old(cluster).objects
                && Finalized(finalizers, old(cluster).objects[key], key, cluster)
      ensures Calm() && key in old(cluster).objects ==> reply.Ok?
      ensures Calm() && key !in old(cluster).objects ==> reply == Err(NotFound) && cluster == old(cluster)
    {
      var call := SetFinalizers(key, finalizers);
      var answer, before := Issue(scope, actor, call);
      HarmlessOutcome(call, answer, before, cluster);
      reply := if answer.Accepted? then Ok(()) else Err(answer.error);
    }

    /** After a successful or not-found deletion, nothing live is left. */
    method DeleteObject(scope: Scope, actor: NamespacedName, key: Key) returns (reply: Reply<()>)
      requires Valid()
      modifies this
      ensures Advanced(scope)
      ensures log == old(log) + [Issued(Delete(key), AnswerOf(reply))]
      ensures issued == old(issued) + multiset{Delete(key)} && writes == old(writes) + 1
      ensures reply.Ok? || reply.error.NotFound? ==> key in cluster.objects ==> cluster.objects[key].terminating
      ensures Alone() ==> Elsewhere({key}, old(cluster), cluster)
      ensures Alone() ==> NoneRevived(old(cluster), cluster)
      ensures Calm() ==> (if key in old(cluster).objects then reply.Ok? else reply == Err(NotFound))
      ensures Calm() && (key in old(cluster).objects ==> old(cluster).objects[key].finalizers == []) ==> key !in cluster.objects
    {
      var call := Delete(key);
      var answer, before := Issue(scope, actor, call);
      HarmlessOutcome(call, answer, before, cluster);
      reply := if answer.Accepted? then Ok(()) else Err(answer.error);
    }

    /** Server-side apply of one finalizer; it creates the object if it is gone. */
    method ApplyFinalizer(scope: Scope, actor: NamespacedName, key: Key, finalizer: string) returns (reply: Reply<()>)
      requires Valid()
      modifies this
      ensures Advanced(scope)
      ensures log == old(log) + [Issued(AddFinalizer(key, finalizer), AnswerOf(reply))]
      ensures issued == old(issued) + multiset{AddFinalizer(key, finalizer)} && writes == old(writes) + 1
      ensures reply.Ok? ==> key in cluster.objects && finalizer in cluster.objects[key].finalizers
      ensures reply.Ok? ==> AppliedTo(Past(), |log| - 1, cluster, key, finalizer)
      ensures Alone() ==> Elsewhere({key}, old(cluster), cluster)
      ensures Calm() ==> reply.Ok? && cluster == Effect(AddFinalizer(key, finalizer), old(cluster))
    {
      var call := AddFinalizer(key, finalizer);
      var answer, before := Issue(scope, actor, call);
      HarmlessOutcome(call, answer, before, cluster);
      assert AnsweredAt(0, Past(), before) by { assert Unseal(0); }
      reply := if answer.Accepted? then Ok(()) else Err(answer.error);
    }

    method WriteStatus(scope: Scope, ref: NamespacedName, uid: nat, version: nat, status: Option<ObjectSyncStatus>)
      returns (reply: Reply<ObjectSync>)
      requires Valid() && ref in scope.reserved
      requires Lists(cluster, ref, DestinationsOf(status)) && Truthful(cluster.history, DestinationsOf(status))
      modifies this
      ensures Advanced(scope.Minus(ref)) && NoNewCopies(ref, old(cluster), cluster)
      ensures Held(old(cluster), ref) ==> Held(cluster, ref)
      ensures log == old(log) + [Issued(PutStatus(ref, uid, version, status), AnswerOf(reply))]
      ensures issued == old(issued) + multiset{PutStatus(ref, uid, version, status)} && writes == old(writes) + 1
      ensures reply.Ok? ==>
                && ref in cluster.syncs && reply.value == cluster.syncs[ref]
                && reply.value.Ref() == ref && reply.value.uid == uid && reply.value.status == status
      // It replaces the status of exactly the version given, or none.
      ensures Alone() && reply.Ok? ==>
                ref in old(cluster).syncs && old(cluster).syncs[ref].uid == uid && old(cluster).syncs[ref].version == version
      ensures Alone() ==> cluster.objects == old(cluster).objects
      ensures Calm() && ref in old(cluster).syncs ==>
                if old(cluster).syncs[ref].uid == uid && old(cluster).syncs[ref].version == version then
                  && reply.Ok? && cluster.history == old(cluster).history
                  && reply.value == old(cluster).syncs[ref].(status := status, version := reply.value.version)
                else reply == Err(Conflict) && cluster == old(cluster)
    {
      var call := PutStatus(ref, uid, version, status);
      IsSound();
      var answer, before := Issue(scope, ref, call);
      SyncOutcome(call, answer, ref, before, cluster);
      NoNewCopiesTransitive(ref, old(cluster), before, cluster);
      reply := if answer.Accepted? then Ok(cluster.syncs[ref]) else Err(answer.error);
    }

    /** Patch the finalizers of an ObjectSync; the reply is what is left of it. */
    method WriteSyncFinalizers(scope: Scope, ref: NamespacedName, finalizers: seq<string>)
      returns (reply: Reply<Option<ObjectSync>>)
      requires Valid() && ref in scope.reserved
      requires FINALIZER in finalizers || (Lists(cluster, ref, []) && ref !in scope.pinned)
      modifies this
      ensures Advanced(scope.Minus(ref)) && NoNewCopies(ref, old(cluster), cluster)
      ensures log == old(log) + [Issued(SetSyncFinalizers(ref, finalizers), AnswerOf(reply))]
      ensures issued == old(issued) + multiset{SetSyncFinalizers(ref, finalizers)} && writes == old(writes) + 1
      ensures reply.Ok? && reply.value.Some? ==>
                && ref in cluster.syncs && reply.value.value == cluster.syncs[ref]
                && reply.value.value.Ref() == ref && reply.value.value.finalizers == finalizers
      ensures reply.Ok? && reply.value.None? ==> ref !in cluster.syncs && finalizers == []
      ensures Alone() ==> cluster.objects == old(cluster).objects
      ensures Calm() && ref in old(cluster).syncs ==>
                && reply.Ok?
                && (reply.value.None? <==> finalizers == [] && old(cluster).syncs[ref].terminating)
                && (reply.value.Some? ==>
                      reply.value.value == old(cluster).syncs[ref].(finalizers := finalizers, version := reply.value.value.version))
    {
      var call := SetSyncFinalizers(ref, finalizers);
      IsSound();
      var answer, before := Issue(scope, ref, call);
      SyncOutcome(call, answer, ref, before, cluster);
      NoNewCopiesTransitive(ref, old(cluster), before, cluster);
      reply := if answer.Rejected? then Err(answer.error)
               else if ref in cluster.syncs then Ok(Some(cluster.syncs[ref])) else Ok(None);
    }
  }

  function AnswerOf<T>(reply: Reply<T>): Answer {
    if reply.Ok? then Accepted else Rejected(reply.error)
  }

  function UpdateCall(key: Key, owner: SyncId, expected: Revision, payload: Payload, strategy: SyncStrategy,
                      others: Payload): Call {
    match strategy
    case Replace => ClusterModel.Replace(key, owner, expected, payload, [FINALIZER])
    case Apply => ApplyPatch(key, owner, expected, payload, [FINALIZER], others)
  }

  /** No foreign finalizer holds the object. */
  predicate OnlyOurs(o: Object) {
    forall i | 0 <= i < |o.finalizers| :: o.finalizers[i] == FINALIZER
  }

  /** What became of `o` when its finalizers were set. */
  ghost predicate Finalized(finalizers: seq<string>, o: Object, key: Key, c: Cluster) {
    if o.terminating && finalizers == [] then key !in c.objects
    else
      && key in c.objects
      && c.objects[key] == o.(finalizers := finalizers, version := c.objects[key].version)
  }

  /** Outside `keys` nothing differs. */
  ghost predicate Elsewhere(keys: set<Key>, a: Cluster, b: Cluster) {
    a.syncs == b.syncs && SameObjects(keys, a, b)
  }

  ghost predicate SameObjects(except: set<Key>, a: Cluster, b: Cluster) {
    && (forall k | k !in except :: k in a.objects <==> k in b.objects)
    && (forall k | k in a.objects && k !in except :: b.objects[k] == a.objects[k])
  }

  lemma HoldKeptTransitive(ref: NamespacedName, a: Cluster, b: Cluster, c: Cluster)
    requires HoldKept(ref, a, b) && HoldKept(ref, b, c)
    ensures HoldKept(ref, a, c)
  {
  }

  /** Absent objects stay absent, terminating ones stay terminating. */
  ghost predicate NoneRevived(a: Cluster, b: Cluster) {
    forall k | k in b.objects :: k in a.objects && (a.objects[k].terminating ==> b.objects[k].terminating)
  }

  /** The ObjectSync keeps finalizer, identity and status. */
  ghost predicate HoldKept(ref: NamespacedName, a: Cluster, b: Cluster) {
    Held(a, ref) ==>
      && Held(b, ref)
      && b.syncs[ref].uid == a.syncs[ref].uid
      && b.syncs[ref].status == a.syncs[ref].status
  }

  ghost predicate Outcome(call: Call, answer: Answer, before: Cluster, after: Cluster) {
    && (answer.Accepted? ==> Enabled(call, before) && after == Effect(call, before))
    && (answer.Rejected? ==>
          after == before || (answer.error.Other? && Enabled(call, before) && after == Effect(call, before)))
    && (call.Delete? && answer == Rejected(NotFound) ==> call.key !in before.objects)
  }

  lemma CreateOutcome(call: Call, answer: Answer, ref: NamespacedName, start: Cluster, before: Cluster, after: Cluster)
    requires call.Create? && Outcome(call, answer, before, after) && Kept(ref, start, before)
    ensures HoldKept(ref, start, after) && Elsewhere({call.key}, before, after)
    ensures answer.Accepted? ==>
              && call.key in after.objects
              && var o := after.objects[call.key];
                 !o.terminating && o.finalizers == call.finalizers && o.payload == call.payload
  {
  }

  lemma UpdateOutcome(call: Call, answer: Answer, ref: NamespacedName, start: Cluster, before: Cluster, after: Cluster)
    requires (call.Replace? || call.ApplyPatch?) && Outcome(call, answer, before, after) && Kept(ref, start, before)
    requires call.finalizers == [FINALIZER]
    ensures HoldKept(ref, start, after) && Elsewhere({call.key}, before, after)
    ensures answer.Accepted? ==>
              && call.key in before.objects && call.key in after.objects
              && var o, o' := before.objects[call.key], after.objects[call.key];
                 && Agrees(if call.Replace? then SyncStrategy.Replace else Apply, call.payload, o'.payload)
                 && (o.terminating <==> o'.terminating)
                 && (OnlyOurs(o) ==> OnlyOurs(o'))
                 && FINALIZER in o'.finalizers
  {
    if call.key in before.objects {
      var o := before.objects[call.key];
      UnionKeeps(o.finalizers, call.finalizers);
      if OnlyOurs(o) { UnionOnlyOurs(o.finalizers); }
      if call.ApplyPatch? {
        ReviseOutcome(before, call.key, call.others + call.payload, Union(o.finalizers, call.finalizers), o.terminating, o.writers + {call.owner});
      } else {
        ReviseOutcome(before, call.key, call.payload, call.finalizers, o.terminating, o.writers + {call.owner});
      }
    }
  }

  lemma UnionOnlyOurs(finalizers: seq<string>)
    requires forall i | 0 <= i < |finalizers| :: finalizers[i] == FINALIZER
    ensures forall i | 0 <= i < |Union(finalizers, [FINALIZER])| :: Union(finalizers, [FINALIZER])[i] == FINALIZER
  {
    var more := if FINALIZER in finalizers then finalizers else finalizers + [FINALIZER];
    assert Union(finalizers, [FINALIZER]) == Union(more, []) == more;
  }

  lemma ReviseOutcome(c: Cluster, k: Key, payload: Payload, finalizers: seq<string>, terminating: bool, writers: set<SyncId>)
    requires k in c.objects
    ensures Elsewhere({k}, c, Revise(c, k, payload, finalizers, terminating, writers))
    ensures finalizers != [] ==>
              var c' := Revise(c, k, payload, finalizers, terminating, writers);
              k in c'.objects && c'.objects[k] == Object(c.objects[k].uid, c'.objects[k].version, payload, finalizers, terminating, writers)
  {
  }

  lemma HarmlessOutcome(call: Call, answer: Answer, before: Cluster, after: Cluster)
    requires Harmless(call) && Outcome(call, answer, before, after)
    requires Sound(before)
    ensures Elsewhere({call.key}, before, after)
    ensures !call.AddFinalizer? ==> NoneRevived(before, after)
    ensures call.SetFinalizers? && answer.Accepted? ==>
              call.key in before.objects && Finalized(call.finalizers, before.objects[call.key], call.key, after)
    ensures call.Delete? && (answer.Accepted? || answer.error.NotFound?) ==>
              (call.key in after.objects ==> after.objects[call.key].terminating)
    ensures call.Delete? && answer.Accepted? && before.objects[call.key].finalizers == [] ==> call.key !in after.objects
    ensures call.AddFinalizer? && answer.Accepted? ==>
              call.key in after.objects && call.finalizer in after.objects[call.key].finalizers
  {
    if call.AddFinalizer? && call.key in before.objects {
      UnionKeeps(before.objects[call.key].finalizers, [call.finalizer]);
    }
  }

  lemma SyncOutcome(call: Call, answer: Answer, ref: NamespacedName, before: Cluster, after: Cluster)
    requires (call.PutStatus? || call.SetSyncFinalizers?) && call.ref == ref && Outcome(call, answer, before, after)
    requires Sound(before)
    ensures NoNewCopies(ref, before, after)
    ensures after.objects == before.objects && after.history == before.history
    ensures call.PutStatus? && Held(before, ref) ==> Held(after, ref)
    ensures call.PutStatus? && answer.Accepted? ==>
              && ref in after.syncs && after.syncs[ref].Ref() == ref && after.syncs[ref].uid == call.uid
              && after.syncs[ref] == before.syncs[ref].(status := call.status, version := after.syncs[ref].version)
    ensures call.SetSyncFinalizers? && answer.Accepted? ==>
              && ref in before.syncs
              && (ref !in after.syncs <==> before.syncs[ref].terminating && call.finalizers == [])
              && (ref in after.syncs ==>
                    after.syncs[ref] == before.syncs[ref].(finalizers := call.finalizers, version := after.syncs[ref].version))
  {
    forall k | LiveFor(after, ref, k) ensures LiveFor(before, ref, k) {
    }
  }

  lemma HarmlessKeeps(scope: Scope, actor: NamespacedName, call: Call, c: Cluster)
    requires WellFormed(c) && Harmless(call) && Enabled(call, c)
    ensures Keeps(scope, c, Effect(call, c))
  {
    OtherCallKeeps(call, c, actor);
    forall ref | ref in scope.reserved ensures Kept(ref, c, Effect(call, c)) {
      OtherCallKeeps(call, c, ref);
    }
    forall ref | ref in scope.pinned && Held(c, ref) ensures Held(Effect(call, c), ref) {
      OtherCallKeeps(call, c, ref);
    }
  }
}
