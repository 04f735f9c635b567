/** The custom resource: its spec, its status and the pure functions and
    in-place updates defined on them. */
module Apis {
  import opened Common

  const FINALIZER := "sync.rustrial.org/rustrial-object-syncer"
  const MANAGER := "rustrial-object-syncer"
  const MANAGED_BY := "app.kubernetes.io/managed-by"
  const SOURCE_OBJECT_ANNOTATION := "sync.rustrial.org/source-object"

  datatype SyncStrategy = Apply | Replace

  datatype NamespacedName = NamespacedName(namespace: string, name: string)

  datatype Gvk = Gvk(group: string, version: string, kind: string)

  /** Identity of a namespaced object: the API version is not part of it. */
  datatype Key = Key(group: string, kind: string, namespace: string, name: string)

  datatype Revision = Revision(uid: nat, version: nat)

  datatype SourceObject = SourceObject(
    group: string,
    version: Option<string>,
    kind: string,
    name: string,
    namespace: Option<string>)

  datatype Destination = Destination(
    name: Option<string>,
    namespace: string,
    strategy: Option<SyncStrategy>)
  {
    predicate AppliesToAllNamespaces() {
      namespace == "" || namespace == "*"
    }

    predicate AppliesToNamespace(dstNamespace: string) {
      namespace == dstNamespace || AppliesToAllNamespaces()
    }

    /** The (namespace, name) this destination resolves to in a namespace, unless
        it does not apply there or would point at the source itself. */
    function AppliesTo(obj: ObjectSync, dstNamespace: string): Option<(string, string)> {
      var srcName := obj.spec.source.name;
      var srcNamespace := obj.SourceNamespace().GetOr("");
      var dstName := name.GetOr(obj.spec.source.name);
      if AppliesToNamespace(dstNamespace) && (srcName != dstName || srcNamespace != dstNamespace) then
        Some((dstNamespace, dstName))
      else
        None
    }
  }

  datatype ObjectSyncSpec = ObjectSyncSpec(source: SourceObject, destinations: seq<Destination>)

  datatype DestinationStatus = DestinationStatus(
    name: string,
    namespace: string,
    group: string,
    version: string,
    kind: string,
    sourceVersion: Option<Revision>,
    syncedVersion: Option<Revision>,
    strategy: Option<SyncStrategy>)
  {
    function Strategy(): SyncStrategy {
      strategy.GetOr(Apply)
    }

    function Identity(): Key {
      Key(group, kind, namespace, name)
    }

    /** The same entry with the recorded revisions forgotten. */
    function Unversioned(): DestinationStatus {
      this.(sourceVersion := None, syncedVersion := None)
    }
  }

  datatype Condition = Condition(
    lastTransitionTime: Option<string>,
    message: string,
    observedGeneration: Option<int>,
    reason: string,
    status: string,
    type_: string)
  {
    predicate SameContent(other: Condition) {
      && status == other.status
      && reason == other.reason
      && message == other.message
      && observedGeneration == other.observedGeneration
    }
  }

  function NewCondition(tpe: string, status: Option<bool>, reason: string, message: string): Condition {
    var text := match status case Some(v) => (if v then "True" else "False") case None => "Unknown";
    Condition(None, message, None, reason, text, tpe)
  }

  datatype ObjectSyncStatus = ObjectSyncStatus(
    conditions: Option<seq<Condition>>,
    destinations: Option<seq<DestinationStatus>>)

  const DEFAULT_STATUS := ObjectSyncStatus(None, None)

  /** An ObjectSync with the parts of its metadata the controller uses. */
  datatype ObjectSync = ObjectSync(
    namespace: Option<string>,
    name: string,
    uid: nat,
    version: nat,
    finalizers: seq<string>,
    terminating: bool,
    spec: ObjectSyncSpec,
    status: Option<ObjectSyncStatus>)
  {
    function Ref(): NamespacedName {
      NamespacedName(namespace.GetOr(""), name)
    }

    function SourceNamespace(): Option<string> {
      if spec.source.namespace.Some? then spec.source.namespace else namespace
    }

    function SourceRef(): NamespacedName {
      NamespacedName(SourceNamespace().GetOr(""), spec.source.name)
    }

    function StatusDestinations(): Option<seq<DestinationStatus>> {
      if status.Some? then status.value.destinations else None
    }

    /** The tracked destinations, an absent list counting as empty. */
    function Tracked(): seq<DestinationStatus> {
      StatusDestinations().GetOr([])
    }

    function Conditions(): seq<Condition> {
      status.GetOr(DEFAULT_STATUS).conditions.GetOr([])
    }

    /** The status carries a condition that tells this, whenever it last changed. */
    predicate Tells(type_: string, status: string, reason: string, message: string) {
      Stating(FindType(Conditions(), type_), type_, status, reason, message, None)
    }

    function WithDestinations(destinations: seq<DestinationStatus>): ObjectSync {
      this.(status := Some(status.GetOr(DEFAULT_STATUS).(destinations := Some(destinations))))
    }

    function WithCondition(c: Condition, now: string): ObjectSync {
      this.(status := Some(status.GetOr(DEFAULT_STATUS).(conditions := Some(Submit(Conditions(), c, now)))))
    }
  }

  function KeySet(destinations: seq<DestinationStatus>): set<Key> {
    set d | d in destinations :: d.Identity()
  }

  // ---------------------------------------------------------------------
  // Conditions

  function WithoutType(conditions: seq<Condition>, tpe: string): (r: seq<Condition>)
    ensures forall c :: c in r <==> c in conditions && c.type_ != tpe
  {
    if conditions == [] then []
    else
      var rest := WithoutType(conditions[..|conditions| - 1], tpe);
      if conditions[|conditions| - 1].type_ == tpe then rest else rest + [conditions[|conditions| - 1]]
  }

  function FindType(conditions: seq<Condition>, tpe: string): (r: Option<Condition>)
    ensures r.None? <==> forall c :: c in conditions ==> c.type_ != tpe
    ensures r.Some? ==> r.value in conditions && r.value.type_ == tpe
  {
    if conditions == [] then None
    else if conditions[0].type_ == tpe then Some(conditions[0])
    else FindType(conditions[1..], tpe)
  }

  /** One `update_condition` call at time `now`. */
  function Submit(conditions: seq<Condition>, c: Condition, now: string): seq<Condition> {
    var stamped := c.(lastTransitionTime := Some(now));
    match FindType(conditions, c.type_)
    case Some(existing) =>
      if existing.SameContent(c) then conditions
      else WithoutType(conditions, c.type_) + [stamped]
    case None => conditions + [stamped]
  }

  /** No two conditions of the same type. */
  ghost predicate OnePerType(conditions: seq<Condition>) {
    forall i, j :: 0 <= i < j < |conditions| ==> conditions[i].type_ != conditions[j].type_
  }

  lemma {:induction false} WithoutTypeKeepsOnePerType(conditions: seq<Condition>, tpe: string)
    requires OnePerType(conditions)
    ensures OnePerType(WithoutType(conditions, tpe))
  {
    if conditions != [] {
      var n := |conditions| - 1;
      WithoutTypeKeepsOnePerType(conditions[..n], tpe);
      var rest := WithoutType(conditions[..n], tpe);
      forall c | c in rest ensures c.type_ != conditions[n].type_ {
        assert c in conditions[..n];
      }
    }
  }

  lemma OnePerTypeFinds(conditions: seq<Condition>, c: Condition)
    requires OnePerType(conditions) && c in conditions
    ensures FindType(conditions, c.type_) == Some(c)
  {
    var f := FindType(conditions, c.type_);
    var i :| 0 <= i < |conditions| && conditions[i] == c;
    var j :| 0 <= j < |conditions| && conditions[j] == f.value;
  }

  lemma {:induction false} FindAfter(front: seq<Condition>, c: Condition)
    requires forall x :: x in front ==> x.type_ != c.type_
    ensures FindType(front + [c], c.type_) == Some(c)
  {
    if front != [] {
      assert front[0] in front;
      assert (front + [c])[1..] == front[1..] + [c];
      FindAfter(front[1..], c);
    }
  }

  /** A condition of this type is listed and tells just this. */
  predicate Stating(held: Option<Condition>, type_: string, status: string, reason: string, message: string,
                 observedGeneration: Option<int>) {
    held.Some? && held.value == Condition(held.value.lastTransitionTime, message, observedGeneration, reason, status, type_)
  }

  /** What was submitted can be read off, whatever was there before. */
  lemma SubmittedIsFound(conditions: seq<Condition>, c: Condition, now: string)
    ensures Stating(FindType(Submit(conditions, c, now), c.type_), c.type_, c.status, c.reason, c.message, c.observedGeneration)
  {
    var stamped := c.(lastTransitionTime := Some(now));
    match FindType(conditions, c.type_)
    case Some(existing) =>
      if !existing.SameContent(c) { FindAfter(WithoutType(conditions, c.type_), stamped); }
    case None => FindAfter(conditions, stamped);
  }

  /** One submission: uniqueness is kept, the type now carries the submitted
      content, the transition time moves exactly when the content changed, and
      every other type keeps its condition. */
  lemma SubmitEffect(conditions: seq<Condition>, c: Condition, now: string)
    requires OnePerType(conditions)
    ensures
      var after := Submit(conditions, c, now);
      var was := FindType(conditions, c.type_);
      var held := FindType(after, c.type_);
      && OnePerType(after)
      && Stating(held, c.type_, c.status, c.reason, c.message, c.observedGeneration)
      && (if Stating(was, c.type_, c.status, c.reason, c.message, c.observedGeneration)
          then held == was
          else held.value == c.(lastTransitionTime := Some(now)))
      && forall t :: t != c.type_ ==> FindType(after, t) == FindType(conditions, t)
  {
    var after := Submit(conditions, c, now);
    WithoutTypeKeepsOnePerType(conditions, c.type_);
    assert OnePerType(after);
    var stamped := c.(lastTransitionTime := Some(now));
    if after != conditions {
      assert stamped == after[|after| - 1];
      OnePerTypeFinds(after, stamped);
    }
    forall t | t != c.type_ ensures FindType(after, t) == FindType(conditions, t) {
      var f := FindType(conditions, t);
      if f.Some? {
        assert f.value in after;
        OnePerTypeFinds(after, f.value);
      }
    }
  }

  /** A history of submissions, oldest first. */
  function SubmitAll(conditions: seq<Condition>, cs: seq<(Condition, string)>): seq<Condition> {
    if cs == [] then conditions
    else Submit(SubmitAll(conditions, cs[..|cs| - 1]), cs[|cs| - 1].0, cs[|cs| - 1].1)
  }

  /** Over any sequence of submissions there is one condition per type, and a
      submitted type carries the content submitted last for it. */
  lemma {:induction false} LastSubmissionWins(conditions: seq<Condition>, cs: seq<(Condition, string)>, i: nat)
    requires OnePerType(conditions)
    requires i < |cs| && forall j :: i < j < |cs| ==> cs[j].0.type_ != cs[i].0.type_
    ensures OnePerType(SubmitAll(conditions, cs))
    ensures
      var c := cs[i].0;
      Stating(FindType(SubmitAll(conditions, cs), c.type_), c.type_, c.status, c.reason, c.message, c.observedGeneration)
  {
    var n := |cs| - 1;
    var before := SubmitAll(conditions, cs[..n]);
    var after := SubmitAll(conditions, cs);
    SubmittedOnePerType(conditions, cs[..n]);
    assert after == Submit(before, cs[n].0, cs[n].1);
    SubmitEffect(before, cs[n].0, cs[n].1);
    if i < n {
      assert cs[..n][i] == cs[i];
      LastSubmissionWins(conditions, cs[..n], i);
      assert FindType(after, cs[i].0.type_) == FindType(before, cs[i].0.type_);
    }
  }

  lemma {:induction false} SubmittedOnePerType(conditions: seq<Condition>, cs: seq<(Condition, string)>)
    requires OnePerType(conditions)
    ensures OnePerType(SubmitAll(conditions, cs))
  {
    if cs != [] {
      SubmittedOnePerType(conditions, cs[..|cs| - 1]);
      SubmitEffect(SubmitAll(conditions, cs[..|cs| - 1]), cs[|cs| - 1].0, cs[|cs| - 1].1);
    }
  }
}
