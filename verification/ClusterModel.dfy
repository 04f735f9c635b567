/** The API server's state as a value: what each call does to it, which calls the
    controller may issue, and the invariant every permitted step keeps. */
module ClusterModel {
  import opened Common
  import opened Apis

  // ---------------------------------------------------------------------
  // State

  /** The payload of an object: everything but identity, revision, finalizers and
      deletion timestamp. */
  datatype Field = Label(name: string) | Annotation(name: string) | Data(path: string)
  type Payload = map<Field, string>

  datatype SyncId = SyncId(ref: NamespacedName, uid: nat)

  /** `writers` is bookkeeping of the model, which no controller code reads: the
      ObjectSyncs for which the controller wrote this object. */
  datatype Object = Object(
    uid: nat,
    version: nat,
    payload: Payload,
    finalizers: seq<string>,
    terminating: bool,
    writers: set<SyncId>)
  {
    function Revision(): Revision {
      Apis.Revision.Revision(uid, version)
    }
  }

  /** What a revision held. */
  datatype Snapshot = Snapshot(key: Key, uid: nat, payload: Payload)

  datatype Cluster = Cluster(
    objects: map<Key, Object>,
    syncs: map<NamespacedName, ObjectSync>,
    history: map<nat, Snapshot>,
    clock: nat)

  const EMPTY := Cluster(map[], map[], map[], 0)

  // ---------------------------------------------------------------------
  // What a destination should hold

  function Template(source: Snapshot): Payload {
    source.payload[Label(MANAGED_BY) := MANAGER]
                  [Annotation(SOURCE_OBJECT_ANNOTATION) := source.key.namespace + "/" + source.key.name]
  }

  predicate CoveredBy(template: Payload, payload: Payload) {
    forall f | f in template :: f in payload && payload[f] == template[f]
  }

  predicate Agrees(strategy: SyncStrategy, template: Payload, payload: Payload) {
    match strategy
    case Replace => payload == template
    case Apply => CoveredBy(template, payload)
  }

  /** If an entry records both revisions, then the recorded destination revision
      agrees with the template of the recorded source revision. */
  predicate RecordIsTrue(history: map<nat, Snapshot>, d: DestinationStatus) {
    d.sourceVersion.Some? && d.syncedVersion.Some? ==>
      && d.sourceVersion.value.version in history
      && d.syncedVersion.value.version in history
      && Agrees(d.Strategy(), Template(history[d.sourceVersion.value.version]), history[d.syncedVersion.value.version].payload)
  }

  predicate Truthful(history: map<nat, Snapshot>, destinations: seq<DestinationStatus>) {
    forall d | d in destinations :: RecordIsTrue(history, d)
  }

  // ---------------------------------------------------------------------
  // Calls and user actions

  datatype Call =
    | Create(key: Key, owner: SyncId, payload: Payload, finalizers: seq<string>)
    | Replace(key: Key, owner: SyncId, expected: Revision, payload: Payload, finalizers: seq<string>)
      /** Server-side apply; `others` stands for the fields other managers own. */
    | ApplyPatch(key: Key, owner: SyncId, expected: Revision, payload: Payload, finalizers: seq<string>, others: Payload)
      /** Server-side apply of nothing but one finalizer. */
    | AddFinalizer(key: Key, finalizer: string)
    | SetFinalizers(key: Key, finalizers: seq<string>)
    | Delete(key: Key)
    | PutStatus(ref: NamespacedName, uid: nat, version: nat, status: Option<ObjectSyncStatus>)
    | SetSyncFinalizers(ref: NamespacedName, finalizers: seq<string>)

  datatype UserAction =
    | Put(key: Key, payload: Payload, finalizers: seq<string>)
    | Remove(key: Key)
    | PutSync(ref: NamespacedName, spec: ObjectSyncSpec, finalizers: seq<string>)
    | RemoveSync(ref: NamespacedName)

  /** `own` marks the calls of the reconcile at hand; it makes no difference to the server. */
  datatype Action = User(action: UserAction) | Controller(actor: NamespacedName, call: Call, own: bool)

  function Store(c: Cluster, k: Key, o: Object): Cluster {
    c.(objects := c.objects[k := o], history := c.history[o.version := Snapshot(k, o.uid, o.payload)])
  }

  function Add(c: Cluster, k: Key, payload: Payload, finalizers: seq<string>, writers: set<SyncId>): Cluster {
    Store(c.(clock := c.clock + 2), k, Object(c.clock, c.clock + 1, payload, finalizers, false, writers))
  }

  /** Update of an existing object. A terminating object vanishes with its last
      finalizer; an update that changes nothing keeps the revision. */
  function Revise(c: Cluster, k: Key, payload: Payload, finalizers: seq<string>, terminating: bool,
                  writers: set<SyncId>): Cluster
    requires k in c.objects
  {
    var o := c.objects[k];
    if terminating && finalizers == [] then
      c.(objects := c.objects - {k})
    else if payload == o.payload && finalizers == o.finalizers && terminating == o.terminating then
      c.(objects := c.objects[k := o.(writers := writers)])
    else
      Store(c.(clock := c.clock + 1), k, Object(o.uid, c.clock, payload, finalizers, terminating, writers))
  }

  function Erase(c: Cluster, k: Key): Cluster
    requires k in c.objects
  {
    var o := c.objects[k];
    Revise(c, k, o.payload, o.finalizers, true, o.writers)
  }

  function Union(finalizers: seq<string>, more: seq<string>): seq<string>
    decreases more
  {
    if more == [] then finalizers
    else Union(if more[0] in finalizers then finalizers else finalizers + [more[0]], more[1..])
  }

  function ReviseSync(c: Cluster, s: ObjectSync): Cluster
    requires s.Ref() in c.syncs
  {
    if s.terminating && s.finalizers == [] then c.(syncs := c.syncs - {s.Ref()})
    else if s == c.syncs[s.Ref()] then c
    else c.(syncs := c.syncs[s.Ref() := s.(version := c.clock)], clock := c.clock + 1)
  }

  /** Whether the server accepts the call. */
  predicate Enabled(call: Call, c: Cluster) {
    match call
    case Create(k, _, _, _) => k !in c.objects
    case Replace(k, _, expected, _, _) => k in c.objects && c.objects[k].Revision() == expected
    case ApplyPatch(k, _, expected, _, _, _) => k in c.objects && c.objects[k].Revision() == expected
    case AddFinalizer(_, _) => true
    case SetFinalizers(k, _) => k in c.objects
    case Delete(k) => k in c.objects
    case PutStatus(ref, uid, version, _) =>
      ref in c.syncs && c.syncs[ref].Ref() == ref && c.syncs[ref].uid == uid && c.syncs[ref].version == version
    case SetSyncFinalizers(ref, _) => ref in c.syncs && c.syncs[ref].Ref() == ref
  }

  /** What an accepted call does. */
  function Effect(call: Call, c: Cluster): Cluster
    requires Enabled(call, c)
  {
    match call
    case Create(k, owner, payload, finalizers) => Add(c, k, payload, finalizers, {owner})
    case Replace(k, owner, _, payload, finalizers) =>
      var o := c.objects[k];
      Revise(c, k, payload, finalizers, o.terminating, o.writers + {owner})
    case ApplyPatch(k, owner, _, payload, finalizers, others) =>
      var o := c.objects[k];
      Revise(c, k, others + payload, Union(o.finalizers, finalizers), o.terminating, o.writers + {owner})
    case AddFinalizer(k, finalizer) =>
      if k in c.objects then
        var o := c.objects[k];
        Revise(c, k, o.payload, Union(o.finalizers, [finalizer]), o.terminating, o.writers)
      else Add(c, k, map[], [finalizer], {})
    case SetFinalizers(k, finalizers) =>
      var o := c.objects[k];
      Revise(c, k, o.payload, finalizers, o.terminating, o.writers)
    case Delete(k) => Erase(c, k)
    case PutStatus(ref, _, _, status) => ReviseSync(c, c.syncs[ref].(status := status))
    case SetSyncFinalizers(ref, finalizers) => ReviseSync(c, c.syncs[ref].(finalizers := finalizers))
  }

  /** What users and other controllers may do. They may do anything to objects;
      they do not write an ObjectSync's status and do not strip its finalizer. */
  function UserEffect(action: UserAction, c: Cluster): Cluster {
    match action
    case Put(k, payload, finalizers) =>
      if k in c.objects then Revise(c, k, payload, finalizers, c.objects[k].terminating, c.objects[k].writers)
      else Add(c, k, payload, finalizers, {})
    case Remove(k) => if k in c.objects then Erase(c, k) else c
    case PutSync(ref, spec, finalizers) =>
      if ref !in c.syncs then
        var s := ObjectSync(Some(ref.namespace), ref.name, c.clock, c.clock + 1, finalizers, false, spec, None);
        c.(syncs := c.syncs[ref := s], clock := c.clock + 2)
      else
        var s := c.syncs[ref];
        if s.Ref() != ref || (FINALIZER in s.finalizers && FINALIZER !in finalizers) then c
        else ReviseSync(c, s.(spec := spec, finalizers := finalizers))
    case RemoveSync(ref) =>
      if ref in c.syncs && c.syncs[ref].Ref() == ref then ReviseSync(c, c.syncs[ref].(terminating := true)) else c
  }

  function Act(a: Action, c: Cluster): Cluster {
    match a
    case User(action) => UserEffect(action, c)
    case Controller(_, call, _) => if Enabled(call, c) then Effect(call, c) else c
  }

  // ---------------------------------------------------------------------
  // The protocol

  /** The object at `k` is live and was written for the ObjectSync named `ref`. */
  predicate LiveFor(c: Cluster, ref: NamespacedName, k: Key) {
    && k in c.objects
    && !c.objects[k].terminating
    && exists id :: id in c.objects[k].writers && id.ref == ref
  }

  /** The ObjectSync exists and carries our finalizer. */
  predicate Held(c: Cluster, ref: NamespacedName) {
    ref in c.syncs && FINALIZER in c.syncs[ref].finalizers
  }

  /** Every live object written for `ref` is in the list. */
  predicate Lists(c: Cluster, ref: NamespacedName, destinations: seq<DestinationStatus>) {
    forall k | k in c.objects :: LiveFor(c, ref, k) ==> k in KeySet(destinations)
  }

  function DestinationsOf(status: Option<ObjectSyncStatus>): seq<DestinationStatus> {
    if status.Some? then status.value.destinations.GetOr([]) else []
  }

  /** The guards the controller has to meet: it writes only objects tracked in
      the persisted status of a finalized ObjectSync, drops a tracked key only
      when nothing live was written there, and lets go of the finalizer only when
      nothing live is left. */
  predicate Permitted(actor: NamespacedName, call: Call, c: Cluster) {
    match call
    case Create(k, owner, _, _) => MayWrite(actor, k, owner, c)
    case Replace(k, owner, _, _, _) => MayWrite(actor, k, owner, c)
    case ApplyPatch(k, owner, _, _, _, _) => MayWrite(actor, k, owner, c)
    case AddFinalizer(_, _) => true
    case SetFinalizers(_, _) => true
    case Delete(_) => true
    case PutStatus(ref, _, _, status) =>
      ref == actor && Lists(c, ref, DestinationsOf(status)) && Truthful(c.history, DestinationsOf(status))
    case SetSyncFinalizers(ref, finalizers) =>
      ref == actor && (FINALIZER in finalizers || Lists(c, ref, []))
  }

  predicate MayWrite(actor: NamespacedName, k: Key, owner: SyncId, c: Cluster) {
    && owner.ref == actor
    && Held(c, actor)
    && c.syncs[actor].uid == owner.uid
    && k in KeySet(c.syncs[actor].Tracked())
  }

  // ---------------------------------------------------------------------
  // The invariant

  ghost predicate WellFormed(c: Cluster) {
    && (forall k | k in c.objects ::
          var o := c.objects[k];
          && o.version in c.history
          && c.history[o.version] == Snapshot(k, o.uid, o.payload)
          && (o.terminating ==> o.finalizers != []))
    && (forall v | v in c.history :: v < c.clock)
    && (forall ref | ref in c.syncs ::
          var s := c.syncs[ref];
          s.Ref() == ref && s.version < c.clock && (s.terminating ==> s.finalizers != []))
  }

  /** Write-ahead tracking: a live object written for an ObjectSync belongs to an
      existing, finalized ObjectSync whose persisted status lists its key. */
  ghost predicate AllTracked(c: Cluster) {
    forall k, id | k in c.objects && !c.objects[k].terminating && id in c.objects[k].writers ::
      && Held(c, id.ref)
      && c.syncs[id.ref].uid == id.uid
      && k in KeySet(c.syncs[id.ref].Tracked())
  }

  ghost predicate AllTruthful(c: Cluster) {
    forall ref | ref in c.syncs :: Truthful(c.history, c.syncs[ref].Tracked())
  }

  ghost predicate Sound(c: Cluster) {
    WellFormed(c) && AllTracked(c) && AllTruthful(c)
  }

  /** No live object was written for an ObjectSync that does not exist (any more). */
  ghost predicate NoOrphans(c: Cluster) {
    forall k, id | k in c.objects && !c.objects[k].terminating && id in c.objects[k].writers ::
      id.ref in c.syncs && c.syncs[id.ref].uid == id.uid
  }

  lemma UnionKeeps(finalizers: seq<string>, more: seq<string>)
    ensures finalizers <= Union(finalizers, more)
    ensures forall f :: f in Union(finalizers, more) <==> f in finalizers || f in more
    decreases more
  {
    if more != [] {
      UnionKeeps(if more[0] in finalizers then finalizers else finalizers + [more[0]], more[1..]);
      assert more == [more[0]] + more[1..];
    }
  }

  lemma TruthSurvives(a: map<nat, Snapshot>, b: map<nat, Snapshot>, ds: seq<DestinationStatus>)
    requires Truthful(a, ds)
    requires forall v | v in a :: v in b && b[v] == a[v]
    ensures Truthful(b, ds)
  {
    forall d | d in ds ensures RecordIsTrue(b, d) {
      assert RecordIsTrue(a, d);
    }
  }

  lemma AddKeepsSound(c: Cluster, k: Key, payload: Payload, finalizers: seq<string>, writers: set<SyncId>)
    requires Sound(c) && k !in c.objects
    requires forall id | id in writers :: MayWrite(id.ref, k, id, c)
    ensures Sound(Add(c, k, payload, finalizers, writers))
  {
    var c' := Add(c, k, payload, finalizers, writers);
    forall ref | ref in c'.syncs ensures Truthful(c'.history, c'.syncs[ref].Tracked()) {
      TruthSurvives(c.history, c'.history, c.syncs[ref].Tracked());
    }
  }

  lemma ReviseKeepsTracked(c: Cluster, k: Key, payload: Payload, finalizers: seq<string>, terminating: bool,
                           writers: set<SyncId>)
    requires AllTracked(c) && k in c.objects
    requires c.objects[k].terminating ==> terminating
    requires forall id | id in writers :: id in c.objects[k].writers || MayWrite(id.ref, k, id, c)
    ensures AllTracked(Revise(c, k, payload, finalizers, terminating, writers))
  {
    var c' := Revise(c, k, payload, finalizers, terminating, writers);
    forall k', id | k' in c'.objects && !c'.objects[k'].terminating && id in c'.objects[k'].writers
      ensures Held(c', id.ref) && c'.syncs[id.ref].uid == id.uid && k' in KeySet(c'.syncs[id.ref].Tracked())
    {
      assert k' != k ==> c'.objects[k'] == c.objects[k'];
      assert c'.syncs == c.syncs;
    }
  }

  lemma ReviseKeepsSound(c: Cluster, k: Key, payload: Payload, finalizers: seq<string>, terminating: bool,
                         writers: set<SyncId>)
    requires Sound(c) && k in c.objects
    requires c.objects[k].terminating ==> terminating
    requires forall id | id in writers :: id in c.objects[k].writers || MayWrite(id.ref, k, id, c)
    ensures Sound(Revise(c, k, payload, finalizers, terminating, writers))
  {
    var c' := Revise(c, k, payload, finalizers, terminating, writers);
    ReviseKeepsTracked(c, k, payload, finalizers, terminating, writers);
    assert c'.syncs == c.syncs;
    assert AllTruthful(c') by {
      forall ref | ref in c'.syncs ensures Truthful(c'.history, c'.syncs[ref].Tracked()) {
        TruthSurvives(c.history, c'.history, c.syncs[ref].Tracked());
      }
    }
    assert WellFormed(c');
  }

  lemma ReviseSyncKeepsTracked(c: Cluster, s: ObjectSync)
    requires AllTracked(c) && s.Ref() in c.syncs && s.uid == c.syncs[s.Ref()].uid
    requires FINALIZER in s.finalizers || FINALIZER !in c.syncs[s.Ref()].finalizers || Lists(c, s.Ref(), [])
    requires s.Tracked() == c.syncs[s.Ref()].Tracked() || Lists(c, s.Ref(), s.Tracked())
    ensures AllTracked(ReviseSync(c, s))
  {
    var c' := ReviseSync(c, s);
    forall k, id | k in c'.objects && !c'.objects[k].terminating && id in c'.objects[k].writers
      ensures Held(c', id.ref) && c'.syncs[id.ref].uid == id.uid && k in KeySet(c'.syncs[id.ref].Tracked())
    {
      assert Held(c, id.ref) && c.syncs[id.ref].uid == id.uid && k in KeySet(c.syncs[id.ref].Tracked());
      assert LiveFor(c, id.ref, k);
    }
  }

  lemma ReviseSyncKeepsSound(c: Cluster, s: ObjectSync)
    requires Sound(c) && s.Ref() in c.syncs && s.uid == c.syncs[s.Ref()].uid
    requires FINALIZER in s.finalizers || FINALIZER !in c.syncs[s.Ref()].finalizers || Lists(c, s.Ref(), [])
    requires s.Tracked() == c.syncs[s.Ref()].Tracked() || (Lists(c, s.Ref(), s.Tracked()) && Truthful(c.history, s.Tracked()))
    requires s.version == c.syncs[s.Ref()].version
    ensures Sound(ReviseSync(c, s))
  {
    var c' := ReviseSync(c, s);
    ReviseSyncKeepsTracked(c, s);
    forall ref | ref in c'.syncs ensures Truthful(c'.history, c'.syncs[ref].Tracked()) {
      assert Truthful(c.history, c.syncs[ref].Tracked());
    }
  }

  /** A permitted call keeps the invariant. */
  lemma CallKeepsSound(actor: NamespacedName, call: Call, c: Cluster)
    requires Sound(c) && Permitted(actor, call, c) && Enabled(call, c)
    ensures Sound(Effect(call, c))
  {
    match call
    case Create(k, owner, payload, finalizers) =>
      AddKeepsSound(c, k, payload, finalizers, {owner});
    case Replace(k, owner, _, payload, finalizers) =>
      ReviseKeepsSound(c, k, payload, finalizers, c.objects[k].terminating, c.objects[k].writers + {owner});
    case ApplyPatch(k, owner, _, payload, finalizers, others) =>
      ReviseKeepsSound(c, k, others + payload, Union(c.objects[k].finalizers, finalizers),
                       c.objects[k].terminating, c.objects[k].writers + {owner});
    case AddFinalizer(k, finalizer) =>
      if k in c.objects {
        var o := c.objects[k];
        ReviseKeepsSound(c, k, o.payload, Union(o.finalizers, [finalizer]), o.terminating, o.writers);
      } else {
        AddKeepsSound(c, k, map[], [finalizer], {});
      }
    case SetFinalizers(k, finalizers) =>
      ReviseKeepsSound(c, k, c.objects[k].payload, finalizers, c.objects[k].terminating, c.objects[k].writers);
    case Delete(k) =>
      ReviseKeepsSound(c, k, c.objects[k].payload, c.objects[k].finalizers, true, c.objects[k].writers);
    case PutStatus(ref, _, _, status) =>
      ReviseSyncKeepsSound(c, c.syncs[ref].(status := status));
    case SetSyncFinalizers(ref, finalizers) =>
      ReviseSyncKeepsSound(c, c.syncs[ref].(finalizers := finalizers));
  }

  /** Nothing a user does breaks it. */
  /** What users can bring about: any contents and finalizers of an object, its deletion, and
      any spec of an ObjectSync they do not unprotect. */
  lemma UsersMay(c: Cluster, k: Key, payload: Payload, finalizers: seq<string>, ref: NamespacedName, spec: ObjectSyncSpec)
    ensures
      var put := UserEffect(Put(k, payload, finalizers), c).objects;
      if k in c.objects && c.objects[k].terminating && finalizers == [] then k !in put
      else
        && k in put && put[k].payload == payload && put[k].finalizers == finalizers
        && put[k].writers == (if k in c.objects then c.objects[k].writers else {})
    ensures
      var removed := UserEffect(Remove(k), c).objects;
      if k in c.objects && c.objects[k].finalizers != [] then k in removed && removed[k].terminating else k !in removed
    ensures
      var edited := UserEffect(PutSync(ref, spec, [FINALIZER]), c).syncs;
      ref !in c.syncs || c.syncs[ref].Ref() == ref ==> ref in edited && edited[ref].spec == spec && edited[ref].finalizers == [FINALIZER]
  {
  }

  lemma UserKeepsSound(action: UserAction, c: Cluster)
    requires Sound(c)
    ensures Sound(UserEffect(action, c))
  {
    match action
    case Put(k, payload, finalizers) =>
      if k in c.objects {
        ReviseKeepsSound(c, k, payload, finalizers, c.objects[k].terminating, c.objects[k].writers);
      } else {
        AddKeepsSound(c, k, payload, finalizers, {});
      }
    case Remove(k) =>
      if k in c.objects {
        ReviseKeepsSound(c, k, c.objects[k].payload, c.objects[k].finalizers, true, c.objects[k].writers);
      }
    case PutSync(ref, spec, finalizers) =>
      if ref in c.syncs {
        var s := c.syncs[ref];
        if !(FINALIZER in s.finalizers && FINALIZER !in finalizers) {
          ReviseSyncKeepsSound(c, s.(spec := spec, finalizers := finalizers));
        }
      } else {
        var c' := UserEffect(action, c);
        forall r | r in c'.syncs ensures Truthful(c'.history, c'.syncs[r].Tracked()) {
          assert r != ref ==> Truthful(c.history, c.syncs[r].Tracked());
        }
      }
    case RemoveSync(ref) =>
      if ref in c.syncs {
        var s := c.syncs[ref].(terminating := true);
        if s.finalizers == [] {
          assert !Held(c, ref);
        }
        ReviseSyncKeepsSound(c, s);
      }
  }

  /** For status writes the guard is exactly right: an accepted one keeps the
      invariant if and only if it lists every live object written for the
      ObjectSync and records nothing false. */
  lemma StatusWriteIsSafeIff(actor: NamespacedName, call: Call, c: Cluster)
    requires Sound(c) && call.PutStatus? && call.ref == actor && Enabled(call, c)
    ensures Sound(Effect(call, c)) <==> Permitted(actor, call, c)
  {
    if Permitted(actor, call, c) {
      CallKeepsSound(actor, call, c);
    }
    var c' := Effect(call, c);
    if Sound(c') {
      forall k | k in c.objects && LiveFor(c, actor, k) ensures k in KeySet(DestinationsOf(call.status)) {
        var id :| id in c.objects[k].writers && id.ref == actor;
        assert Held(c, actor);
        assert actor in c'.syncs && c'.syncs[actor].Tracked() == DestinationsOf(call.status);
      }
      assert actor in c'.syncs;
      assert Truthful(c'.history, c'.syncs[actor].Tracked());
    }
  }
}
