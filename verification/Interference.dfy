/** What other actors may do between two API calls of a reconcile, and what a
    reconcile can rely on throughout. */
module Interference {
  import opened Apis
  import opened ClusterModel

  /** `reserved`: the ObjectSyncs being reconciled, for which nobody else issues
      controller calls meanwhile. `pinned`: the ObjectSyncs whose finalizer nobody
      else removes meanwhile, because they are registered. */
  datatype Scope = Scope(reserved: set<NamespacedName>, pinned: set<NamespacedName>) {
    function Minus(ref: NamespacedName): Scope {
      this.(reserved := reserved - {ref})
    }

    function Without(refs: set<NamespacedName>): Scope {
      this.(reserved := reserved - refs)
    }
  }

  predicate LetsGo(call: Call) {
    call.SetSyncFinalizers? && FINALIZER !in call.finalizers
  }

  predicate Tolerated(scope: Scope, a: Action, c: Cluster) {
    match a
    case User(_) => true
    case Controller(actor, call, own) =>
      !own && actor !in scope.reserved && Permitted(actor, call, c) && !(actor in scope.pinned && LetsGo(call))
  }

  /** Revisions keep their contents. */
  ghost predicate Grown(a: Cluster, b: Cluster) {
    forall v | v in a.history :: v in b.history && b.history[v] == a.history[v]
  }

  /** No object starts to be a live copy written for the ObjectSync. */
  ghost predicate NoNewCopies(ref: NamespacedName, a: Cluster, b: Cluster) {
    forall k :: LiveFor(b, ref, k) ==> LiveFor(a, ref, k)
  }

  /** Status and finalizer of a finalized ObjectSync stay, and it gains no copies. */
  ghost predicate Kept(ref: NamespacedName, a: Cluster, b: Cluster) {
    && (Held(a, ref) ==>
          && Held(b, ref)
          && b.syncs[ref].uid == a.syncs[ref].uid
          && b.syncs[ref].status == a.syncs[ref].status)
    && NoNewCopies(ref, a, b)
  }

  ghost predicate Keeps(scope: Scope, a: Cluster, b: Cluster) {
    && Grown(a, b)
    && (forall ref | ref in scope.reserved :: Kept(ref, a, b))
    && (forall ref | ref in scope.pinned :: Held(a, ref) ==> Held(b, ref))
  }

  lemma NoNewCopiesTransitive(ref: NamespacedName, a: Cluster, b: Cluster, c: Cluster)
    requires NoNewCopies(ref, a, b) && NoNewCopies(ref, b, c)
    ensures NoNewCopies(ref, a, c)
  {
    forall k | LiveFor(c, ref, k) ensures LiveFor(a, ref, k) {
      assert LiveFor(b, ref, k);
    }
  }

  lemma KeptTransitive(ref: NamespacedName, a: Cluster, b: Cluster, c: Cluster)
    requires Kept(ref, a, b) && Kept(ref, b, c)
    ensures Kept(ref, a, c)
  {
    NoNewCopiesTransitive(ref, a, b, c);
  }

  lemma KeepsTransitive(scope: Scope, a: Cluster, b: Cluster, c: Cluster)
    requires Keeps(scope, a, b) && Keeps(scope, b, c)
    ensures Keeps(scope, a, c)
  {
    forall ref | ref in scope.reserved ensures Kept(ref, a, c) {
      KeptTransitive(ref, a, b, c);
    }
    forall ref | ref in scope.pinned && Held(a, ref) ensures Held(c, ref) {
      assert Held(b, ref);
    }
  }

  lemma KeepsLess(scope: Scope, refs: set<NamespacedName>, a: Cluster, b: Cluster)
    requires Keeps(scope, a, b)
    ensures Keeps(scope.Without(refs), a, b)
  {
  }

  lemma ReviseKeeps(c: Cluster, k: Key, payload: Payload, finalizers: seq<string>, terminating: bool,
                    writers: set<SyncId>, ref: NamespacedName)
    requires WellFormed(c) && k in c.objects
    requires c.objects[k].terminating ==> terminating
    requires forall id | id in writers :: id in c.objects[k].writers || id.ref != ref
    ensures Grown(c, Revise(c, k, payload, finalizers, terminating, writers))
    ensures Kept(ref, c, Revise(c, k, payload, finalizers, terminating, writers))
  {
    var c' := Revise(c, k, payload, finalizers, terminating, writers);
    forall k' | LiveFor(c', ref, k') ensures LiveFor(c, ref, k') {
      var id :| id in c'.objects[k'].writers && id.ref == ref;
      assert id in c.objects[k'].writers;
    }
  }

  lemma AddKeeps(c: Cluster, k: Key, payload: Payload, finalizers: seq<string>, writers: set<SyncId>, ref: NamespacedName)
    requires WellFormed(c) && k !in c.objects
    requires forall id | id in writers :: id.ref != ref
    ensures Grown(c, Add(c, k, payload, finalizers, writers))
    ensures Kept(ref, c, Add(c, k, payload, finalizers, writers))
  {
    var c' := Add(c, k, payload, finalizers, writers);
    forall k' | LiveFor(c', ref, k') ensures LiveFor(c, ref, k') {
      var id :| id in c'.objects[k'].writers && id.ref == ref;
      assert k' != k;
      assert id in c.objects[k'].writers;
    }
  }

  lemma SameObjectsKeep(c: Cluster, c': Cluster, ref: NamespacedName)
    requires c'.objects == c.objects && c'.history == c.history
    requires Held(c, ref) ==>
               && Held(c', ref)
               && c'.syncs[ref].uid == c.syncs[ref].uid
               && c'.syncs[ref].status == c.syncs[ref].status
    ensures Kept(ref, c, c')
  {
    forall k | LiveFor(c', ref, k) ensures LiveFor(c, ref, k) {
      var id :| id in c'.objects[k].writers && id.ref == ref;
      assert id in c.objects[k].writers;
    }
  }

  /** A call made for one ObjectSync disturbs no other ObjectSync. */
  lemma CallKeepsOthers(actor: NamespacedName, call: Call, c: Cluster, ref: NamespacedName)
    requires WellFormed(c) && Permitted(actor, call, c) && Enabled(call, c) && ref != actor
    ensures Grown(c, Effect(call, c))
    ensures Kept(ref, c, Effect(call, c))
  {
    match call
    case Create(k, owner, payload, finalizers) => AddKeeps(c, k, payload, finalizers, {owner}, ref);
    case Replace(k, owner, _, payload, finalizers) =>
      var o := c.objects[k];
      ReviseKeeps(c, k, payload, finalizers, o.terminating, o.writers + {owner}, ref);
    case ApplyPatch(k, owner, _, payload, finalizers, others) =>
      var o := c.objects[k];
      ReviseKeeps(c, k, others + payload, Union(o.finalizers, finalizers), o.terminating, o.writers + {owner}, ref);
    case AddFinalizer(_, _) => OtherCallKeeps(call, c, ref);
    case SetFinalizers(_, _) => OtherCallKeeps(call, c, ref);
    case Delete(_) => OtherCallKeeps(call, c, ref);
    case PutStatus(_, _, _, _) => SameObjectsKeep(c, Effect(call, c), ref);
    case SetSyncFinalizers(_, _) => SameObjectsKeep(c, Effect(call, c), ref);
  }

  /** The persisted list covers what the ObjectSync's reconciles wrote. */
  lemma PersistedLists(c: Cluster, ref: NamespacedName)
    requires Sound(c)
    ensures Lists(c, ref, if ref in c.syncs then c.syncs[ref].Tracked() else [])
  {
    forall k | k in c.objects && LiveFor(c, ref, k)
      ensures ref in c.syncs && k in KeySet(c.syncs[ref].Tracked())
    {
      var id :| id in c.objects[k].writers && id.ref == ref;
      assert Held(c, id.ref);
    }
  }

  /** Deleting an object and changing its finalizers disturbs no ObjectSync at all. */
  lemma OtherCallKeeps(call: Call, c: Cluster, ref: NamespacedName)
    requires WellFormed(c) && Enabled(call, c)
    requires call.AddFinalizer? || call.SetFinalizers? || call.Delete?
    ensures Grown(c, Effect(call, c))
    ensures Kept(ref, c, Effect(call, c))
  {
    match call
    case AddFinalizer(k, finalizer) =>
      if k in c.objects {
        var o := c.objects[k];
        ReviseKeeps(c, k, o.payload, Union(o.finalizers, [finalizer]), o.terminating, o.writers, ref);
      } else {
        AddKeeps(c, k, map[], [finalizer], {}, ref);
      }
    case SetFinalizers(k, finalizers) =>
      var o := c.objects[k];
      ReviseKeeps(c, k, o.payload, finalizers, o.terminating, o.writers, ref);
    case Delete(k) =>
      var o := c.objects[k];
      ReviseKeeps(c, k, o.payload, o.finalizers, true, o.writers, ref);
  }

  lemma UserKeeps(action: UserAction, c: Cluster, ref: NamespacedName)
    requires WellFormed(c)
    ensures Grown(c, UserEffect(action, c))
    ensures Kept(ref, c, UserEffect(action, c))
  {
    match action
    case Put(k, payload, finalizers) =>
      if k in c.objects {
        ReviseKeeps(c, k, payload, finalizers, c.objects[k].terminating, c.objects[k].writers, ref);
      } else {
        AddKeeps(c, k, payload, finalizers, {}, ref);
      }
    case Remove(k) =>
      if k in c.objects {
        ReviseKeeps(c, k, c.objects[k].payload, c.objects[k].finalizers, true, c.objects[k].writers, ref);
      }
    case PutSync(_, _, _) => SameObjectsKeep(c, UserEffect(action, c), ref);
    case RemoveSync(_) => SameObjectsKeep(c, UserEffect(action, c), ref);
  }

  /** The finalizer of an ObjectSync goes only by a call that lets go of it. */
  lemma CallPins(actor: NamespacedName, call: Call, c: Cluster, ref: NamespacedName)
    requires WellFormed(c) && Permitted(actor, call, c) && Enabled(call, c)
    requires Held(c, ref) && (ref != actor || !LetsGo(call))
    ensures Held(Effect(call, c), ref)
  {
  }

  lemma UserActionKeeps(scope: Scope, action: UserAction, c: Cluster)
    requires WellFormed(c)
    ensures Keeps(scope, c, UserEffect(action, c))
  {
    var c' := UserEffect(action, c);
    UserKeeps(action, c, NamespacedName("", ""));
    forall ref | ref in scope.reserved ensures Kept(ref, c, c') {
      UserKeeps(action, c, ref);
    }
    forall ref | ref in scope.pinned && Held(c, ref) ensures Held(c', ref) {
      UserKeeps(action, c, ref);
    }
  }

  lemma OthersCallKeeps(scope: Scope, actor: NamespacedName, call: Call, c: Cluster)
    requires WellFormed(c) && Tolerated(scope, Controller(actor, call, false), c) && Enabled(call, c)
    ensures Keeps(scope, c, Effect(call, c))
  {
    var c' := Effect(call, c);
    CallGrows(actor, call, c);
    forall ref | ref in scope.reserved ensures Kept(ref, c, c') {
      CallKeepsOthers(actor, call, c, ref);
    }
    forall ref | ref in scope.pinned && Held(c, ref) ensures Held(c', ref) {
      CallPins(actor, call, c, ref);
    }
  }

  /** What a reconcile relies on survives every tolerated action. */
  lemma ToleratedKeeps(scope: Scope, a: Action, c: Cluster)
    requires WellFormed(c) && Tolerated(scope, a, c)
    ensures Keeps(scope, c, Act(a, c))
  {
    match a
    case User(action) => UserActionKeeps(scope, action, c);
    case Controller(actor, call, _) =>
      if Enabled(call, c) { OthersCallKeeps(scope, actor, call, c); }
  }

  lemma CallGrows(actor: NamespacedName, call: Call, c: Cluster)
    requires WellFormed(c) && Permitted(actor, call, c) && Enabled(call, c)
    ensures Grown(c, Effect(call, c))
  {
    var other := NamespacedName(actor.namespace, actor.name + "*");
    assert |other.name| == |actor.name| + 1;
    CallKeepsOthers(actor, call, c, other);
  }

  /** An own call keeps what reconciles of other ObjectSyncs rely on. */
  lemma OwnCallKeeps(scope: Scope, actor: NamespacedName, call: Call, c: Cluster)
    requires WellFormed(c) && Permitted(actor, call, c) && Enabled(call, c)
    requires actor in scope.pinned ==> !LetsGo(call)
    ensures Keeps(scope.Minus(actor), c, Effect(call, c))
  {
    CallGrows(actor, call, c);
    forall ref | ref in scope.Minus(actor).reserved ensures Kept(ref, c, Effect(call, c)) {
      CallKeepsOthers(actor, call, c, ref);
    }
    forall ref | ref in scope.pinned && Held(c, ref) ensures Held(Effect(call, c), ref) {
      CallPins(actor, call, c, ref);
    }
  }

  /** A guard once met stays met while only others act. */
  lemma PermittedIsStable(actor: NamespacedName, call: Call, a: Cluster, b: Cluster)
    requires Permitted(actor, call, a) && Kept(actor, a, b) && Grown(a, b)
    ensures Permitted(actor, call, b)
  {
    match call
    case PutStatus(_, _, _, status) =>
      TruthSurvives(a.history, b.history, DestinationsOf(status));
      ListsIsStable(actor, DestinationsOf(status), a, b);
    case SetSyncFinalizers(_, finalizers) =>
      if FINALIZER !in finalizers { ListsIsStable(actor, [], a, b); }
    case _ =>
  }

  lemma ListsIsStable(ref: NamespacedName, ds: seq<DestinationStatus>, a: Cluster, b: Cluster)
    requires Lists(a, ref, ds) && NoNewCopies(ref, a, b)
    ensures Lists(b, ref, ds)
  {
    forall k | k in b.objects && LiveFor(b, ref, k) ensures k in KeySet(ds) {
      assert LiveFor(a, ref, k);
    }
  }
}
