/** Which destinations an ObjectSync expects, and how the expected list is
    matched against the tracked one. */
module Targets {
  import opened Common
  import opened Apis
  import opened Ordering

  /** A namespace as the namespace cache holds it. */
  datatype Namespace = Namespace(name: string, terminating: bool)

  datatype Target = Target(namespace: string, name: string, strategy: Option<SyncStrategy>) {
    function Place(): NamespacedName {
      NamespacedName(namespace, name)
    }
  }

  // ---------------------------------------------------------------------
  // Enumeration

  /** One uniform filter: the pairs `AppliesTo` admits over the live namespaces. */
  function Admitted(d: Destination, obj: ObjectSync, cache: seq<Namespace>): seq<Target> {
    if cache == [] then []
    else
      var front := Admitted(d, obj, cache[..|cache| - 1]);
      var ns := cache[|cache| - 1];
      if ns.terminating then front
      else match d.AppliesTo(obj, ns.name)
        case Some((namespace, name)) => front + [Target(namespace, name, d.strategy)]
        case None => front
  }

  function FindNamespace(cache: seq<Namespace>, name: string): (r: Option<Namespace>)
    ensures r.None? <==> forall ns :: ns in cache ==> ns.name != name
    ensures r.Some? ==> r.value in cache && r.value.name == name
  {
    if cache == [] then None
    else if cache[0].name == name then Some(cache[0])
    else FindNamespace(cache[1..], name)
  }

  /** The targets of one spec entry: a scan of the cache for a wildcard, a
      lookup of the single namespace otherwise. */
  function TargetsOf(d: Destination, obj: ObjectSync, cache: seq<Namespace>): seq<Target> {
    if d.AppliesToAllNamespaces() then Admitted(d, obj, cache)
    else match d.AppliesTo(obj, d.namespace)
      case None => []
      case Some((namespace, name)) =>
        match FindNamespace(cache, d.namespace)
        case Some(ns) => if ns.terminating then [] else [Target(namespace, name, d.strategy)]
        case None => []
  }

  function ExpectedOf(ds: seq<Destination>, obj: ObjectSync, cache: seq<Namespace>): seq<Target> {
    if ds == [] then []
    else ExpectedOf(ds[..|ds| - 1], obj, cache) + TargetsOf(ds[|ds| - 1], obj, cache)
  }

  function Expected(obj: ObjectSync, cache: seq<Namespace>): seq<Target> {
    ExpectedOf(obj.spec.destinations, obj, cache)
  }

  ghost predicate DistinctNames(cache: seq<Namespace>) {
    forall i, j :: 0 <= i < j < |cache| ==> cache[i].name != cache[j].name
  }

  lemma {:induction false} AdmittedElsewhere(d: Destination, obj: ObjectSync, cache: seq<Namespace>)
    requires !d.AppliesToAllNamespaces()
    requires forall ns :: ns in cache ==> ns.name != d.namespace
    ensures Admitted(d, obj, cache) == []
  {
    if cache != [] {
      AdmittedElsewhere(d, obj, cache[..|cache| - 1]);
      assert cache[|cache| - 1] in cache;
    }
  }

  /** The two branches of the enumeration agree with the uniform filter. */
  lemma {:induction false} EnumerationIsUniformFilter(d: Destination, obj: ObjectSync, cache: seq<Namespace>)
    requires DistinctNames(cache)
    ensures TargetsOf(d, obj, cache) == Admitted(d, obj, cache)
  {
    if !d.AppliesToAllNamespaces() {
      match FindNamespace(cache, d.namespace) {
        case None => AdmittedElsewhere(d, obj, cache);
        case Some(ns) =>
          var i :| 0 <= i < |cache| && cache[i] == ns;
          AdmittedOnce(d, obj, cache, i);
      }
    }
  }

  lemma {:induction false} AdmittedOnce(d: Destination, obj: ObjectSync, cache: seq<Namespace>, i: nat)
    requires DistinctNames(cache) && !d.AppliesToAllNamespaces()
    requires i < |cache| && cache[i].name == d.namespace
    ensures Admitted(d, obj, cache) ==
            if cache[i].terminating || d.AppliesTo(obj, d.namespace).None? then []
            else [Target(d.namespace, d.AppliesTo(obj, d.namespace).value.1, d.strategy)]
  {
    var n := |cache| - 1;
    if i == n {
      forall ns | ns in cache[..n] ensures ns.name != d.namespace {
        var j :| 0 <= j < n && cache[j] == ns;
      }
      AdmittedElsewhere(d, obj, cache[..n]);
    } else {
      assert cache[..n][i] == cache[i];
      AdmittedOnce(d, obj, cache[..n], i);
      assert cache[n].name != d.namespace;
    }
  }

  /** The spec entry asks for the target, in the fields of entry and spec: it names the
      target's namespace or all of them, the target bears its name or else the source's,
      and it is not the source itself, whose namespace is the ObjectSync's own unless
      the spec names one. */
  predicate Asks(d: Destination, obj: ObjectSync, t: Target) {
    var named := match d.name case Some(name) => name case None => obj.spec.source.name;
    var home := match obj.spec.source.namespace
      case Some(namespace) => namespace
      case None => (match obj.namespace case Some(namespace) => namespace case None => "");
    && (d.namespace == "" || d.namespace == "*" || d.namespace == t.namespace)
    && t.name == named
    && t.strategy == d.strategy
    && !(t.namespace == home && t.name == obj.spec.source.name)
  }

  lemma AsksMeans(d: Destination, obj: ObjectSync, t: Target)
    ensures Asks(d, obj, t) <==> t.strategy == d.strategy && d.AppliesTo(obj, t.namespace) == Some((t.namespace, t.name))
  {
  }

  lemma {:induction false} AdmittedMeaning(d: Destination, obj: ObjectSync, cache: seq<Namespace>, t: Target)
    ensures t in Admitted(d, obj, cache) <==>
            && t.strategy == d.strategy
            && Namespace(t.namespace, false) in cache
            && d.AppliesTo(obj, t.namespace) == Some((t.namespace, t.name))
    ensures t in Admitted(d, obj, cache) <==> Asks(d, obj, t) && Namespace(t.namespace, false) in cache
  {
    AsksMeans(d, obj, t);
    if cache != [] {
      AdmittedMeaning(d, obj, cache[..|cache| - 1], t);
      assert cache == cache[..|cache| - 1] + [cache[|cache| - 1]];
    }
  }

  lemma {:induction false} ExpectedMeaning(ds: seq<Destination>, obj: ObjectSync, cache: seq<Namespace>, t: Target)
    requires DistinctNames(cache)
    ensures t in ExpectedOf(ds, obj, cache) <==>
            exists d :: d in ds && t in Admitted(d, obj, cache)
    ensures t in ExpectedOf(ds, obj, cache) <==>
            Namespace(t.namespace, false) in cache && exists d :: d in ds && Asks(d, obj, t)
  {
    forall d ensures t in Admitted(d, obj, cache) <==> Asks(d, obj, t) && Namespace(t.namespace, false) in cache {
      AdmittedMeaning(d, obj, cache, t);
    }
    if ds != [] {
      var d := ds[|ds| - 1];
      ExpectedMeaning(ds[..|ds| - 1], obj, cache, t);
      EnumerationIsUniformFilter(d, obj, cache);
      assert ds == ds[..|ds| - 1] + [d];
    }
  }

  /** An expected target lies in a live cached namespace, some spec entry admits
      it there, and it is never the source itself. */
  lemma ExpectedIsSafe(obj: ObjectSync, cache: seq<Namespace>, t: Target)
    requires DistinctNames(cache) && t in Expected(obj, cache)
    ensures Namespace(t.namespace, false) in cache
    ensures t.Place() != obj.SourceRef()
    ensures exists d :: d in obj.spec.destinations && d.strategy == t.strategy
                        && d.AppliesTo(obj, t.namespace) == Some((t.namespace, t.name))
    ensures exists d :: d in obj.spec.destinations && Asks(d, obj, t)
  {
    ExpectedMeaning(obj.spec.destinations, obj, cache, t);
    var d :| d in obj.spec.destinations && t in Admitted(d, obj, cache);
    AdmittedMeaning(d, obj, cache, t);
  }

  // ---------------------------------------------------------------------
  // The difference between expected and tracked destinations

  function Entry(gvk: Gvk, t: Target): DestinationStatus {
    DestinationStatus(t.name, t.namespace, gvk.group, gvk.version, gvk.kind, None, None, t.strategy)
  }

  function FindTracked(tracked: seq<DestinationStatus>, k: Key): (r: Option<DestinationStatus>)
    ensures r.None? <==> k !in KeySet(tracked)
    ensures r.Some? ==> r.value in tracked && r.value.Identity() == k
  {
    if tracked == [] then None
    else if tracked[0].Identity() == k then Some(tracked[0])
    else
      assert tracked == [tracked[0]] + tracked[1..];
      FindTracked(tracked[1..], k)
  }

  /** The entries whose key is not among `keys`, in order. */
  function Without(keys: set<Key>, s: seq<DestinationStatus>): (r: seq<DestinationStatus>)
    ensures forall d :: d in r <==> d in s && d.Identity() !in keys
  {
    if s == [] then []
    else
      var front := Without(keys, s[..|s| - 1]);
      if s[|s| - 1].Identity() in keys then front else front + [s[|s| - 1]]
  }

  function TargetKeys(gvk: Gvk, targets: seq<Target>): set<Key> {
    set t | t in targets :: Entry(gvk, t).Identity()
  }

  /** The entry for a target, with the revisions of the tracked entry if there is
      one and the strategies agree. */
  function Carried(gvk: Gvk, t: Target, found: Option<DestinationStatus>): DestinationStatus {
    var e := Entry(gvk, t);
    if found.Some? && found.value.Strategy() == e.Strategy() then
      e.(sourceVersion := found.value.sourceVersion, syncedVersion := found.value.syncedVersion)
    else e
  }

  /** The list of expected destinations the difference loop builds. */
  function Planned(gvk: Gvk, targets: seq<Target>, tracked: seq<DestinationStatus>): (r: seq<DestinationStatus>)
    ensures |r| == |targets|
  {
    if targets == [] then []
    else
      var front := targets[..|targets| - 1];
      var t := targets[|targets| - 1];
      var k := Entry(gvk, t).Identity();
      var found := if k in TargetKeys(gvk, front) then None else FindTracked(tracked, k);
      Planned(gvk, front, tracked) + [Carried(gvk, t, found)]
  }

  lemma PlannedOfAppend(gvk: Gvk, targets: seq<Target>, t: Target, tracked: seq<DestinationStatus>)
    ensures
      var k := Entry(gvk, t).Identity();
      var found := if k in TargetKeys(gvk, targets) then None else FindTracked(tracked, k);
      Planned(gvk, targets + [t], tracked) == Planned(gvk, targets, tracked) + [Carried(gvk, t, found)]
  {
    assert (targets + [t])[..|targets|] == targets;
  }

  /** Whether a key occurred before, said by position. */
  lemma FirstOccurrence(gvk: Gvk, targets: seq<Target>, t: Target)
    ensures Entry(gvk, t).Identity() in TargetKeys(gvk, targets) <==>
            exists j :: 0 <= j < |targets| && targets[j].Place() == t.Place()
  {
    var k := Entry(gvk, t).Identity();
    if k in TargetKeys(gvk, targets) {
      var t' :| t' in targets && Entry(gvk, t').Identity() == k;
      var j :| 0 <= j < |targets| && targets[j] == t';
      assert targets[j].Place() == t.Place();
    }
    forall j | 0 <= j < |targets| && targets[j].Place() == t.Place() ensures k in TargetKeys(gvk, targets) {
      assert targets[j] in targets && Entry(gvk, targets[j]).Identity() == k;
    }
  }

  /** What an entry says of its target, field by field. */
  predicate EntryFor(e: DestinationStatus, gvk: Gvk, t: Target) {
    && e.name == t.name && e.namespace == t.namespace
    && e.group == gvk.group && e.version == gvk.version && e.kind == gvk.kind
    && e.strategy == t.strategy
  }

  /** Every position of the plan: the entry of its target, carrying revisions iff
      this is the first occurrence of the key, a tracked entry has that key, and
      both or neither are replaced. */
  lemma {:induction false} PlannedAt(gvk: Gvk, targets: seq<Target>, tracked: seq<DestinationStatus>, i: nat)
    requires i < |targets|
    ensures
      var e := Planned(gvk, targets, tracked)[i];
      var found := FindTracked(tracked, e.Identity());
      && e.Unversioned() == Entry(gvk, targets[i])
      && EntryFor(e, gvk, targets[i])
      && (if (forall j :: 0 <= j < i ==> targets[j].Place() != targets[i].Place())
             && found.Some? && (found.value.strategy == Some(Replace) <==> targets[i].strategy == Some(Replace))
          then e.sourceVersion == found.value.sourceVersion && e.syncedVersion == found.value.syncedVersion
          else e.sourceVersion == None && e.syncedVersion == None)
  {
    var n := |targets| - 1;
    var front := targets[..n];
    assert targets == front + [targets[n]];
    PlannedOfAppend(gvk, front, targets[n], tracked);
    if i < n {
      assert front[i] == targets[i];
      PlannedAt(gvk, front, tracked, i);
    } else {
      FirstOccurrence(gvk, front, targets[n]);
    }
  }

  lemma PlannedKeys(gvk: Gvk, targets: seq<Target>, tracked: seq<DestinationStatus>)
    ensures KeySet(Planned(gvk, targets, tracked)) == TargetKeys(gvk, targets)
  {
    var plan := Planned(gvk, targets, tracked);
    forall k ensures k in KeySet(plan) <==> k in TargetKeys(gvk, targets) {
      if k in KeySet(plan) {
        var i :| 0 <= i < |plan| && plan[i].Identity() == k;
        PlannedAt(gvk, targets, tracked, i);
        assert targets[i] in targets;
      }
      if k in TargetKeys(gvk, targets) {
        var i :| 0 <= i < |targets| && Entry(gvk, targets[i]).Identity() == k;
        PlannedAt(gvk, targets, tracked, i);
        assert plan[i] in plan;
      }
    }
  }

  /** What is left over and what is expected never share a key, whatever part of
      the left-overs survives its deletion, and together they cover what was tracked. */
  lemma DifferenceIsPartition(gvk: Gvk, targets: seq<Target>, tracked: seq<DestinationStatus>,
                              remnants: seq<DestinationStatus>)
    requires forall d :: d in remnants ==> d in Without(TargetKeys(gvk, targets), tracked)
    ensures KeySet(Planned(gvk, targets, tracked)) !! KeySet(remnants)
    ensures KeySet(tracked) <= KeySet(Planned(gvk, targets, tracked)) + KeySet(Without(TargetKeys(gvk, targets), tracked))
  {
    PlannedKeys(gvk, targets, tracked);
  }

  lemma {:induction false} WithoutTwice(keys: set<Key>, k: Key, s: seq<DestinationStatus>)
    ensures Without({k}, Without(keys, s)) == Without(keys + {k}, s)
  {
    if s != [] {
      var n := |s| - 1;
      WithoutTwice(keys, k, s[..n]);
      var front := Without(keys, s[..n]);
      assert (front + [s[n]])[..|front|] == front;
    }
  }

  lemma {:induction false} WithoutNothing(keys: set<Key>, s: seq<DestinationStatus>)
    requires KeySet(s) !! keys
    ensures Without(keys, s) == s
  {
    if s != [] {
      var n := |s| - 1;
      assert s == s[..n] + [s[n]];
      assert s[n].Identity() in KeySet(s);
      WithoutNothing(keys, s[..n]);
    }
  }

  lemma {:induction false} WithoutEverything(keys: set<Key>, s: seq<DestinationStatus>)
    requires KeySet(s) <= keys
    ensures Without(keys, s) == []
  {
    if s != [] {
      var n := |s| - 1;
      assert s == s[..n] + [s[n]];
      assert s[n].Identity() in KeySet(s);
      WithoutEverything(keys, s[..n]);
    }
  }

  lemma WithoutOfAppend(keys: set<Key>, s: seq<DestinationStatus>, d: DestinationStatus)
    ensures Without(keys, s + [d]) == if d.Identity() in keys then Without(keys, s) else Without(keys, s) + [d]
  {
    assert (s + [d])[..|s|] == s;
  }

  lemma {:induction false} FindInWithout(keys: set<Key>, k: Key, s: seq<DestinationStatus>)
    ensures FindTracked(Without(keys, s), k) == if k in keys then None else FindTracked(s, k)
  {
    if k in keys {
      assert k !in KeySet(Without(keys, s));
    } else if s != [] {
      var n := |s| - 1;
      assert s == s[..n] + [s[n]];
      FindInWithout(keys, k, s[..n]);
      FindInAppend(s[..n], s[n], k);
      WithoutOfAppend(keys, s[..n], s[n]);
      FindInAppend(Without(keys, s[..n]), s[n], k);
    }
  }

  lemma {:induction false} FindInAppend(s: seq<DestinationStatus>, d: DestinationStatus, k: Key)
    ensures FindTracked(s + [d], k) ==
            if FindTracked(s, k).Some? then FindTracked(s, k)
            else if d.Identity() == k then Some(d) else None
  {
    if s != [] {
      assert (s + [d])[1..] == s[1..] + [d];
      FindInAppend(s[1..], d, k);
    }
  }

  // ---------------------------------------------------------------------
  // Independence of the cache order

  function GroupTargets(targets: seq<Target>, p: NamespacedName): (r: seq<Target>)
    ensures forall t :: t in r <==> t in targets && t.Place() == p
  {
    if targets == [] then []
    else
      var front := GroupTargets(targets[..|targets| - 1], p);
      if targets[|targets| - 1].Place() == p then front + [targets[|targets| - 1]] else front
  }

  lemma {:induction false} GroupTargetsOfConcat(a: seq<Target>, b: seq<Target>, p: NamespacedName)
    ensures GroupTargets(a + b, p) == GroupTargets(a, p) + GroupTargets(b, p)
  {
    if b == [] {
      assert a + b == a;
    } else {
      assert (a + b)[..|a + b| - 1] == a + b[..|b| - 1];
      GroupTargetsOfConcat(a, b[..|b| - 1], p);
    }
  }

  lemma GroupTargetsOfAppend(targets: seq<Target>, t: Target, p: NamespacedName)
    ensures GroupTargets(targets + [t], p) == if t.Place() == p then GroupTargets(targets, p) + [t] else GroupTargets(targets, p)
  {
    assert (targets + [t])[..|targets|] == targets;
  }

  lemma {:induction false} AdmittedNowhere(d: Destination, obj: ObjectSync, cache: seq<Namespace>, p: NamespacedName)
    requires forall i | 0 <= i < |cache| :: cache[i].name != p.namespace
    ensures GroupTargets(Admitted(d, obj, cache), p) == []
  {
    if cache != [] {
      var n := |cache| - 1;
      AdmittedNowhere(d, obj, cache[..n], p);
      AdmittedStep(d, obj, cache[..n], cache[n], p);
      assert cache == cache[..n] + [cache[n]];
    }
  }

  /** What one more namespace adds at a place. */
  lemma AdmittedStep(d: Destination, obj: ObjectSync, cache: seq<Namespace>, ns: Namespace, p: NamespacedName)
    ensures GroupTargets(Admitted(d, obj, cache + [ns]), p) ==
            GroupTargets(Admitted(d, obj, cache), p)
            + if ns == Namespace(p.namespace, false) && d.AppliesTo(obj, p.namespace) == Some((p.namespace, p.name))
              then [Target(p.namespace, p.name, d.strategy)] else []
  {
    assert (cache + [ns])[..|cache|] == cache;
    var target := d.AppliesTo(obj, ns.name);
    if !ns.terminating && target.Some? {
      GroupTargetsOfAppend(Admitted(d, obj, cache), Target(ns.name, target.value.1, d.strategy), p);
    }
  }

  /** One spec entry contributes at most one target per place. */
  lemma {:induction false} AdmittedAtPlace(d: Destination, obj: ObjectSync, cache: seq<Namespace>, p: NamespacedName)
    requires DistinctNames(cache)
    ensures GroupTargets(Admitted(d, obj, cache), p) ==
            if Namespace(p.namespace, false) in cache && d.AppliesTo(obj, p.namespace) == Some((p.namespace, p.name))
            then [Target(p.namespace, p.name, d.strategy)] else []
  {
    if cache != [] {
      var n := |cache| - 1;
      assert cache == cache[..n] + [cache[n]];
      AdmittedStep(d, obj, cache[..n], cache[n], p);
      if cache[n].name == p.namespace {
        AdmittedNowhere(d, obj, cache[..n], p);
        assert Namespace(p.namespace, false) !in cache[..n];
      } else {
        AdmittedAtPlace(d, obj, cache[..n], p);
      }
    }
  }

  lemma {:induction false} ExpectedAtPlace(ds: seq<Destination>, obj: ObjectSync, c1: seq<Namespace>,
                                           c2: seq<Namespace>, p: NamespacedName)
    requires DistinctNames(c1) && DistinctNames(c2) && multiset(c1) == multiset(c2)
    ensures GroupTargets(ExpectedOf(ds, obj, c1), p) == GroupTargets(ExpectedOf(ds, obj, c2), p)
  {
    if ds != [] {
      var d := ds[|ds| - 1];
      ExpectedAtPlace(ds[..|ds| - 1], obj, c1, c2, p);
      EnumerationIsUniformFilter(d, obj, c1);
      EnumerationIsUniformFilter(d, obj, c2);
      AdmittedAtPlace(d, obj, c1, p);
      AdmittedAtPlace(d, obj, c2, p);
      var ns := Namespace(p.namespace, false);
      assert ns in c1 <==> ns in multiset(c1);
      assert ns in c2 <==> ns in multiset(c2);
      GroupTargetsOfConcat(ExpectedOf(ds[..|ds| - 1], obj, c1), TargetsOf(d, obj, c1), p);
      GroupTargetsOfConcat(ExpectedOf(ds[..|ds| - 1], obj, c2), TargetsOf(d, obj, c2), p);
    }
  }

  /** Whether a target's key occurred before shows at its own place. */
  lemma KeyAtPlace(gvk: Gvk, targets: seq<Target>, t: Target)
    ensures
      var k := Entry(gvk, t).Identity();
      k in TargetKeys(gvk, GroupTargets(targets, t.Place())) <==> k in TargetKeys(gvk, targets)
  {
    var k := Entry(gvk, t).Identity();
    if k in TargetKeys(gvk, targets) {
      var t' :| t' in targets && Entry(gvk, t').Identity() == k;
      assert t'.Place() == t.Place();
      assert t' in GroupTargets(targets, t.Place());
    }
  }

  lemma PlannedStepAtPlace(gvk: Gvk, targets: seq<Target>, t: Target, tracked: seq<DestinationStatus>, p: NamespacedName)
    requires Group(Planned(gvk, targets, tracked), p) == Planned(gvk, GroupTargets(targets, p), tracked)
    ensures Group(Planned(gvk, targets + [t], tracked), p) == Planned(gvk, GroupTargets(targets + [t], p), tracked)
  {
    var k := Entry(gvk, t).Identity();
    var found := if k in TargetKeys(gvk, targets) then None else FindTracked(tracked, k);
    PlannedOfAppend(gvk, targets, t, tracked);
    GroupTargetsOfAppend(targets, t, p);
    GroupOfAppend(Planned(gvk, targets, tracked), Carried(gvk, t, found), p);
    if t.Place() == p {
      KeyAtPlace(gvk, targets, t);
      PlannedOfAppend(gvk, GroupTargets(targets, p), t, tracked);
    }
  }

  /** The plan made for one place is the part of the whole plan at this place. */
  lemma {:induction false} PlannedAtPlace(gvk: Gvk, targets: seq<Target>, tracked: seq<DestinationStatus>, p: NamespacedName)
    ensures Group(Planned(gvk, targets, tracked), p) == Planned(gvk, GroupTargets(targets, p), tracked)
  {
    if targets != [] {
      var n := |targets| - 1;
      assert targets == targets[..n] + [targets[n]];
      PlannedAtPlace(gvk, targets[..n], tracked, p);
      PlannedStepAtPlace(gvk, targets[..n], targets[n], tracked, p);
    }
  }

  /** The list stored in the status, and the set of stale entries, do not depend
      on the order in which the cache enumerates its namespaces, even when spec
      destinations overlap. */
  lemma CacheOrderIndependence(gvk: Gvk, obj: ObjectSync, c1: seq<Namespace>, c2: seq<Namespace>,
                               tracked: seq<DestinationStatus>, remnants: seq<DestinationStatus>)
    requires DistinctNames(c1) && DistinctNames(c2) && multiset(c1) == multiset(c2)
    ensures Without(TargetKeys(gvk, Expected(obj, c1)), tracked) == Without(TargetKeys(gvk, Expected(obj, c2)), tracked)
    ensures StableSort(Planned(gvk, Expected(obj, c1), tracked) + remnants)
         == StableSort(Planned(gvk, Expected(obj, c2), tracked) + remnants)
  {
    var t1, t2 := Expected(obj, c1), Expected(obj, c2);
    var p1, p2 := Planned(gvk, t1, tracked), Planned(gvk, t2, tracked);
    forall p ensures Group(p1 + remnants, p) == Group(p2 + remnants, p) {
      ExpectedAtPlace(obj.spec.destinations, obj, c1, c2, p);
      PlannedAtPlace(gvk, t1, tracked, p);
      PlannedAtPlace(gvk, t2, tracked, p);
      GroupOfConcat(p1, remnants, p);
      GroupOfConcat(p2, remnants, p);
    }
    SortDependsOnGroups(p1 + remnants, p2 + remnants);
    forall k ensures k in TargetKeys(gvk, t1) <==> k in TargetKeys(gvk, t2) {
      var p := NamespacedName(k.namespace, k.name);
      ExpectedAtPlace(obj.spec.destinations, obj, c1, c2, p);
      KeyByPlace(gvk, t1, k);
      KeyByPlace(gvk, t2, k);
    }
    assert TargetKeys(gvk, t1) == TargetKeys(gvk, t2);
  }

  lemma KeyByPlace(gvk: Gvk, targets: seq<Target>, k: Key)
    ensures k in TargetKeys(gvk, targets) <==>
            k.group == gvk.group && k.kind == gvk.kind && GroupTargets(targets, NamespacedName(k.namespace, k.name)) != []
  {
    var g := GroupTargets(targets, NamespacedName(k.namespace, k.name));
    if k in TargetKeys(gvk, targets) {
      var t :| t in targets && Entry(gvk, t).Identity() == k;
      assert t in g;
    }
    if g != [] && k.group == gvk.group && k.kind == gvk.kind {
      assert g[0] in g;
      assert Entry(gvk, g[0]).Identity() == k;
    }
  }

  // ---------------------------------------------------------------------
  // A settled list reproduces itself

  ghost predicate DistinctTargets(targets: seq<Target>) {
    forall i, j :: 0 <= i < j < |targets| ==> targets[i].Place() != targets[j].Place()
  }

  /** A list with all recorded revisions forgotten. */
  function Plain(s: seq<DestinationStatus>): (r: seq<DestinationStatus>)
    ensures |r| == |s| && forall i :: 0 <= i < |s| ==> r[i] == s[i].Unversioned()
  {
    seq(|s|, i requires 0 <= i < |s| => s[i].Unversioned())
  }

  lemma {:induction false} PlainGroup(s: seq<DestinationStatus>, p: NamespacedName)
    ensures Plain(Group(s, p)) == Group(Plain(s), p)
  {
    if s != [] {
      PlainGroup(s[..|s| - 1], p);
      assert Plain(s)[..|s| - 1] == Plain(s[..|s| - 1]);
    }
  }

  lemma {:induction false} AtMostOnePerPlace(targets: seq<Target>, p: NamespacedName)
    requires DistinctTargets(targets)
    ensures |GroupTargets(targets, p)| <= 1
  {
    if targets != [] {
      var n := |targets| - 1;
      AtMostOnePerPlace(targets[..n], p);
      var g := GroupTargets(targets[..n], p);
      if g != [] {
        assert g[0] in targets[..n];
        var j :| 0 <= j < n && targets[j] == g[0];
      }
    }
  }

  /** What the plan stores, once its revisions have been filled in, is planned
      again unchanged, with nothing left over. */
  lemma StoredListIsFixpoint(gvk: Gvk, targets: seq<Target>, tracked: seq<DestinationStatus>, stored: seq<DestinationStatus>)
    requires DistinctTargets(targets)
    requires Plain(stored) == Plain(StableSort(Planned(gvk, targets, tracked)))
    ensures StableSort(Planned(gvk, targets, stored)) == stored
    ensures Without(TargetKeys(gvk, targets), stored) == []
  {
    var sorted := StableSort(Planned(gvk, targets, tracked));
    StableSortSpec(Planned(gvk, targets, tracked));
    assert Sorted(stored) by {
      forall i, j | 0 <= i < j < |stored| ensures PlaceLeq(Place(stored[i]), Place(stored[j])) {
        assert Plain(stored)[i] == Plain(sorted)[i] && Plain(stored)[j] == Plain(sorted)[j];
        assert Place(stored[i]) == Place(sorted[i]) && Place(stored[j]) == Place(sorted[j]);
      }
    }
    forall p ensures Group(Planned(gvk, targets, stored), p) == Group(stored, p) {
      StoredAtPlace(gvk, targets, tracked, stored, p);
    }
    StableSortSpec(Planned(gvk, targets, stored));
    SameGroupsTransitive(StableSort(Planned(gvk, targets, stored)), Planned(gvk, targets, stored), stored);
    SortedIsDetermined(StableSort(Planned(gvk, targets, stored)), stored);
    forall d | d in stored ensures d.Identity() in TargetKeys(gvk, targets) {
      var i :| 0 <= i < |stored| && stored[i] == d;
      assert Plain(stored)[i] == Plain(sorted)[i];
      assert sorted[i] in multiset(sorted);
      assert sorted[i] in Planned(gvk, targets, tracked);
      PlannedKeys(gvk, targets, tracked);
      assert sorted[i].Identity() in KeySet(Planned(gvk, targets, tracked));
    }
    WithoutEverything(TargetKeys(gvk, targets), stored);
  }

  lemma SameGroupsTransitive(a: seq<DestinationStatus>, b: seq<DestinationStatus>, c: seq<DestinationStatus>)
    requires SameGroups(a, b) && SameGroups(b, c)
    ensures SameGroups(a, c)
  {
    forall p ensures Group(a, p) == Group(c, p) {
      assert Group(a, p) == Group(b, p) == Group(c, p);
    }
  }

  /** At a place with one target, what is stored there is what is planned again. */
  lemma SingleReproduces(gvk: Gvk, t: Target, stored: seq<DestinationStatus>)
    requires |Group(stored, t.Place())| == 1 && Group(stored, t.Place())[0].Unversioned() == Entry(gvk, t)
    ensures Planned(gvk, [t], stored) == Group(stored, t.Place())
  {
    var g := Group(stored, t.Place());
    assert g == [g[0]] && g[0] in g;
    var k := Entry(gvk, t).Identity();
    assert g[0].Identity() == k && k in KeySet(stored);
    var found := FindTracked(stored, k);
    assert Place(found.value) == t.Place() && found.value in g;
    PlannedOfAppend(gvk, [], t, stored);
    assert [] + [t] == [t];
  }

  lemma StoredAtPlace(gvk: Gvk, targets: seq<Target>, tracked: seq<DestinationStatus>, stored: seq<DestinationStatus>,
                      p: NamespacedName)
    requires DistinctTargets(targets)
    requires Plain(stored) == Plain(StableSort(Planned(gvk, targets, tracked)))
    ensures Group(Planned(gvk, targets, stored), p) == Group(stored, p)
  {
    var sorted := StableSort(Planned(gvk, targets, tracked));
    var ts, g := GroupTargets(targets, p), Group(stored, p);
    PlannedAtPlace(gvk, targets, stored, p);
    AtMostOnePerPlace(targets, p);
    assert Plain(g) == Plain(Planned(gvk, ts, tracked)) by {
      StableSortSpec(Planned(gvk, targets, tracked));
      assert Group(sorted, p) == Group(Planned(gvk, targets, tracked), p);
      PlannedAtPlace(gvk, targets, tracked, p);
      PlainGroup(stored, p);
      PlainGroup(sorted, p);
    }
    if ts != [] {
      var t := ts[0];
      assert t in ts && ts == [t];
      PlannedAt(gvk, ts, tracked, 0);
      assert Plain(g)[0] == Entry(gvk, t);
      SingleReproduces(gvk, t, stored);
    }
  }
}
