/** The registry of sub-controllers: one reference-counted ResourceController per
    group, version and kind, each with an index from source objects to ObjectSyncs. */
module Registries {
  import opened Common
  import opened Apis
  import opened Lookups

  /** A ResourceController; `strong` counts the references that keep it alive. */
  datatype Controller = Controller(gvk: Gvk, sources: SourceIndex, strong: nat)

  /** A registration; dropping the last reference to it deregisters. */
  datatype Handle = Handle(controller: nat, src: NamespacedName, crd: NamespacedName, count: nat)

  /** An ObjectSyncInstance: it shares a controller and a handle. */
  datatype Instance = Instance(controller: nat, handle: nat, gvk: Gvk)

  /** Who holds an instance: the table of instances, or a clone made by a running check. */
  datatype Holder = Holder(ref: NamespacedName, clone: bool)

  // ---------------------------------------------------------------------
  // The index of one controller

  predicate Enrolled(sources: SourceIndex, src: NamespacedName, crd: NamespacedName) {
    src in sources && crd in sources[src]
  }

  predicate NoneEmpty(sources: SourceIndex) {
    forall src | src in sources :: sources[src] != {}
  }

  function Enrol(sources: SourceIndex, src: NamespacedName, crd: NamespacedName): (r: SourceIndex)
    ensures forall s, x :: Enrolled(r, s, x) <==> Enrolled(sources, s, x) || (s == src && x == crd)
    ensures NoneEmpty(sources) ==> NoneEmpty(r)
  {
    sources[src := (if src in sources then sources[src] else {}) + {crd}]
  }

  function Strike(sources: SourceIndex, src: NamespacedName, crd: NamespacedName): (r: SourceIndex)
    ensures forall s, x :: Enrolled(r, s, x) <==> Enrolled(sources, s, x) && !(s == src && x == crd)
    ensures NoneEmpty(sources) ==> NoneEmpty(r)
  {
    if src !in sources then sources
    else
      var crds := sources[src] - {crd};
      assert forall x | x in sources[src] :: x == crd || x in crds;
      if crds == {} then sources - {src} else sources[src := crds]
  }

  /** Dropping an old handle after registering anew erases the new registration
      exactly if both are for the same source at the same controller. */
  lemma LateDropErasesIff(sources: SourceIndex, was: NamespacedName, src: NamespacedName, crd: NamespacedName)
    ensures Enrolled(Strike(Enrol(sources, src, crd), was, crd), src, crd) <==> was != src
  {
  }

  // ---------------------------------------------------------------------
  // Consistency

  type Controllers = map<nat, Controller>
  type Handles = map<nat, Handle>
  type Holders = map<Holder, Instance>

  /** All there is: controllers (stopped ones have no strong reference), referenced
      handles, the weak references by resource, and who holds which instance. `lost`
      are the handles whose registration was struck when another handle for the same
      registration was dropped. */
  datatype Books = Books(controllers: Controllers, handles: Handles, weak: map<Gvk, nat>, holders: Holders, lost: set<nat>) {
    function Holding(h: nat): set<Holder> {
      set x | x in holders && holders[x].handle == h
    }

    function Using(c: nat): set<Holder> {
      set x | x in holders && holders[x].controller == c
    }

    /** The handles for the same registration. */
    function Twins(h: nat): set<nat>
      requires h in handles
    {
      set g | g in handles && Names(handles[g], handles[h].controller, handles[h].src, handles[h].crd)
    }

    predicate Held(x: Holder) {
      && x in holders
      && holders[x].controller in controllers && holders[x].handle in handles
      && controllers[holders[x].controller].strong > 0 && handles[holders[x].handle].count > 0
    }

    /** The holder gives its instance up. */
    function Without(x: Holder): Books
      requires Held(x)
    {
      var i := holders[x];
      var c, h := controllers[i.controller], handles[i.handle];
      Books(controllers[i.controller :=
              c.(strong := c.strong - 1, sources := if h.count == 1 then Strike(c.sources, h.src, h.crd) else c.sources)],
            if h.count == 1 then handles - {i.handle} else handles[i.handle := h.(count := h.count - 1)],
            weak, holders - {x},
            if h.count == 1 then lost + Twins(i.handle) - {i.handle} else lost)
    }

    /** A holder clones its instance for another. */
    function Cloned(x: Holder, y: Holder): Books
      requires Held(x)
    {
      var i := holders[x];
      var c, h := controllers[i.controller], handles[i.handle];
      Books(controllers[i.controller := c.(strong := c.strong + 1)],
            handles[i.handle := h.(count := h.count + 1)],
            weak, holders[y := i], lost)
    }

    /** A controller is started. */
    function Started(c: nat, gvk: Gvk): Books {
      Books(controllers[c := Controller(gvk, map[], 0)], handles, weak[gvk := c], holders, lost)
    }

    /** A holder gets an instance with a new handle `h`, registered at controller `c`. */
    function With(x: Holder, c: nat, h: nat, src: NamespacedName): Books
      requires c in controllers
    {
      var d := controllers[c];
      Books(controllers[c := d.(strong := d.strong + 1, sources := Enrol(d.sources, src, x.ref))],
            handles[h := Handle(c, src, x.ref, 1)],
            weak, holders[x := Instance(c, h, d.gvk)], lost)
    }
  }

  predicate Names(h: Handle, c: nat, src: NamespacedName, crd: NamespacedName) {
    h.controller == c && h.src == src && h.crd == crd
  }

  /** Some handle stands for the registration. */
  predicate Handled(handles: Handles, lost: set<nat>, c: nat, src: NamespacedName, crd: NamespacedName) {
    exists h :: h in handles && h !in lost && Names(handles[h], c, src, crd)
  }

  /** Every instance shares a controller and a handle that fit each other. */
  ghost predicate Fitting(b: Books) {
    forall x | x in b.holders ::
      var i := b.holders[x];
      && i.handle in b.handles && i.controller in b.controllers
      && b.handles[i.handle].crd == x.ref && b.handles[i.handle].controller == i.controller
      && b.controllers[i.controller].gvk == i.gvk
  }

  /** The same of the books: a new instance `x` has been registered, and the clone `y`,
      the last to refer to the old handle, is given up. */
  lemma CloneDropErasesIff(b: Books, x: Holder, y: Holder, c: nat, h: nat, src: NamespacedName)
    requires Fitting(b) && b.Held(y) && x != y && x.ref == y.ref
    requires c in b.controllers && h !in b.handles && b.handles[b.holders[y].handle].count == 1
    ensures b.With(x, c, h, src).Held(y)
    ensures Enrolled(b.With(x, c, h, src).Without(y).controllers[c].sources, src, x.ref) <==>
            !(b.holders[y].controller == c && b.handles[b.holders[y].handle].src == src)
  {
    var was := b.handles[b.holders[y].handle].src;
    LateDropErasesIff(b.controllers[c].sources, was, src, x.ref);
  }

  /** Reference counts are right, and a handle lives only while it is referenced. */
  ghost predicate Counted(b: Books) {
    && (forall h | h in b.handles :: b.handles[h].count == |b.Holding(h)| > 0 && b.handles[h].controller in b.controllers)
    && (forall c | c in b.controllers :: b.controllers[c].strong == |b.Using(c)|)
  }

  /** The indexes list exactly what handles stand for. */
  ghost predicate Indexed(b: Books) {
    && b.lost <= b.handles.Keys
    && (forall c | c in b.controllers :: NoneEmpty(b.controllers[c].sources))
    && (forall c, src, crd | c in b.controllers ::
          Enrolled(b.controllers[c].sources, src, crd) <==> Handled(b.handles, b.lost, c, src, crd))
  }

  /** A live controller is the one its entry refers to. */
  ghost predicate Reachable(b: Books) {
    && (forall gvk | gvk in b.weak :: b.weak[gvk] in b.controllers && b.controllers[b.weak[gvk]].gvk == gvk)
    && (forall c | c in b.controllers && b.controllers[c].strong > 0 ::
          b.controllers[c].gvk in b.weak && b.weak[b.controllers[c].gvk] == c)
  }

  ghost predicate Consistent(b: Books) {
    forall i: int {:trigger Unfold(i)} :: Unfold(i) ==> ConsistentParts(i, b)
  }

  ghost predicate ConsistentParts(i: int, b: Books) {
    Fitting(b) && Counted(b) && Indexed(b) && Reachable(b)
  }

  lemma HolderIsHeld(b: Books, x: Holder)
    requires Consistent(b) && x in b.holders
    ensures b.Held(x)
    ensures b.handles[b.holders[x].handle].crd == x.ref && b.handles[b.holders[x].handle].controller == b.holders[x].controller
    ensures b.controllers[b.holders[x].controller].gvk == b.holders[x].gvk
  {
    assert Unfold(0);
    assert x in b.Using(b.holders[x].controller);
  }

  // ---------------------------------------------------------------------
  // Giving an instance up

  lemma HolderGone(b: Books, b': Books, x: Holder, h: nat)
    requires x in b.holders && b'.holders == b.holders - {x}
    ensures |b'.Holding(h)| == |b.Holding(h)| - if b.holders[x].handle == h then 1 else 0
  {
    assert b'.Holding(h) == b.Holding(h) - {x};
  }

  lemma UserGone(b: Books, b': Books, x: Holder, c: nat)
    requires x in b.holders && b'.holders == b.holders - {x}
    ensures |b'.Using(c)| == |b.Using(c)| - if b.holders[x].controller == c then 1 else 0
  {
    assert b'.Using(c) == b.Using(c) - {x};
  }

  lemma {:induction false} SubsetSize<T>(a: set<T>, b: set<T>)
    requires a <= b
    ensures |a| <= |b|
  {
    if a != {} {
      var x :| x in a;
      SubsetSize(a - {x}, b - {x});
    }
  }

  lemma DropCounted(b: Books, x: Holder)
    requires Consistent(b) && b.Held(x)
    ensures Counted(b.Without(x))
  {
    assert Counted(b) by { assert Unfold(0); }
    var b' := b.Without(x);
    forall h | h in b'.handles ensures b'.handles[h].count == |b'.Holding(h)| > 0 && b'.handles[h].controller in b'.controllers {
      HolderGone(b, b', x, h);
    }
    forall c | c in b'.controllers ensures b'.controllers[c].strong == |b'.Using(c)| {
      UserGone(b, b', x, c);
    }
  }

  lemma SharedHandle(b: Books, x: Holder, y: Holder)
    requires Consistent(b) && x in b.holders && y in b.holders && x != y && b.holders[x].handle == b.holders[y].handle
    ensures b.holders[x].handle in b.handles && b.handles[b.holders[x].handle].count > 1
  {
    assert Counted(b) && Fitting(b) by { assert Unfold(0); }
    assert |{x, y}| == 2;
    SubsetSize({x, y}, b.Holding(b.holders[x].handle));
  }

  lemma DropFitting(b: Books, x: Holder)
    requires Consistent(b) && b.Held(x)
    ensures Fitting(b.Without(x)) && Reachable(b.Without(x))
  {
    assert Fitting(b) && Reachable(b) by { assert Unfold(0); }
    forall y | y in b.holders && y != x && b.holders[y].handle == b.holders[x].handle
      ensures b.handles[b.holders[x].handle].count > 1
    {
      SharedHandle(b, x, y);
    }
  }

  lemma DropIndexed(b: Books, x: Holder)
    requires Consistent(b) && b.Held(x)
    ensures Indexed(b.Without(x))
  {
    HolderIsHeld(b, x);
    assert Indexed(b) by { assert Unfold(0); }
    var b' := b.Without(x);
    forall c, src, crd | c in b'.controllers
      ensures Enrolled(b'.controllers[c].sources, src, crd) <==> Handled(b'.handles, b'.lost, c, src, crd)
    {
      if Handled(b'.handles, b'.lost, c, src, crd) {
        var h :| h in b'.handles && h !in b'.lost && Names(b'.handles[h], c, src, crd);
        assert Names(b.handles[h], c, src, crd);
      }
      if Handled(b.handles, b.lost, c, src, crd) {
        var h :| h in b.handles && h !in b.lost && Names(b.handles[h], c, src, crd);
        assert h in b'.handles ==> Names(b'.handles[h], c, src, crd);
      }
    }
  }

  /** Giving an instance up keeps the books consistent; the last reference to a
      handle takes its registration off the index. */
  lemma DropConsistent(b: Books, x: Holder)
    requires Consistent(b) && b.Held(x)
    ensures Consistent(b.Without(x))
  {
    DropCounted(b, x);
    DropFitting(b, x);
    DropIndexed(b, x);
  }

  // ---------------------------------------------------------------------
  // Sharing an instance

  lemma HolderCame(b: Books, b': Books, x: Holder, i: Instance, h: nat)
    requires x !in b.holders && b'.holders == b.holders[x := i]
    ensures |b'.Holding(h)| == |b.Holding(h)| + if i.handle == h then 1 else 0
  {
    if i.handle == h {
      assert b'.Holding(h) == b.Holding(h) + {x};
    } else {
      assert b'.Holding(h) == b.Holding(h);
    }
  }

  lemma UserCame(b: Books, b': Books, x: Holder, i: Instance, c: nat)
    requires x !in b.holders && b'.holders == b.holders[x := i]
    ensures |b'.Using(c)| == |b.Using(c)| + if i.controller == c then 1 else 0
  {
    if i.controller == c {
      assert b'.Using(c) == b.Using(c) + {x};
    } else {
      assert b'.Using(c) == b.Using(c);
    }
  }

  lemma CloneCounted(b: Books, x: Holder, y: Holder)
    requires Consistent(b) && b.Held(x) && y !in b.holders
    ensures Counted(b.Cloned(x, y))
  {
    assert Counted(b) by { assert Unfold(0); }
    var i, b' := b.holders[x], b.Cloned(x, y);
    forall g | g in b'.handles ensures b'.handles[g].count == |b'.Holding(g)| > 0 && b'.handles[g].controller in b'.controllers {
      HolderCame(b, b', y, i, g);
    }
    forall d | d in b'.controllers ensures b'.controllers[d].strong == |b'.Using(d)| {
      UserCame(b, b', y, i, d);
    }
  }

  lemma CloneFitting(b: Books, x: Holder, y: Holder)
    requires Consistent(b) && b.Held(x) && y.ref == x.ref
    ensures Fitting(b.Cloned(x, y)) && Reachable(b.Cloned(x, y))
  {
    assert Fitting(b) && Reachable(b) by { assert Unfold(0); }
  }

  lemma CloneIndexed(b: Books, x: Holder, y: Holder)
    requires Consistent(b) && b.Held(x)
    ensures Indexed(b.Cloned(x, y))
  {
    assert Indexed(b) by { assert Unfold(0); }
    var b' := b.Cloned(x, y);
    forall c, src, crd | c in b.controllers
      ensures Enrolled(b'.controllers[c].sources, src, crd) <==> Handled(b'.handles, b.lost, c, src, crd)
    {
      if Handled(b'.handles, b.lost, c, src, crd) {
        var h :| h in b'.handles && h !in b.lost && Names(b'.handles[h], c, src, crd);
        assert Names(b.handles[h], c, src, crd);
      }
      if Handled(b.handles, b.lost, c, src, crd) {
        var h :| h in b.handles && h !in b.lost && Names(b.handles[h], c, src, crd);
        assert Names(b'.handles[h], c, src, crd);
      }
    }
  }

  lemma CloneConsistent(b: Books, x: Holder, y: Holder)
    requires Consistent(b) && b.Held(x) && y !in b.holders && y.ref == x.ref
    ensures Consistent(b.Cloned(x, y))
  {
    CloneCounted(b, x, y);
    CloneFitting(b, x, y);
    CloneIndexed(b, x, y);
  }

  // ---------------------------------------------------------------------
  // New controllers and registrations

  lemma StartCounted(b: Books, c: nat, gvk: Gvk)
    requires Consistent(b) && c !in b.controllers
    ensures Counted(b.Started(c, gvk))
  {
    assert Counted(b) && Fitting(b) by { assert Unfold(0); }
    var b' := b.Started(c, gvk);
    assert b.Using(c) == {};
    forall h | h in b'.handles ensures b'.handles[h].count == |b'.Holding(h)| > 0 {
      assert b'.Holding(h) == b.Holding(h);
    }
    forall d | d in b'.controllers ensures b'.controllers[d].strong == |b'.Using(d)| {
      assert b'.Using(d) == b.Using(d);
    }
  }

  lemma StartFitting(b: Books, c: nat, gvk: Gvk)
    requires Consistent(b) && c !in b.controllers
    requires gvk in b.weak && b.weak[gvk] in b.controllers ==> b.controllers[b.weak[gvk]].strong == 0
    ensures Fitting(b.Started(c, gvk)) && Reachable(b.Started(c, gvk))
  {
    assert Fitting(b) && Reachable(b) by { assert Unfold(0); }
  }

  lemma StartIndexed(b: Books, c: nat, gvk: Gvk)
    requires Consistent(b) && c !in b.controllers
    ensures Indexed(b.Started(c, gvk))
  {
    assert Counted(b) && Indexed(b) by { assert Unfold(0); }
    forall src, crd ensures !Handled(b.handles, b.lost, c, src, crd) {
      assert forall h | h in b.handles :: b.handles[h].controller != c;
    }
  }

  /** A controller is started where no live one serves the resource. */
  lemma StartConsistent(b: Books, c: nat, gvk: Gvk)
    requires Consistent(b) && c !in b.controllers
    requires gvk in b.weak && b.weak[gvk] in b.controllers ==> b.controllers[b.weak[gvk]].strong == 0
    ensures Consistent(b.Started(c, gvk))
  {
    StartCounted(b, c, gvk);
    StartIndexed(b, c, gvk);
    StartFitting(b, c, gvk);
  }

  lemma EnrolCounted(b: Books, x: Holder, c: nat, h: nat, src: NamespacedName)
    requires Consistent(b) && x !in b.holders && c in b.controllers && h !in b.handles
    ensures Counted(b.With(x, c, h, src))
  {
    assert Fitting(b) && Counted(b) by { assert Unfold(0); }
    var b' := b.With(x, c, h, src);
    assert b.Holding(h) == {};
    forall g | g in b'.handles ensures b'.handles[g].count == |b'.Holding(g)| > 0 && b'.handles[g].controller in b'.controllers {
      HolderCame(b, b', x, b'.holders[x], g);
    }
    forall e | e in b'.controllers ensures b'.controllers[e].strong == |b'.Using(e)| {
      UserCame(b, b', x, b'.holders[x], e);
    }
  }

  /** Every handle stands for a registration some holder has. */
  lemma HandleHasHolder(b: Books, h: nat) returns (x: Holder)
    requires Consistent(b) && h in b.handles
    ensures x in b.holders && b.holders[x].handle == h && x.ref == b.handles[h].crd
  {
    assert Counted(b) && Fitting(b) by { assert Unfold(0); }
    assert b.Holding(h) != {};
    x :| x in b.Holding(h);
  }

  lemma EnrolIndexed(b: Books, x: Holder, c: nat, h: nat, src: NamespacedName)
    requires Consistent(b) && c in b.controllers && h !in b.handles
    ensures Indexed(b.With(x, c, h, src))
  {
    assert Indexed(b) by { assert Unfold(0); }
    var b' := b.With(x, c, h, src);
    assert h !in b'.lost;
    forall e, s, r | e in b'.controllers
      ensures Enrolled(b'.controllers[e].sources, s, r) <==> Handled(b'.handles, b'.lost, e, s, r)
    {
      if Handled(b'.handles, b'.lost, e, s, r) {
        var g :| g in b'.handles && g !in b'.lost && Names(b'.handles[g], e, s, r);
        assert g != h ==> Names(b.handles[g], e, s, r);
      }
      if Handled(b.handles, b.lost, e, s, r) {
        var g :| g in b.handles && g !in b.lost && Names(b.handles[g], e, s, r);
        assert Names(b'.handles[g], e, s, r);
      }
      assert Names(b'.handles[h], c, src, x.ref);
    }
  }

  lemma EnrolFitting(b: Books, x: Holder, c: nat, h: nat, src: NamespacedName)
    requires Consistent(b) && x !in b.holders && h !in b.handles
    requires c in b.controllers && b.controllers[c].gvk in b.weak && b.weak[b.controllers[c].gvk] == c
    ensures Fitting(b.With(x, c, h, src)) && Reachable(b.With(x, c, h, src))
  {
    assert Fitting(b) && Reachable(b) by { assert Unfold(0); }
  }

  /** A new registration keeps the books consistent. */
  lemma EnrolConsistent(b: Books, x: Holder, c: nat, h: nat, src: NamespacedName)
    requires Consistent(b) && x !in b.holders && h !in b.handles
    requires c in b.controllers && b.controllers[c].gvk in b.weak && b.weak[b.controllers[c].gvk] == c
    ensures Consistent(b.With(x, c, h, src))
  {
    EnrolCounted(b, x, c, h, src);
    EnrolIndexed(b, x, c, h, src);
    EnrolFitting(b, x, c, h, src);
  }

  // ---------------------------------------------------------------------
  // What consistent books mean

  /** What a registration is for. */
  datatype Binding = Binding(gvk: Gvk, src: NamespacedName)

  /** `m` says what each holder's instance is registered for, `erased` whose
      registration is lost. */
  ghost predicate Bound(b: Books, m: map<Holder, Binding>, erased: set<Holder>) {
    forall i: int {:trigger Unfold(i)} :: Unfold(i) ==> BoundTo(i, b, m, erased)
  }

  ghost predicate BoundTo(i: int, b: Books, m: map<Holder, Binding>, erased: set<Holder>) {
    && m.Keys == b.holders.Keys && erased <= m.Keys
    && forall x | x in b.holders ::
         && b.holders[x].handle in b.handles
         && m[x] == Binding(b.holders[x].gvk, b.handles[b.holders[x].handle].src)
         && (x in erased <==> b.holders[x].handle in b.lost)
  }

  predicate Alive(b: Books, c: nat) {
    c in b.controllers && b.controllers[c].strong > 0
  }

  /** The index of the live controller of a resource; empty if there is none. */
  function SourcesOf(b: Books, gvk: Gvk): SourceIndex {
    if gvk in b.weak && Alive(b, b.weak[gvk]) then b.controllers[b.weak[gvk]].sources else map[]
  }

  /** The indexes are the exact inverse of what is registered and not lost. */
  lemma IndexIsInverse(b: Books, m: map<Holder, Binding>, erased: set<Holder>, gvk: Gvk, src: NamespacedName,
                       crd: NamespacedName)
    requires Consistent(b) && Bound(b, m, erased)
    ensures NoneEmpty(SourcesOf(b, gvk))
    ensures Enrolled(SourcesOf(b, gvk), src, crd) <==>
            exists clone :: Holder(crd, clone) in m && Holder(crd, clone) !in erased && m[Holder(crd, clone)] == Binding(gvk, src)
  {
    assert Fitting(b) && Indexed(b) && Reachable(b) && BoundTo(0, b, m, erased) by { assert Unfold(0); }
    if Enrolled(SourcesOf(b, gvk), src, crd) {
      var c := b.weak[gvk];
      var h :| h in b.handles && h !in b.lost && Names(b.handles[h], c, src, crd);
      var x := HandleHasHolder(b, h);
      assert x == Holder(crd, x.clone) && x in m;
    }
    forall clone | Holder(crd, clone) in m && Holder(crd, clone) !in erased && m[Holder(crd, clone)] == Binding(gvk, src)
      ensures Enrolled(SourcesOf(b, gvk), src, crd)
    {
      HolderIsHeld(b, Holder(crd, clone));
      var i := b.holders[Holder(crd, clone)];
      assert Names(b.handles[i.handle], i.controller, src, crd);
    }
  }

  /** There is at most one live controller per resource, and it is live exactly if
      some instance refers to it. */
  lemma OneLiveController(b: Books, c: nat, d: nat)
    requires Consistent(b)
    ensures Alive(b, c) && Alive(b, d) && b.controllers[c].gvk == b.controllers[d].gvk ==> c == d
    ensures Alive(b, c) <==> exists x :: x in b.holders && b.holders[x].controller == c
  {
    assert Counted(b) && Reachable(b) by { assert Unfold(0); }
    if Alive(b, c) {
      assert b.Using(c) != {};
      var x :| x in b.Using(c);
    }
    forall x | x in b.holders && b.holders[x].controller == c ensures Alive(b, c) {
      HolderIsHeld(b, x);
    }
  }

  // ---------------------------------------------------------------------
  // The registry itself

  ghost predicate Numbered(b: Books, next: nat) {
    forall id | id in b.controllers || id in b.handles :: id < next
  }

  /** The table of instances is what is held without being a clone. */
  ghost predicate Tabled(instances: map<NamespacedName, Instance>, holders: Holders) {
    && (forall ref :: ref in instances <==> Holder(ref, false) in holders)
    && (forall ref | ref in instances :: holders[Holder(ref, false)] == instances[ref])
  }

  /** The registry's invariant. */
  ghost predicate InOrder(b: Books, m: map<Holder, Binding>, erased: set<Holder>,
                          instances: map<NamespacedName, Instance>, next: nat) {
    forall i: int {:trigger Unseal(i)} :: Unseal(i) ==> InOrderParts(i, b, m, erased, instances, next)
  }

  ghost predicate InOrderParts(i: int, b: Books, m: map<Holder, Binding>, erased: set<Holder>,
                               instances: map<NamespacedName, Instance>, next: nat) {
    Consistent(b) && Bound(b, m, erased) && Numbered(b, next) && Tabled(instances, b.holders)
  }

  /** Whose registration a drop by `x` loses: a holder for the same ObjectSync with
      another handle for the same registration. */
  ghost function Victims(b: Books, m: map<Holder, Binding>, x: Holder): set<Holder> {
    if x !in b.holders || x !in m then {}
    else set y | y in b.holders && y in m && y.ref == x.ref && b.holders[y].handle != b.holders[x].handle && m[y] == m[x]
  }

  /** The holders for one ObjectSync: its instance and the clone of a running check. */
  lemma LastReference(b: Books, x: Holder, y: Holder)
    requires Consistent(b) && x in b.holders && y in b.holders && y.ref == x.ref && y != x
    ensures b.Held(x) && b.Held(y)
    ensures b.handles[b.holders[x].handle].count == 1 <==> b.holders[y].handle != b.holders[x].handle
  {
    HolderIsHeld(b, x);
    HolderIsHeld(b, y);
    if b.holders[y].handle == b.holders[x].handle {
      SharedHandle(b, x, y);
    } else {
      assert Fitting(b) && Counted(b) by { assert Unfold(0); }
      forall z | z in b.Holding(b.holders[x].handle) ensures z == x {
        assert z.ref == x.ref && x == Holder(x.ref, x.clone) && y == Holder(x.ref, y.clone) && z == Holder(x.ref, z.clone);
      }
      assert b.Holding(b.holders[x].handle) == {x};
    }
  }

  lemma DropBindings(b: Books, x: Holder, m: map<Holder, Binding>, erased: set<Holder>)
    requires Consistent(b) && x in b.holders && b.Held(x) && Bound(b, m, erased)
    ensures m.Keys == b.holders.Keys
    ensures Bound(b.Without(x), m - {x}, erased + Victims(b, m, x) - {x})
  {
    var b', m', erased' := b.Without(x), m - {x}, erased + Victims(b, m, x) - {x};
    BoundKeys(b, m, erased);
    assert BoundTo(0, b', m', erased') by {
      assert BoundTo(0, b, m, erased) by { assert Unfold(0); }
      forall y | y in b'.holders
        ensures b'.holders[y].handle in b'.handles
        ensures m'[y] == Binding(b'.holders[y].gvk, b'.handles[b'.holders[y].handle].src)
        ensures y in erased' <==> b'.holders[y].handle in b'.lost
      {
        DropKeepsBinding(b, x, y, m, erased);
      }
    }
  }

  /** What dropping `x` leaves of another holder's binding. */
  lemma DropKeepsBinding(b: Books, x: Holder, y: Holder, m: map<Holder, Binding>, erased: set<Holder>)
    requires Consistent(b) && b.Held(x) && y in b.holders && y != x && Bound(b, m, erased)
    ensures
      var b' := b.Without(x);
      && m.Keys == b.holders.Keys
      && b'.holders[y] == b.holders[y] && b'.holders[y].handle in b'.handles
      && m[y] == Binding(b'.holders[y].gvk, b'.handles[b'.holders[y].handle].src)
      && (y in erased + Victims(b, m, x) - {x} <==> b'.holders[y].handle in b'.lost)
  {
    assert BoundTo(0, b, m, erased) by { assert Unfold(0); }
    DropFitting(b, x);
    DropLoses(b, x, y, m, erased);
  }

  /** Whether dropping `x` loses the registration of `y`. */
  lemma DropLoses(b: Books, x: Holder, y: Holder, m: map<Holder, Binding>, erased: set<Holder>)
    requires Consistent(b) && b.Held(x) && y in b.holders && y != x && Bound(b, m, erased)
    ensures m.Keys == b.holders.Keys
    ensures b.holders[y].handle in b.Without(x).lost <==> y in erased || y in Victims(b, m, x)
  {
    assert BoundTo(0, b, m, erased) by { assert Unfold(0); }
    HolderIsHeld(b, x);
    HolderIsHeld(b, y);
    if y.ref == x.ref {
      LastReference(b, x, y);
      SameControllerIff(b, x, y);
    }
  }

  /** There is one live controller per resource. */
  lemma SameControllerIff(b: Books, x: Holder, y: Holder)
    requires Consistent(b) && x in b.holders && y in b.holders
    ensures b.holders[x].controller == b.holders[y].controller <==> b.holders[x].gvk == b.holders[y].gvk
  {
    HolderIsHeld(b, x);
    HolderIsHeld(b, y);
    assert Reachable(b) by { assert Unfold(0); }
  }

  lemma CloneBindings(b: Books, x: Holder, y: Holder, m: map<Holder, Binding>, erased: set<Holder>)
    requires b.Held(x) && y !in b.holders && Bound(b, m, erased)
    ensures x in m && m[x] == Binding(b.holders[x].gvk, b.handles[b.holders[x].handle].src)
    ensures Bound(b.Cloned(x, y), m[y := m[x]], if x in erased then erased + {y} else erased)
  {
    assert BoundTo(0, b, m, erased) by { assert Unfold(0); }
  }

  lemma BoundKeys(b: Books, m: map<Holder, Binding>, erased: set<Holder>)
    requires Bound(b, m, erased)
    ensures m.Keys == b.holders.Keys && erased <= m.Keys
  {
    assert BoundTo(0, b, m, erased) by { assert Unfold(0); }
  }

  lemma StartBindings(b: Books, c: nat, gvk: Gvk, m: map<Holder, Binding>, erased: set<Holder>)
    requires Bound(b, m, erased)
    ensures Bound(b.Started(c, gvk), m, erased)
  {
    assert BoundTo(0, b, m, erased) by { assert Unfold(0); }
  }

  lemma EnrolBindings(b: Books, x: Holder, c: nat, h: nat, src: NamespacedName, m: map<Holder, Binding>, erased: set<Holder>)
    requires Bound(b, m, erased) && c in b.controllers && h !in b.handles && h !in b.lost && x !in b.holders
    ensures Bound(b.With(x, c, h, src), m[x := Binding(b.controllers[c].gvk, src)], erased)
  {
    assert BoundTo(0, b, m, erased) by { assert Unfold(0); }
  }

  lemma EnterInOrder(b: Books, m: map<Holder, Binding>, erased: set<Holder>, instances: map<NamespacedName, Instance>,
                     next: nat,
                     ref: NamespacedName, c: nat, gvk: Gvk, src: NamespacedName)
    requires InOrder(b, m, erased, instances, next) && ref !in instances
    requires c in b.controllers && b.controllers[c].gvk == gvk && gvk in b.weak && b.weak[gvk] == c
    ensures InOrder(b.With(Holder(ref, false), c, next, src), m[Holder(ref, false) := Binding(gvk, src)], erased,
                    instances[ref := Instance(c, next, gvk)], next + 1)
    ensures next !in b.handles
  {
    var x := Holder(ref, false);
    assert InOrderParts(0, b, m, erased, instances, next) by { assert Unseal(0); }
    BoundKeys(b, m, erased);
    assert next !in b.handles;
    assert next !in b.lost by { assert Unfold(0); }
    EnrolConsistent(b, x, c, next, src);
    EnrolBindings(b, x, c, next, src, m, erased);
    assert Numbered(b.With(x, c, next, src), next + 1);
  }

  lemma StartInOrder(b: Books, m: map<Holder, Binding>, erased: set<Holder>, instances: map<NamespacedName, Instance>,
                     next: nat, gvk: Gvk)
    requires InOrder(b, m, erased, instances, next)
    requires gvk in b.weak ==> !Alive(b, b.weak[gvk])
    ensures next !in b.controllers
    ensures InOrder(b.Started(next, gvk), m, erased, instances, next + 1)
  {
    assert InOrderParts(0, b, m, erased, instances, next) by { assert Unseal(0); }
    StartConsistent(b, next, gvk);
    StartBindings(b, next, gvk, m, erased);
  }

  lemma CloneInOrder(b: Books, m: map<Holder, Binding>, erased: set<Holder>, instances: map<NamespacedName, Instance>,
                     next: nat, ref: NamespacedName)
    requires InOrder(b, m, erased, instances, next) && ref in instances && Holder(ref, true) !in b.holders
    ensures
      var x, y := Holder(ref, false), Holder(ref, true);
      && b.Held(x) && b.holders[x] == instances[ref]
      && x in m && m[x] == Binding(instances[ref].gvk, b.handles[instances[ref].handle].src)
      && InOrder(b.Cloned(x, y), m[y := m[x]], if x in erased then erased + {y} else erased, instances, next)
  {
    assert InOrderParts(0, b, m, erased, instances, next) by { assert Unseal(0); }
    HolderIsHeld(b, Holder(ref, false));
    CloneConsistent(b, Holder(ref, false), Holder(ref, true));
    CloneBindings(b, Holder(ref, false), Holder(ref, true), m, erased);
  }

  lemma DropInOrder(b: Books, m: map<Holder, Binding>, erased: set<Holder>, instances: map<NamespacedName, Instance>,
                    next: nat, x: Holder)
    requires InOrder(b, m, erased, instances, next) && x in b.holders
    ensures m.Keys == b.holders.Keys
    ensures b.Held(x) && (!x.clone ==> x.ref in instances && b.holders[x] == instances[x.ref])
    ensures InOrder(b.Without(x), m - {x}, erased + Victims(b, m, x) - {x}, if x.clone then instances else instances - {x.ref}, next)
  {
    assert InOrderParts(0, b, m, erased, instances, next) by { assert Unseal(0); }
    HolderIsHeld(b, x);
    DropConsistent(b, x);
    DropBindings(b, x, m, erased);
    DropTabled(instances, b.holders, x);
    assert Numbered(b.Without(x), next);
  }

  lemma DropTabled(instances: map<NamespacedName, Instance>, holders: Holders, x: Holder)
    requires Tabled(instances, holders) && x in holders
    ensures !x.clone ==> x.ref in instances && holders[x] == instances[x.ref]
    ensures Tabled(if x.clone then instances else instances - {x.ref}, holders - {x})
  {
    assert x == Holder(x.ref, x.clone);
  }

  lemma OrderMeans(b: Books, m: map<Holder, Binding>, erased: set<Holder>, instances: map<NamespacedName, Instance>,
                   next: nat)
    requires InOrder(b, m, erased, instances, next)
    ensures Consistent(b) && Bound(b, m, erased)
    ensures m.Keys == b.holders.Keys && erased <= m.Keys
    ensures forall ref :: ref in instances <==> Holder(ref, false) in m
    ensures forall ref | ref in instances :: b.holders[Holder(ref, false)] == instances[ref]
    ensures forall x | x in b.holders :: b.holders[x].handle in b.handles
    ensures forall gvk | gvk in b.weak :: b.weak[gvk] in b.controllers && b.controllers[b.weak[gvk]].gvk == gvk
  {
    assert InOrderParts(0, b, m, erased, instances, next) by { assert Unseal(0); }
    assert Reachable(b) && BoundTo(0, b, m, erased) by { assert Unfold(0); }
  }

  /** Between checks, when no clones are out: an ObjectSync is in the index for a source
      at the live controller for a resource exactly if its instance is registered for
      them and not lost; no set is empty; and a controller is live exactly if some
      instance refers to it. */
  lemma IndexBetweenChecks(b: Books, m: map<Holder, Binding>, erased: set<Holder>,
                           instances: map<NamespacedName, Instance>, next: nat,
                           gvk: Gvk, src: NamespacedName, crd: NamespacedName, c: nat)
    requires InOrder(b, m, erased, instances, next) && forall x | x in m :: !x.clone
    ensures Enrolled(SourcesOf(b, gvk), src, crd) <==>
            Holder(crd, false) in m && m[Holder(crd, false)] == Binding(gvk, src) && Holder(crd, false) !in erased
    ensures NoneEmpty(SourcesOf(b, gvk))
    ensures Alive(b, c) <==> exists ref :: ref in instances && instances[ref].controller == c
  {
    OrderMeans(b, m, erased, instances, next);
    IndexIsInverse(b, m, erased, gvk, src, crd);
    OneLiveController(b, c, c);
    if Alive(b, c) {
      var x :| x in b.holders && b.holders[x].controller == c;
      assert x in m && x == Holder(x.ref, false);
    }
  }

  class Registry {
    /** All controllers ever started and all handles still referenced. */
    var controllers: Controllers
    var handles: Handles
    var next: nat

    /** Weak references: an entry may refer to a stopped controller. */
    var resourceControllers: map<Gvk, nat>
    var instances: map<NamespacedName, Instance>

    /** Who holds instances: the table above and running checks. */
    ghost var holders: Holders
    ghost var lost: set<nat>
    /** What these instances are registered for, and whose registration is lost. */
    ghost var registrations: map<Holder, Binding>
    ghost var erased: set<Holder>

    ghost function Content(): Books
      reads this
    {
      Books(controllers, handles, resourceControllers, holders, lost)
    }

    /** The index the live controller of a resource works with. */
    function Sources(gvk: Gvk): (r: SourceIndex)
      reads this
      ensures r == SourcesOf(Content(), gvk)
    {
      if gvk in resourceControllers && resourceControllers[gvk] in controllers && controllers[resourceControllers[gvk]].strong > 0 then
        controllers[resourceControllers[gvk]].sources
      else map[]
    }

    /** No check is running. */
    ghost predicate AtRest()
      reads this
    {
      Valid() && forall x | x in registrations :: !x.clone
    }

    ghost predicate Valid()
      reads this
    {
      InOrder(Content(), registrations, erased, instances, next)
    }

    constructor ()
      ensures AtRest() && instances == map[] && holders == map[] && registrations == map[] && erased == {}
    {
      controllers, handles, next := map[], map[], 0;
      resourceControllers, instances := map[], map[];
      holders, lost, registrations, erased := map[], {}, map[], {};
    }

    /** Drop one reference to an instance, and with the last one its registration. */
    method Drop(ghost x: Holder, i: Instance)
      requires Content().Held(x) && holders[x] == i
      modifies `controllers, `handles, `holders, `lost, `registrations, `erased
      ensures Content() == old(Content()).Without(x)
      ensures registrations == old(registrations) - {x}
      ensures erased == old(erased + Victims(Content(), registrations, x)) - {x}
    {
      ghost var victims := Victims(Content(), registrations, x);
      var c, h := controllers[i.controller], handles[i.handle];
      if h.count == 1 {
        controllers := controllers[i.controller := c.(strong := c.strong - 1, sources := Strike(c.sources, h.src, h.crd))];
        lost := lost + Content().Twins(i.handle) - {i.handle};
        handles := handles - {i.handle};
      } else {
        controllers := controllers[i.controller := c.(strong := c.strong - 1)];
        handles := handles[i.handle := h.(count := h.count - 1)];
      }
      holders, registrations, erased := holders - {x}, registrations - {x}, erased + victims - {x};
    }

    /** Remove an ObjectSync from the table of instances. */
    method Remove(ref: NamespacedName) returns (gvk: Option<Gvk>)
      requires Valid()
      modifies this
      ensures Valid()
      ensures gvk.Some? <==> old(ref in instances)
      ensures instances == old(instances) - {ref}
      ensures holders == old(holders) - {Holder(ref, false)}
      ensures registrations == old(registrations) - {Holder(ref, false)}
      ensures erased == old(erased + Victims(Content(), registrations, Holder(ref, false))) - {Holder(ref, false)}
    {
      OrderMeans(Content(), registrations, erased, instances, next);
      gvk := None;
      if ref in instances {
        DropInOrder(Content(), registrations, erased, instances, next, Holder(ref, false));
        var i := instances[ref];
        instances := instances - {ref};
        Drop(Holder(ref, false), i);
        gvk := Some(i.gvk);
      }
    }

    /** Start a controller where no live one serves the resource. A weak reference to
        a stopped controller is replaced, never used again. */
    method Start(gvk: Gvk) returns (c: nat)
      requires Valid()
      requires gvk in resourceControllers ==> !Alive(Content(), resourceControllers[gvk])
      modifies `controllers, `next, `resourceControllers
      ensures Valid() && c !in old(controllers)
      ensures Content() == old(Content()).Started(c, gvk)
    {
      StartInOrder(Content(), registrations, erased, instances, next, gvk);
      c := next;
      controllers := controllers[c := Controller(gvk, map[], 0)];
      resourceControllers := resourceControllers[gvk := c];
      next := next + 1;
    }

    /** The controller to register with: the live one, or else a new one. */
    method Serve(gvk: Gvk) returns (c: nat)
      requires Valid()
      modifies `controllers, `next, `resourceControllers
      ensures Valid()
      ensures c in controllers && controllers[c].gvk == gvk && gvk in resourceControllers && resourceControllers[gvk] == c
      ensures Alive(old(Content()), c) || c !in old(controllers)
    {
      OrderMeans(Content(), registrations, erased, instances, next);
      if gvk in resourceControllers && controllers[resourceControllers[gvk]].strong > 0 {
        c := resourceControllers[gvk];
      } else {
        c := Start(gvk);
      }
    }

    /** The controller registers the ObjectSync and hands out a new handle for it. */
    method Register(ref: NamespacedName, src: NamespacedName, c: nat) returns (h: nat)
      requires c in controllers
      modifies `controllers, `handles, `next, `holders, `registrations
      ensures h == old(next) && next == h + 1
      ensures Content() == old(Content()).With(Holder(ref, false), c, h, src)
      ensures registrations == old(registrations)[Holder(ref, false) := Binding(controllers[c].gvk, src)]
    {
      h := next;
      next := next + 1;
      var d := controllers[c];
      controllers := controllers[c := d.(strong := d.strong + 1, sources := Enrol(d.sources, src, ref))];
      handles := handles[h := Handle(c, src, ref, 1)];
      holders := holders[Holder(ref, false) := Instance(c, h, d.gvk)];
      registrations := registrations[Holder(ref, false) := Binding(d.gvk, src)];
    }

    /** Register an ObjectSync, not in the table, for a source and put it into the
        table, with a handle of its own. */
    method Add(ref: NamespacedName, src: NamespacedName, gvk: Gvk)
      requires Valid() && ref !in instances
      modifies this
      ensures Valid()
      ensures instances.Keys == old(instances.Keys) + {ref}
      ensures holders == old(holders)[Holder(ref, false) := instances[ref]]
      ensures registrations == old(registrations)[Holder(ref, false) := Binding(gvk, src)]
      ensures erased == old(erased)
      ensures instances[ref].handle !in old(handles)
      ensures Alive(old(Content()), instances[ref].controller) || instances[ref].controller !in old(controllers)
    {
      var c := Serve(gvk);
      Enter(ref, src, c, gvk);
    }

    /** Register an ObjectSync with a controller and put it into the table. */
    method Enter(ref: NamespacedName, src: NamespacedName, c: nat, gvk: Gvk)
      requires Valid() && ref !in instances
      requires c in controllers && controllers[c].gvk == gvk && gvk in resourceControllers && resourceControllers[gvk] == c
      modifies `controllers, `handles, `next, `instances, `holders, `registrations
      ensures Valid()
      ensures instances.Keys == old(instances.Keys) + {ref}
      ensures instances[ref].controller == c && instances[ref].handle !in old(handles)
      ensures holders == old(holders)[Holder(ref, false) := instances[ref]]
      ensures registrations == old(registrations)[Holder(ref, false) := Binding(gvk, src)]
    {
      EnterInOrder(Content(), registrations, erased, instances, next, ref, c, gvk, src);
      var h := Register(ref, src, c);
      instances := instances[ref := Instance(c, h, gvk)];
    }

    /** What a check looks up: a clone of the instance, which shares its handle. */
    method Lookup(ref: NamespacedName) returns (active: Option<Instance>)
      requires Valid() && Holder(ref, true) !in holders
      modifies `controllers, `handles, `holders, `registrations, `erased
      ensures Valid()
      ensures active.Some? <==> ref in instances
      ensures active.Some? ==>
                && active.value == instances[ref] && active.value.handle in handles
                && holders == old(holders)[Holder(ref, true) := active.value]
                && var binding := Binding(active.value.gvk, handles[active.value.handle].src);
                   && Holder(ref, false) in old(registrations) && old(registrations)[Holder(ref, false)] == binding
                   && registrations == old(registrations)[Holder(ref, true) := binding]
                   && erased == if Holder(ref, false) in old(erased) then old(erased) + {Holder(ref, true)} else old(erased)
      ensures active.None? ==> registrations == old(registrations) && holders == old(holders) && erased == old(erased)
    {
      active := None;
      if ref in instances {
        CloneInOrder(Content(), registrations, erased, instances, next, ref);
        ghost var after := Content().Cloned(Holder(ref, false), Holder(ref, true));
        var i := instances[ref];
        var c, h := controllers[i.controller], handles[i.handle];
        controllers := controllers[i.controller := c.(strong := c.strong + 1)];
        handles := handles[i.handle := h.(count := h.count + 1)];
        holders, registrations := holders[Holder(ref, true) := i], registrations[Holder(ref, true) := Binding(i.gvk, h.src)];
        erased := if Holder(ref, false) in erased then erased + {Holder(ref, true)} else erased;
        assert Content() == after;
        active := Some(i);
      }
    }

    /** The end of a check drops its clone. */
    method Release(ref: NamespacedName, active: Instance)
      requires Valid() && Holder(ref, true) in holders && holders[Holder(ref, true)] == active
      modifies `controllers, `handles, `holders, `lost, `registrations, `erased
      ensures Valid()
      ensures holders == old(holders) - {Holder(ref, true)}
      ensures registrations == old(registrations) - {Holder(ref, true)}
      ensures erased == old(erased + Victims(Content(), registrations, Holder(ref, true))) - {Holder(ref, true)}
    {
      DropInOrder(Content(), registrations, erased, instances, next, Holder(ref, true));
      Drop(Holder(ref, true), active);
    }

    /** An ObjectSync that is being deleted leaves the table; no check of it is running. */
    method Leave(ref: NamespacedName)
      requires Valid() && Holder(ref, true) !in holders
      modifies this
      ensures Valid() && Holder(ref, true) !in holders
      ensures instances == old(instances) - {ref}
      ensures registrations == old(registrations) - {Holder(ref, false)}
      ensures erased == old(erased) - {Holder(ref, false)}
    {
      forall y | y in holders && y.ref == ref ensures y == Holder(ref, false) {
        assert y == Holder(ref, y.clone);
      }
      NoVictims(Content(), registrations, Holder(ref, false));
      var _ := Remove(ref);
    }

    /** A moving check registers anew while it still holds a clone of the instance it
        has removed; dropping the clone loses the new registration exactly if both
        are for the same source and resource. */
    method Reregister(ref: NamespacedName, src: NamespacedName, gvk: Gvk, active: Instance)
      requires Valid() && ref !in instances
      requires Holder(ref, true) in holders && holders[Holder(ref, true)] == active
      modifies this
      ensures Valid() && Holder(ref, true) in old(registrations)
      ensures instances.Keys == old(instances.Keys) + {ref}
      ensures Holder(ref, true) !in holders && Holder(ref, false) in holders
      ensures registrations == old(registrations)[Holder(ref, false) := Binding(gvk, src)] - {Holder(ref, true)}
      ensures Holder(ref, false) !in old(erased)
      ensures erased == (if old(registrations)[Holder(ref, true)] == Binding(gvk, src)
                         then old(erased) + {Holder(ref, false)} else old(erased)) - {Holder(ref, true)}
    {
      OrderMeans(Content(), registrations, erased, instances, next);
      Add(ref, src, gvk);
      ghost var x := Holder(ref, true);
      assert Victims(Content(), registrations, x) ==
             if registrations[x] == Binding(gvk, src) then {Holder(ref, false)} else {} by {
        forall y | y in Victims(Content(), registrations, x) ensures y == Holder(ref, false) {
          assert y == Holder(ref, y.clone);
        }
      }
      Release(ref, active);
    }

    /** A moving check removes the instance it holds a clone of: the registration stays. */
    method Detach(ref: NamespacedName, active: Instance)
      requires Valid() && Holder(ref, false) in holders && Holder(ref, true) in holders
      requires holders[Holder(ref, false)] == holders[Holder(ref, true)] == active
      modifies this
      ensures Valid() && ref !in instances
      ensures ref in old(instances) && instances == old(instances) - {ref}
      ensures holders == old(holders) - {Holder(ref, false)}
      ensures Holder(ref, true) in old(registrations)
      ensures registrations == old(registrations) - {Holder(ref, false)}
      ensures erased == old(erased) - {Holder(ref, false)}
    {
      OrderMeans(Content(), registrations, erased, instances, next);
      NoVictims(Content(), registrations, Holder(ref, false));
      var _ := Remove(ref);
    }

    /** The end of a check that leaves no instance behind. */
    method Forget(ref: NamespacedName, active: Instance)
      requires Valid() && ref !in instances
      requires Holder(ref, true) in holders && holders[Holder(ref, true)] == active
      modifies `controllers, `handles, `holders, `lost, `registrations, `erased
      ensures Valid() && Holder(ref, true) !in holders
      ensures registrations == old(registrations) - {Holder(ref, true)}
      ensures erased == old(erased) - {Holder(ref, true)}
    {
      OrderMeans(Content(), registrations, erased, instances, next);
      NoVictims(Content(), registrations, Holder(ref, true));
      Release(ref, active);
    }

    /** The end of a moving check: registered anew if what it made is gone, else left
        unregistered. */
    method Conclude(ref: NamespacedName, ok: bool, src: NamespacedName, gvk: Gvk, active: Instance)
      requires Valid() && ref !in instances
      requires Holder(ref, true) in holders && holders[Holder(ref, true)] == active
      modifies this
      ensures Valid() && Holder(ref, true) in old(registrations) && Holder(ref, true) !in holders
      ensures instances.Keys == if ok then old(instances.Keys) + {ref} else old(instances.Keys)
      ensures
        var x, y := Holder(ref, false), Holder(ref, true);
        && x !in old(erased)
        && registrations == (if ok then old(registrations)[x := Binding(gvk, src)] else old(registrations)) - {y}
        && erased == (if ok && old(registrations)[y] == Binding(gvk, src) then old(erased) + {x} else old(erased)) - {y}
    {
      OrderMeans(Content(), registrations, erased, instances, next);
      if ok {
        Reregister(ref, src, gvk, active);
      } else {
        Forget(ref, active);
      }
    }

    /** The end of a check that keeps the instance. */
    method Keep(ref: NamespacedName, active: Instance)
      requires Valid() && Holder(ref, false) in holders && Holder(ref, true) in holders
      requires holders[Holder(ref, false)] == holders[Holder(ref, true)] == active
      modifies `controllers, `handles, `holders, `lost, `registrations, `erased
      ensures Valid() && Holder(ref, true) !in holders
      ensures registrations == old(registrations) - {Holder(ref, true)}
      ensures erased == old(erased) - {Holder(ref, true)}
    {
      OrderMeans(Content(), registrations, erased, instances, next);
      NoVictims(Content(), registrations, Holder(ref, true));
      Release(ref, active);
    }
  }

  /** A drop loses nobody's registration if whoever else holds an instance for the
      ObjectSync shares its handle. */
  lemma NoVictims(b: Books, m: map<Holder, Binding>, x: Holder)
    requires forall y | y in b.holders && y.ref == x.ref && x in b.holders :: b.holders[y].handle == b.holders[x].handle
    ensures Victims(b, m, x) == {}
  {
  }
}
