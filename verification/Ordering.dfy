/** The order on tracked destinations, which looks at (namespace, name) only,
    and the stable sort built on it. */
module Ordering {
  import opened Apis

  predicate TextLeq(a: string, b: string) {
    if a == [] then true
    else if b == [] then false
    else if a[0] != b[0] then a[0] < b[0]
    else TextLeq(a[1..], b[1..])
  }

  lemma {:induction a, b} TextTotal(a: string, b: string)
    ensures TextLeq(a, b) || TextLeq(b, a)
    ensures TextLeq(a, b) && TextLeq(b, a) ==> a == b
  {
    if a != [] && b != [] && a[0] == b[0] {
      TextTotal(a[1..], b[1..]);
      assert a == [a[0]] + a[1..] && b == [b[0]] + b[1..];
    }
  }

  lemma {:induction false} TextTransitive(a: string, b: string, c: string)
    requires TextLeq(a, b) && TextLeq(b, c)
    ensures TextLeq(a, c)
  {
    if a != [] && b != [] && c != [] && a[0] == b[0] == c[0] {
      TextTransitive(a[1..], b[1..], c[1..]);
    }
  }

  /** The lexicographic order of texts, spelled out: a prefix comes first, and otherwise
      the first characters that differ decide. */
  predicate Lexicographic(a: string, b: string) {
    a <= b || exists n | 0 <= n < |a| && n < |b| :: a[..n] == b[..n] && a[n] < b[n]
  }

  lemma {:induction false} TextLeqMeans(a: string, b: string)
    ensures TextLeq(a, b) <==> Lexicographic(a, b)
  {
    if a != [] && b != [] && a[0] == b[0] {
      TextLeqMeans(a[1..], b[1..]);
      assert a == [a[0]] + a[1..] && b == [b[0]] + b[1..];
      if n :| 0 <= n < |a[1..]| && n < |b[1..]| && a[1..][..n] == b[1..][..n] && a[1..][n] < b[1..][n] {
        assert a[..n + 1] == [a[0]] + a[1..][..n] && b[..n + 1] == [b[0]] + b[1..][..n];
        assert a[n + 1] < b[n + 1];
      }
      if n :| 0 <= n < |a| && n < |b| && a[..n] == b[..n] && a[n] < b[n] {
        assert n > 0;
        assert a[1..][..n - 1] == a[..n][1..] && b[1..][..n - 1] == b[..n][1..];
        assert a[1..][n - 1] < b[1..][n - 1];
      }
    }
  }

  /** The pair the order compares. */
  function Place(d: DestinationStatus): NamespacedName {
    NamespacedName(d.namespace, d.name)
  }

  predicate PlaceLeq(a: NamespacedName, b: NamespacedName) {
    if a.namespace == b.namespace then TextLeq(a.name, b.name) else TextLeq(a.namespace, b.namespace)
  }

  /** Entries in order: by namespace, and within a namespace by name. */
  predicate InOrder(a: DestinationStatus, b: DestinationStatus) {
    if a.namespace == b.namespace then Lexicographic(a.name, b.name) else Lexicographic(a.namespace, b.namespace)
  }

  lemma PlaceOrder(a: NamespacedName, b: NamespacedName)
    ensures PlaceLeq(a, b) || PlaceLeq(b, a)
    ensures PlaceLeq(a, b) && PlaceLeq(b, a) ==> a == b
  {
    TextTotal(a.namespace, b.namespace);
    TextTotal(a.name, b.name);
  }

  lemma PlaceTransitive(a: NamespacedName, b: NamespacedName, c: NamespacedName)
    requires PlaceLeq(a, b) && PlaceLeq(b, c)
    ensures PlaceLeq(a, c)
  {
    TextTotal(a.namespace, b.namespace);
    if a.namespace == b.namespace == c.namespace {
      TextTransitive(a.name, b.name, c.name);
    } else if a.namespace != b.namespace && b.namespace != c.namespace {
      TextTransitive(a.namespace, b.namespace, c.namespace);
    }
  }

  ghost predicate Sorted(s: seq<DestinationStatus>) {
    forall i, j :: 0 <= i < j < |s| ==> PlaceLeq(Place(s[i]), Place(s[j]))
  }

  /** `x` goes after every element that is not greater. */
  function Insert(s: seq<DestinationStatus>, x: DestinationStatus): seq<DestinationStatus> {
    if s == [] || PlaceLeq(Place(s[|s| - 1]), Place(x)) then s + [x]
    else Insert(s[..|s| - 1], x) + [s[|s| - 1]]
  }

  function StableSort(s: seq<DestinationStatus>): seq<DestinationStatus> {
    if s == [] then [] else Insert(StableSort(s[..|s| - 1]), s[|s| - 1])
  }

  /** The entries at one place, in their order. */
  function Group(s: seq<DestinationStatus>, p: NamespacedName): (r: seq<DestinationStatus>)
    ensures forall d :: d in r <==> d in s && Place(d) == p
  {
    if s == [] then []
    else
      var rest := Group(s[..|s| - 1], p);
      if Place(s[|s| - 1]) == p then rest + [s[|s| - 1]] else rest
  }

  lemma {:induction false} GroupOfConcat(a: seq<DestinationStatus>, b: seq<DestinationStatus>, p: NamespacedName)
    ensures Group(a + b, p) == Group(a, p) + Group(b, p)
  {
    if b == [] {
      assert a + b == a;
    } else {
      assert (a + b)[..|a + b| - 1] == a + b[..|b| - 1];
      GroupOfConcat(a, b[..|b| - 1], p);
    }
  }

  lemma {:induction false} InsertSorts(s: seq<DestinationStatus>, x: DestinationStatus)
    requires Sorted(s)
    ensures Sorted(Insert(s, x))
    ensures multiset(Insert(s, x)) == multiset(s) + multiset{x}
  {
    if s != [] {
      var last := s[|s| - 1];
      assert s == s[..|s| - 1] + [last];
      if PlaceLeq(Place(last), Place(x)) {
        forall i | 0 <= i < |s| ensures PlaceLeq(Place(s[i]), Place(x)) {
          if i < |s| - 1 { PlaceTransitive(Place(s[i]), Place(last), Place(x)); }
        }
      } else {
        var front := Insert(s[..|s| - 1], x);
        InsertSorts(s[..|s| - 1], x);
        PlaceOrder(Place(last), Place(x));
        forall i | 0 <= i < |front| ensures PlaceLeq(Place(front[i]), Place(last)) {
          assert front[i] in multiset(front);
          assert front[i] in s[..|s| - 1] || front[i] == x;
        }
      }
    }
  }

  lemma {:induction false} InsertIsStable(s: seq<DestinationStatus>, x: DestinationStatus, p: NamespacedName)
    requires Sorted(s)
    ensures Group(Insert(s, x), p) == Group(s + [x], p)
  {
    var n := |s| - 1;
    assert (s + [x])[..|s|] == s;
    if s != [] && !PlaceLeq(Place(s[n]), Place(x)) {
      var front := Insert(s[..n], x);
      assert (front + [s[n]])[..|front|] == front;
      assert (s[..n] + [x])[..n] == s[..n];
      InsertIsStable(s[..n], x, p);
      PlaceOrder(Place(s[n]), Place(x));
    }
  }

  /** At every place the two lists hold the same entries in the same order. */
  ghost predicate SameGroups(a: seq<DestinationStatus>, b: seq<DestinationStatus>) {
    forall p :: Group(a, p) == Group(b, p)
  }

  lemma GroupOfAppend(s: seq<DestinationStatus>, x: DestinationStatus, p: NamespacedName)
    ensures Group(s + [x], p) == if Place(x) == p then Group(s, p) + [x] else Group(s, p)
  {
    assert (s + [x])[..|s|] == s;
  }

  /** Sorting sorts, and is stable: at every place the entries keep their order. */
  lemma {:induction false} StableSortSpec(s: seq<DestinationStatus>)
    ensures Sorted(StableSort(s))
    ensures multiset(StableSort(s)) == multiset(s)
    ensures SameGroups(StableSort(s), s)
  {
    if s != [] {
      var n := |s| - 1;
      var x := s[n];
      var front := StableSort(s[..n]);
      StableSortSpec(s[..n]);
      InsertSorts(front, x);
      assert s == s[..n] + [x];
      forall p ensures Group(Insert(front, x), p) == Group(s, p) {
        InsertIsStable(front, x, p);
        GroupOfAppend(front, x, p);
        GroupOfAppend(s[..n], x, p);
      }
      assert StableSort(s) == Insert(front, x);
    }
  }

  /** The sorted list in the terms of its entries: namespaces ascend, and names within them. */
  lemma SortedInOrder(s: seq<DestinationStatus>)
    ensures
      var sorted := StableSort(s);
      |sorted| == |s| && forall i, j | 0 <= i < j < |s| :: InOrder(sorted[i], sorted[j])
  {
    var sorted := StableSort(s);
    StableSortSpec(s);
    assert |multiset(sorted)| == |multiset(s)|;
    forall i, j | 0 <= i < j < |s| ensures InOrder(sorted[i], sorted[j]) {
      TextLeqMeans(sorted[i].name, sorted[j].name);
      TextLeqMeans(sorted[i].namespace, sorted[j].namespace);
    }
  }

  lemma SortedEndTogether(a: seq<DestinationStatus>, b: seq<DestinationStatus>)
    requires Sorted(a) && Sorted(b) && SameGroups(a, b) && a != []
    ensures b != [] && a[|a| - 1] == b[|b| - 1]
  {
    var x := a[|a| - 1];
    assert Group(a, Place(x)) == Group(b, Place(x));
    assert x in Group(b, Place(x));
    var y := b[|b| - 1];
    assert Group(a, Place(y)) == Group(b, Place(y));
    assert y in Group(a, Place(y));
    LastIsGreatest(a, y);
    LastIsGreatest(b, x);
    PlaceOrder(Place(x), Place(y));
    var g := Group(a, Place(x));
    assert g[|g| - 1] == x && g[|g| - 1] == y;
  }

  lemma SameGroupsDropLast(a: seq<DestinationStatus>, b: seq<DestinationStatus>, x: DestinationStatus)
    requires SameGroups(a + [x], b + [x])
    ensures SameGroups(a, b)
  {
    forall p ensures Group(a, p) == Group(b, p) {
      var ga, gb := Group(a, p), Group(b, p);
      assert Group(a + [x], p) == Group(b + [x], p);
      GroupOfAppend(a, x, p);
      GroupOfAppend(b, x, p);
      if p == Place(x) {
        assert ga == (ga + [x])[..|ga|] && gb == (gb + [x])[..|gb|];
      }
    }
  }

  /** A sorted list is determined by what it holds at each place. */
  lemma {:induction false} SortedIsDetermined(a: seq<DestinationStatus>, b: seq<DestinationStatus>)
    requires Sorted(a) && Sorted(b) && SameGroups(a, b)
    ensures a == b
  {
    if a != [] {
      SortedEndTogether(a, b);
      var a', b', x := a[..|a| - 1], b[..|b| - 1], a[|a| - 1];
      assert a == a' + [x] && b == b' + [x];
      SameGroupsDropLast(a', b', x);
      SortedIsDetermined(a', b');
    } else if b != [] {
      SortedEndTogether(b, a);
      assert false;
    }
  }

  lemma LastIsGreatest(s: seq<DestinationStatus>, d: DestinationStatus)
    requires Sorted(s) && d in s
    ensures PlaceLeq(Place(d), Place(s[|s| - 1]))
  {
    PlaceOrder(Place(d), Place(d));
    var i :| 0 <= i < |s| && s[i] == d;
    if i < |s| - 1 {
      assert PlaceLeq(Place(s[i]), Place(s[|s| - 1]));
    }
  }

  /** The sorted list depends only on what stands at each place. */
  lemma SortDependsOnGroups(a: seq<DestinationStatus>, b: seq<DestinationStatus>)
    requires SameGroups(a, b)
    ensures StableSort(a) == StableSort(b)
  {
    var sa, sb := StableSort(a), StableSort(b);
    StableSortSpec(a);
    StableSortSpec(b);
    forall p ensures Group(sa, p) == Group(sb, p) {
      assert Group(sa, p) == Group(a, p) == Group(b, p) == Group(sb, p);
    }
    SortedIsDetermined(sa, sb);
  }
}
