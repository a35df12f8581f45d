// sort.SliceStable: what it promises determines its result.

module Sorting {

  /** A comparator a Go sort accepts. */
  ghost predicate StrictWeak<T(!new)>(less: (T, T) -> bool) {
    && (forall a :: !less(a, a))
    && (forall a, b, c :: less(a, b) && less(b, c) ==> less(a, c))
    && (forall a, b, c :: Alike(less, a, b) && Alike(less, b, c) ==> Alike(less, a, c))
  }

  /** The comparator cannot tell them apart. */
  predicate Alike<T>(less: (T, T) -> bool, a: T, b: T) {
    !less(a, b) && !less(b, a)
  }

  predicate Sorted<T>(s: seq<T>, less: (T, T) -> bool) {
    forall i, j | 0 <= i < j < |s| :: !less(s[j], s[i])
  }

  /** The elements like k, in the order they have. */
  function Like<T>(s: seq<T>, less: (T, T) -> bool, k: T): seq<T> {
    if s == [] then [] else (if Alike(less, s[0], k) then [s[0]] else []) + Like(s[1..], less, k)
  }

  /** r is s sorted, like elements keeping their order. */
  ghost predicate StablySorts<T(!new)>(s: seq<T>, r: seq<T>, less: (T, T) -> bool) {
    Sorted(r, less) && forall k :: Like(r, less, k) == Like(s, less, k)
  }

  /** Where an element goes among the first j: behind the last one it does not precede. */
  function Place<T>(s: seq<T>, a: T, less: (T, T) -> bool, j: nat): (p: nat)
    requires j <= |s|
    ensures p <= j && (p > 0 ==> !less(a, s[p - 1]))
    ensures forall k | p <= k < j :: less(a, s[k])
  {
    if j == 0 || !less(a, s[j - 1]) then j else Place(s, a, less, j - 1)
  }

  function Insert<T>(s: seq<T>, a: T, less: (T, T) -> bool): seq<T> {
    var p := Place(s, a, less, |s|);
    (s[..p] + [a]) + s[p..]
  }

  function StableSort<T>(s: seq<T>, less: (T, T) -> bool): seq<T> {
    if s == [] then [] else Insert(StableSort(s[..|s| - 1], less), s[|s| - 1], less)
  }

  lemma {:induction false} LikeConcat<T>(a: seq<T>, b: seq<T>, less: (T, T) -> bool, k: T)
    ensures Like(a + b, less, k) == Like(a, less, k) + Like(b, less, k)
  {
    if a == [] {
      assert a + b == b;
    } else {
      LikeConcat(a[1..], b, less, k);
      LikeCons(a, b, less, k);
      Associate(if Alike(less, a[0], k) then [a[0]] else [], Like(a[1..], less, k), Like(b, less, k));
    }
  }

  lemma Associate<T>(x: seq<T>, y: seq<T>, z: seq<T>)
    ensures x + (y + z) == (x + y) + z
  {
  }

  lemma LikeCons<T>(a: seq<T>, b: seq<T>, less: (T, T) -> bool, k: T)
    requires a != []
    ensures Like(a + b, less, k) == (if Alike(less, a[0], k) then [a[0]] else []) + Like(a[1..] + b, less, k)
  {
    assert (a + b)[1..] == a[1..] + b;
  }

  lemma LikeTail<T>(s: seq<T>, less: (T, T) -> bool, k: T)
    requires s != []
    ensures Like(s, less, k) == (if Alike(less, s[0], k) then [s[0]] else []) + Like(s[1..], less, k)
    ensures Like(s[1..], less, k) == if Alike(less, s[0], k) then Like(s, less, k)[1..] else Like(s, less, k)
  {
  }

  lemma LikeOne<T>(a: T, less: (T, T) -> bool, k: T)
    ensures Like([a], less, k) == if Alike(less, a, k) then [a] else []
  {
  }

  lemma {:induction false} NoneLike<T>(s: seq<T>, less: (T, T) -> bool, k: T)
    requires forall i | 0 <= i < |s| :: !Alike(less, s[i], k)
    ensures Like(s, less, k) == []
  {
    if s == [] {
    } else {
      NoneLike(s[1..], less, k);
    }
  }

  /** Nothing an element precedes is like it. */
  lemma NothingLikeBehind<T(!new)>(s: seq<T>, a: T, less: (T, T) -> bool, k: T)
    requires StrictWeak(less) && Alike(less, a, k) && forall i | 0 <= i < |s| :: less(a, s[i])
    ensures Like(s, less, k) == []
  {
    forall i | 0 <= i < |s| ensures !Alike(less, s[i], k) {
      if Alike(less, s[i], k) {
        assert Alike(less, k, s[i]);
        assert false;
      }
    }
    NoneLike(s, less, k);
  }

  lemma LikeInserted<T>(x: seq<T>, a: T, y: seq<T>, less: (T, T) -> bool, k: T)
    requires Alike(less, a, k) ==> Like(y, less, k) == []
    ensures Like((x + [a]) + y, less, k) == Like(x + y, less, k) + Like([a], less, k)
  {
    LikeConcat(x + [a], y, less, k);
    LikeConcat(x, [a], less, k);
    LikeConcat(x, y, less, k);
    LikeOne(a, less, k);
  }

  lemma InsertIsStable<T(!new)>(s: seq<T>, a: T, less: (T, T) -> bool, k: T)
    requires StrictWeak(less)
    ensures Like(Insert(s, a, less), less, k) == Like(s, less, k) + Like([a], less, k)
  {
    var p := Place(s, a, less, |s|);
    if Alike(less, a, k) { NothingLikeBehind(s[p..], a, less, k); }
    LikeInserted(s[..p], a, s[p..], less, k);
    assert s == s[..p] + s[p..];
  }

  /** In a strict weak order, what does not come after b does not come after anything b does not come after. */
  lemma NegativelyTransitive<T(!new)>(less: (T, T) -> bool, a: T, b: T, c: T)
    requires StrictWeak(less) && !less(b, a) && !less(c, b)
    ensures !less(c, a)
  {
    if less(c, a) {
      assert less(a, b) ==> less(c, b);
      assert less(b, c) ==> less(b, a);
      assert Alike(less, a, b) && Alike(less, b, c);
    }
  }

  lemma InsertSorts<T(!new)>(s: seq<T>, a: T, less: (T, T) -> bool)
    requires StrictWeak(less) && Sorted(s, less)
    ensures Sorted(Insert(s, a, less), less)
  {
    var p, r := Place(s, a, less, |s|), Insert(s, a, less);
    forall i | 0 <= i < p ensures !less(a, s[i]) {
      if i < p - 1 { NegativelyTransitive(less, s[i], s[p - 1], a); }
    }
    forall i | p <= i < |s| ensures !less(s[i], a) {
      assert less(a, s[i]);
    }
    forall i, j | 0 <= i < j < |r| ensures !less(r[j], r[i]) {
      var x, y := if i <= p then i else i - 1, if j <= p then j else j - 1;
      assert i != p ==> r[i] == s[x];
      assert j != p ==> r[j] == s[y];
    }
  }

  lemma {:induction false} StableSortSorts<T(!new)>(s: seq<T>, less: (T, T) -> bool)
    requires StrictWeak(less)
    ensures StablySorts(s, StableSort(s, less), less)
  {
    if s == [] {
    } else {
      var front, last := s[..|s| - 1], s[|s| - 1];
      StableSortSorts(front, less);
      InsertSorts(StableSort(front, less), last, less);
      assert s == front + [last];
      forall k ensures Like(StableSort(s, less), less, k) == Like(s, less, k) {
        InsertIsStable(StableSort(front, less), last, less, k);
        LikeConcat(front, [last], less, k);
      }
    }
  }

  lemma {:induction false} LikeHas<T(!new)>(s: seq<T>, less: (T, T) -> bool, i: nat)
    requires StrictWeak(less) && i < |s|
    ensures Like(s, less, s[i]) != []
  {
    if i == 0 {
    } else {
      LikeHas(s[1..], less, i - 1);
    }
  }

  lemma {:induction false} LikeFrom<T>(s: seq<T>, less: (T, T) -> bool, k: T) returns (i: nat)
    requires Like(s, less, k) != []
    ensures i < |s| && Alike(less, s[i], k)
  {
    if Alike(less, s[0], k) { i := 0; } else { i := LikeFrom(s[1..], less, k); i := i + 1; }
  }

  /** Two sorted arrangements of the same elements begin alike. */
  lemma SameFirst<T(!new)>(q: seq<T>, r: seq<T>, less: (T, T) -> bool)
    requires StrictWeak(less) && Sorted(q, less) && Sorted(r, less) && q != [] && r != []
    requires forall k :: Like(q, less, k) == Like(r, less, k)
    ensures Alike(less, q[0], r[0])
  {
    LikeHas(q, less, 0);
    LikeHas(r, less, 0);
    var i := LikeFrom(r, less, q[0]);
    var j := LikeFrom(q, less, r[0]);
    NegativelyTransitive(less, r[0], r[i], q[0]);
    NegativelyTransitive(less, q[0], q[j], r[0]);
  }

  /** There is only one stable sorting: whatever algorithm sort.SliceStable runs, its result is StableSort. */
  lemma {:induction false} StableSortUnique<T(!new)>(q: seq<T>, r: seq<T>, less: (T, T) -> bool)
    requires StrictWeak(less) && Sorted(q, less) && Sorted(r, less) && forall k :: Like(q, less, k) == Like(r, less, k)
    ensures q == r
    decreases |q|
  {
    if q == [] {
      if r != [] { LikeHas(r, less, 0); }
    } else if r == [] {
      LikeHas(q, less, 0);
    } else {
      SameFirst(q, r, less);
      LikeTail(q, less, q[0]);
      LikeTail(r, less, q[0]);
      assert q[0] == Like(q, less, q[0])[0] == Like(r, less, q[0])[0] == r[0];
      forall k ensures Like(q[1..], less, k) == Like(r[1..], less, k) {
        assert Like(q, less, k) == Like(r, less, k);
        LikeTail(q, less, k);
        LikeTail(r, less, k);
      }
      StableSortUnique(q[1..], r[1..], less);
      assert q == [q[0]] + q[1..] && r == [r[0]] + r[1..];
    }
  }

  lemma InsertPermutes<T>(s: seq<T>, a: T, less: (T, T) -> bool)
    ensures multiset(Insert(s, a, less)) == multiset(s) + multiset{a}
  {
    var p := Place(s, a, less, |s|);
    assert s == s[..p] + s[p..];
  }

  lemma {:induction false} StableSortPermutes<T>(s: seq<T>, less: (T, T) -> bool)
    ensures multiset(StableSort(s, less)) == multiset(s)
  {
    if s == [] {
    } else {
      var front, last := s[..|s| - 1], s[|s| - 1];
      StableSortPermutes(front, less);
      InsertPermutes(StableSort(front, less), last, less);
      assert s == front + [last];
    }
  }

  lemma PairSorts<T>(a: T, b: T, less: (T, T) -> bool)
    requires less(b, a)
    ensures StableSort([a, b], less) == [b, a]
  {
    assert [a, b][..1] == [a] && [a][..0] == [];
    assert StableSort([a], less) == Insert([], a, less) == [a];
    assert Place([a], b, less, 1) == Place([a], b, less, 0) == 0;
  }

  lemma PairStays<T>(a: T, b: T, less: (T, T) -> bool)
    requires !less(b, a)
    ensures StableSort([a, b], less) == [a, b]
  {
    assert [a, b][..1] == [a] && [a][..0] == [];
    assert StableSort([a], less) == Insert([], a, less) == [a];
    assert Place([a], b, less, 1) == 1;
  }

  lemma Assemble<T>(s: seq<T>, j: nat, x: T, r: seq<T>)
    requires j <= |s| && |r| == |s| + 1 && r[j] == x
    requires (forall k | 0 <= k < j :: r[k] == s[k]) && (forall k | j < k <= |s| :: r[k] == s[k - 1])
    ensures r == (s[..j] + [x]) + s[j..]
  {
  }

  /** Shift what x precedes one place up; j is where x goes. */
  method MakeRoom<T>(a: array<T>, i: nat, x: T, less: (T, T) -> bool) returns (j: nat)
    requires i < a.Length
    modifies a
    ensures j == Place(old(a[..i]), x, less, i) <= i
    ensures forall k | 0 <= k < j || i < k < a.Length :: a[k] == old(a[k])
    ensures forall k | j < k <= i :: a[k] == old(a[k - 1])
  {
    j := i;
    ghost var s := a[..i];
    while j > 0 && less(x, a[j - 1])
      invariant 0 <= j <= i
      invariant forall k | 0 <= k < j || i < k < a.Length :: a[k] == old(a[k])
      invariant forall k | j < k <= i :: a[k] == old(a[k - 1])
      invariant Place(s, x, less, j) == Place(s, x, less, i)
    {
      a[j] := a[j - 1];
      j := j - 1;
    }
  }

  method InsertLast<T>(a: array<T>, i: nat, less: (T, T) -> bool)
    requires i < a.Length
    modifies a
    ensures a[..i + 1] == Insert(old(a[..i]), old(a[i]), less)
    ensures a[i + 1..] == old(a[i + 1..])
  {
    var x := a[i];
    var j := MakeRoom(a, i, x, less);
    a[j] := x;
    Assemble(old(a[..i]), j, x, a[..i + 1]);
  }

  /** SliceStable on a slice, as the insertion sort it performs on short ones. */
  method SliceStable<T>(a: array<T>, less: (T, T) -> bool)
    modifies a
    ensures a[..] == StableSort(old(a[..]), less)
  {
    var i := 0;
    ghost var all := a[..];
    while i < a.Length
      invariant 0 <= i <= a.Length
      invariant a[..i] == StableSort(all[..i], less)
      invariant a[i..] == all[i..]
    {
      assert all[..i + 1][..i] == all[..i] && all[..i + 1][i] == all[i] == all[i..][0] == a[i];
      InsertLast(a, i, less);
      i := i + 1;
    }
    assert all[..a.Length] == all && a[..a.Length] == a[..];
  }
}
