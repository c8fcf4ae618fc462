/** Textual identities, their order, and the sorting and searching built on it. */
module Order {

  /** An identity is a text; the absent identity is the empty text. */
  type Id = string

  /** Lexicographic order, as `std::string` compares. */
  predicate Less(a: Id, b: Id) {
    if b == [] then false
    else if a == [] then true
    else if a[0] != b[0] then a[0] < b[0]
    else Less(a[1..], b[1..])
  }

  lemma {:induction false} LessTrans(a: Id, b: Id, c: Id)
    requires Less(a, b) && Less(b, c)
    ensures Less(a, c)
  {
    if a != [] && a[0] == b[0] == c[0] {
      LessTrans(a[1..], b[1..], c[1..]);
    }
  }

  lemma {:induction false} LessTotal(a: Id, b: Id)
    ensures a == b || Less(a, b) || Less(b, a)
    ensures !(Less(a, b) && Less(b, a))
    ensures !Less(a, a)
  {
    if a != [] && b != [] && a[0] == b[0] {
      LessTotal(a[1..], b[1..]);
      assert a == [a[0]] + a[1..] && b == [b[0]] + b[1..];
    }
    if a != [] { LessTotal(a[1..], a[1..]); }
  }

  // ---------------------------------------------------------------------
  // Sorting: `std::sort` and `std::stable_sort` under a comparator.
  // ---------------------------------------------------------------------

  /** What the C++ standard asks of a comparator. */
  ghost predicate StrictWeak<T(!new)>(lt: (T, T) -> bool) {
    && (forall a, b :: !(lt(a, b) && lt(b, a)))
    && (forall a, b, c :: !lt(b, a) && !lt(c, b) ==> !lt(c, a))
  }

  function Insert<T>(x: T, s: seq<T>, lt: (T, T) -> bool): seq<T> {
    if s == [] || lt(x, s[0]) then [x] + s else [s[0]] + Insert(x, s[1..], lt)
  }

  function Sort<T>(s: seq<T>, lt: (T, T) -> bool): seq<T> {
    if s == [] then [] else Insert(s[|s| - 1], Sort(s[..|s| - 1], lt), lt)
  }

  ghost predicate Ascending<T>(s: seq<T>, lt: (T, T) -> bool) {
    forall i, j :: 0 <= i < j < |s| ==> !lt(s[j], s[i])
  }

  lemma {:induction false} InsertKeeps<T>(x: T, s: seq<T>, lt: (T, T) -> bool)
    ensures multiset(Insert(x, s, lt)) == multiset(s) + multiset{x}
    ensures |Insert(x, s, lt)| == |s| + 1
  {
    if s != [] && !lt(x, s[0]) {
      InsertKeeps(x, s[1..], lt);
      assert s == [s[0]] + s[1..];
    }
  }

  lemma {:induction false} SortKeeps<T>(s: seq<T>, lt: (T, T) -> bool)
    ensures multiset(Sort(s, lt)) == multiset(s)
    ensures |Sort(s, lt)| == |s|
    ensures forall x :: x in Sort(s, lt) <==> x in s
  {
    if s != [] {
      var n := |s| - 1;
      SortKeeps(s[..n], lt);
      InsertKeeps(s[n], Sort(s[..n], lt), lt);
      assert s == s[..n] + [s[n]];
    }
    MultisetMembers(Sort(s, lt), s);
  }

  lemma MultisetMembers<T>(a: seq<T>, b: seq<T>)
    requires multiset(a) == multiset(b)
    ensures forall x :: x in a <==> x in b
  {
    assert forall x :: x in a <==> x in multiset(a);
    assert forall x :: x in b <==> x in multiset(b);
  }

  lemma {:induction false} InsertAscends<T(!new)>(x: T, s: seq<T>, lt: (T, T) -> bool)
    requires StrictWeak(lt) && Ascending(s, lt)
    ensures Ascending(Insert(x, s, lt), lt)
  {
    if s != [] && !lt(x, s[0]) {
      var rest := Insert(x, s[1..], lt);
      InsertAscends(x, s[1..], lt);
      InsertKeeps(x, s[1..], lt);
      forall j | 0 <= j < |rest|
        ensures !lt(rest[j], s[0])
      {
        assert rest[j] in multiset(rest);
        assert rest[j] == x || rest[j] in s[1..];
      }
    }
  }

  lemma {:induction false} SortAscends<T(!new)>(s: seq<T>, lt: (T, T) -> bool)
    requires StrictWeak(lt)
    ensures Ascending(Sort(s, lt), lt)
  {
    if s != [] {
      SortAscends(s[..|s| - 1], lt);
      InsertAscends(s[|s| - 1], Sort(s[..|s| - 1], lt), lt);
    }
  }

  lemma SortOne<T>(x: T, lt: (T, T) -> bool)
    ensures Sort([x], lt) == [x]
  {
    assert [x][..0] == [];
    assert Sort([][..], lt) == [];
  }

  lemma SortTwo<T>(x: T, y: T, lt: (T, T) -> bool)
    requires !lt(y, x)
    ensures Sort([x, y], lt) == [x, y]
  {
    SortOne(x, lt);
    assert [x, y][..1] == [x] && [x][1..] == [];
    assert Insert(y, [], lt) == [y];
    assert Insert(y, [x], lt) == [x] + [y];
  }

  // ---------------------------------------------------------------------
  // Pointwise images of tables.
  // ---------------------------------------------------------------------

  function Map<T, U>(f: T -> U, s: seq<T>): (r: seq<U>)
    ensures |r| == |s|
    ensures forall i :: 0 <= i < |s| ==> r[i] == f(s[i])
  {
    seq(|s|, i requires 0 <= i < |s| => f(s[i]))
  }

  lemma {:induction false} InsertMaps<T, U>(x: T, s: seq<T>, f: T -> U, lt: (T, T) -> bool, lu: (U, U) -> bool)
    requires Agrees(x, s, f, lt, lu)
    ensures Insert(f(x), Map(f, s), lu) == Map(f, Insert(x, s, lt))
  {
    if s == [] || lt(x, s[0]) {
      assert s == [] || s[0] in s;
      assert Map(f, [x] + s) == [f(x)] + Map(f, s);
    } else {
      assert s[0] in s;
      assert Agrees(x, s[1..], f, lt, lu);
      InsertMaps(x, s[1..], f, lt, lu);
      assert Map(f, s)[1..] == Map(f, s[1..]);
      assert Map(f, [s[0]] + Insert(x, s[1..], lt)) == [f(s[0])] + Map(f, Insert(x, s[1..], lt));
    }
  }

  /** `f` keeps the comparisons of `x` with the elements of `s`. */
  ghost predicate Agrees<T, U>(x: T, s: seq<T>, f: T -> U, lt: (T, T) -> bool, lu: (U, U) -> bool) {
    forall b :: b in s ==> lu(f(x), f(b)) == lt(x, b)
  }

  /** Sorting commutes with any image that keeps the comparisons. */
  lemma {:induction false} SortMaps<T, U>(s: seq<T>, f: T -> U, lt: (T, T) -> bool, lu: (U, U) -> bool)
    requires forall a :: a in s ==> Agrees(a, s, f, lt, lu)
    ensures Sort(Map(f, s), lu) == Map(f, Sort(s, lt))
  {
    if s != [] {
      var n := |s| - 1;
      var init := s[..n];
      forall a | a in init ensures Agrees(a, init, f, lt, lu) {
        assert a in s && Agrees(a, s, f, lt, lu);
      }
      SortMaps(init, f, lt, lu);
      SortKeeps(init, lt);
      assert Agrees(s[n], Sort(init, lt), f, lt, lu) by {
        assert Agrees(s[n], s, f, lt, lu);
      }
      InsertMaps(s[n], Sort(init, lt), f, lt, lu);
      assert Map(f, s)[..n] == Map(f, init);
    }
  }

  // ---------------------------------------------------------------------
  // Identity columns.
  // ---------------------------------------------------------------------

  ghost predicate Distinct<T>(s: seq<T>) {
    forall i, j :: 0 <= i < j < |s| ==> s[i] != s[j]
  }

  ghost predicate StrictlySorted(ids: seq<Id>) {
    forall i, j :: 0 <= i < j < |ids| ==> Less(ids[i], ids[j])
  }

  lemma StrictlySortedDistinct(ids: seq<Id>)
    requires StrictlySorted(ids)
    ensures Distinct(ids)
  {
    forall i, j | 0 <= i < j < |ids| ensures ids[i] != ids[j] {
      LessTotal(ids[i], ids[j]);
    }
  }

  /** An ascending column without repetitions is strictly sorted. */
  lemma AscendingDistinctSorted(ids: seq<Id>)
    requires Distinct(ids) && Ascending(ids, Less)
    ensures StrictlySorted(ids)
  {
    forall i, j | 0 <= i < j < |ids| ensures Less(ids[i], ids[j]) {
      LessTotal(ids[i], ids[j]);
    }
  }

  lemma LessStrictWeak()
    ensures StrictWeak(Less)
  {
    forall a: Id, b: Id ensures !(Less(a, b) && Less(b, a)) { LessTotal(a, b); }
    forall a: Id, b: Id, c: Id | !Less(b, a) && !Less(c, b) ensures !Less(c, a) {
      LessTotal(a, b);
      LessTotal(b, c);
      LessTotal(a, c);
      if Less(c, a) {
        if a != b { LessTrans(c, a, b); }
      }
    }
  }

  lemma {:induction false} CountOne<T>(s: seq<T>)
    ensures Distinct(s) <==> forall x :: multiset(s)[x] <= 1
  {
    if s != [] {
      var n := |s| - 1;
      CountOne(s[..n]);
      assert s == s[..n] + [s[n]];
      assert multiset(s) == multiset(s[..n]) + multiset{s[n]};
      if Distinct(s) {
        assert Distinct(s[..n]);
        assert s[n] !in s[..n];
        assert s[n] !in multiset(s[..n]);
      }
      if forall x :: multiset(s)[x] <= 1 {
        assert forall x :: multiset(s[..n])[x] <= multiset(s)[x];
        assert multiset(s)[s[n]] == multiset(s[..n])[s[n]] + 1;
        assert s[n] !in multiset(s[..n]);
        forall i, j | 0 <= i < j < |s| ensures s[i] != s[j] {
          if j == n { assert s[i] in multiset(s[..n]); }
          else { assert s[..n][i] != s[..n][j]; }
        }
      }
    }
  }

  lemma PermutationDistinct<T>(a: seq<T>, b: seq<T>)
    requires multiset(a) == multiset(b)
    ensures Distinct(a) <==> Distinct(b)
  {
    CountOne(a);
    CountOne(b);
  }

  /** Position of the first occurrence, or the length when absent. */
  function IndexOf(ids: seq<Id>, id: Id): (k: nat)
    ensures k <= |ids|
    ensures k < |ids| ==> ids[k] == id
    ensures forall j :: 0 <= j < k ==> ids[j] != id
    ensures k == |ids| <==> id !in ids
  {
    if ids == [] then 0
    else if ids[0] == id then 0
    else
      assert forall j :: 0 < j < |ids| ==> ids[j] == ids[1..][j - 1];
      1 + IndexOf(ids[1..], id)
  }

  // ---------------------------------------------------------------------
  // Binary search: `std::lower_bound`, halving a range of given length.
  // ---------------------------------------------------------------------

  /** The library's halving loop over the answers of the comparison. It is total:
      when the answers are not partitioned it still returns a position, just not a
      meaningful one. */
  function Halve(below: seq<bool>, first: nat, len: nat): (k: nat)
    requires first + len <= |below|
    ensures first <= k <= first + len
    decreases len
  {
    if len == 0 then first
    else
      var half := len / 2;
      if below[first + half] then Halve(below, first + half + 1, len - half - 1) else Halve(below, first, half)
  }

  function Answers(ids: seq<Id>, id: Id): (r: seq<bool>)
    ensures |r| == |ids|
  {
    seq(|ids|, i requires 0 <= i < |ids| => Less(ids[i], id))
  }

  function LowerBound(ids: seq<Id>, id: Id): (k: nat)
    ensures k <= |ids|
  {
    Halve(Answers(ids, id), 0, |ids|)
  }

  /** A lookup succeeds when the position found holds the identity. */
  predicate Hit(ids: seq<Id>, id: Id) {
    var k := LowerBound(ids, id);
    k < |ids| && ids[k] == id
  }

  lemma {:induction false} HalvePartitions(below: seq<bool>, first: nat, len: nat)
    requires first + len <= |below|
    requires forall i, j :: 0 <= i < j < |below| && below[j] ==> below[i]
    requires forall i :: 0 <= i < first ==> below[i]
    requires forall i :: first + len <= i < |below| ==> !below[i]
    ensures forall i :: 0 <= i < Halve(below, first, len) ==> below[i]
    ensures forall i :: Halve(below, first, len) <= i < |below| ==> !below[i]
    decreases len
  {
    if len > 0 {
      var half := len / 2;
      if below[first + half] {
        HalvePartitions(below, first + half + 1, len - half - 1);
      } else {
        HalvePartitions(below, first, half);
      }
    }
  }

  /** Non-decreasing, possibly with repetitions. */
  ghost predicate Column(ids: seq<Id>) {
    forall i, j :: 0 <= i < j < |ids| ==> !Less(ids[j], ids[i])
  }

  ghost predicate Below(ids: seq<Id>, id: Id, k: nat)
    requires k <= |ids|
  {
    forall i :: 0 <= i < k ==> Less(ids[i], id)
  }

  ghost predicate NotBelow(ids: seq<Id>, id: Id, k: nat) {
    forall i :: k <= i < |ids| ==> !Less(ids[i], id)
  }

  lemma AnswersMonotone(ids: seq<Id>, id: Id)
    requires Column(ids)
    ensures forall i, j :: 0 <= i < j < |ids| && Answers(ids, id)[j] ==> Answers(ids, id)[i]
  {
    forall i, j | 0 <= i < j < |ids| && Less(ids[j], id) ensures Less(ids[i], id) {
      LessTotal(ids[i], ids[j]);
      if ids[i] != ids[j] { LessTrans(ids[i], ids[j], id); }
    }
  }

  /** On a column in order the search finds the first identity not below `id`. */
  lemma LowerBoundPartitions(ids: seq<Id>, id: Id)
    requires Column(ids)
    ensures Below(ids, id, LowerBound(ids, id)) && NotBelow(ids, id, LowerBound(ids, id))
  {
    var below := Answers(ids, id);
    AnswersMonotone(ids, id);
    HalvePartitions(below, 0, |ids|);
    assert forall i :: 0 <= i < |ids| ==> below[i] == Less(ids[i], id);
  }

  lemma StrictlySortedColumn(ids: seq<Id>)
    requires StrictlySorted(ids)
    ensures Column(ids)
  {
    forall i, j | 0 <= i < j < |ids| ensures !Less(ids[j], ids[i]) { LessTotal(ids[i], ids[j]); }
  }

  /** On a strictly sorted column the binary search is exact. */
  lemma LowerBoundExact(ids: seq<Id>, id: Id)
    requires StrictlySorted(ids)
    ensures Below(ids, id, LowerBound(ids, id)) && NotBelow(ids, id, LowerBound(ids, id))
    ensures Hit(ids, id) <==> id in ids
    ensures Hit(ids, id) ==> LowerBound(ids, id) == IndexOf(ids, id)
  {
    StrictlySortedColumn(ids);
    LowerBoundPartitions(ids, id);
    var k := LowerBound(ids, id);
    LessTotal(id, id);
    if id in ids {
      var j :| 0 <= j < |ids| && ids[j] == id;
      assert k <= j;
    }
  }

  /** An identity of a strictly sorted column is found where it is. */
  lemma Found(ids: seq<Id>, id: Id)
    requires StrictlySorted(ids) && id in ids
    ensures LowerBound(ids, id) < |ids| && ids[LowerBound(ids, id)] == id
  {
    LowerBoundExact(ids, id);
  }

  lemma InsertMembers<T>(s: seq<T>, k: nat, x: T)
    requires k <= |s|
    ensures forall y :: y in s[..k] + [x] + s[k..] <==> y == x || y in s
  {
    assert s == s[..k] + s[k..];
  }

  lemma InsertSorted(ids: seq<Id>, k: nat, id: Id)
    requires StrictlySorted(ids) && k <= |ids| && id !in ids
    requires Below(ids, id, k) && NotBelow(ids, id, k)
    ensures StrictlySorted(ids[..k] + [id] + ids[k..])
  {
    var r := ids[..k] + [id] + ids[k..];
    forall i, j | 0 <= i < j < |r| ensures Less(r[i], r[j]) {
      if i == k { LessTotal(id, ids[j - 1]); }
    }
  }

  lemma RemoveOne<T>(s: seq<T>, k: nat)
    requires k < |s|
    ensures multiset(s[..k] + s[k + 1..]) == multiset(s) - multiset{s[k]}
  {
    assert s == s[..k] + [s[k]] + s[k + 1..];
  }

  function Without<T>(s: seq<T>, k: nat): seq<T>
    requires k < |s|
  {
    s[..k] + s[k + 1..]
  }

  lemma MapWithout<T, U>(f: T -> U, s: seq<T>, k: nat)
    requires k < |s|
    ensures multiset(Map(f, Without(s, k))) == multiset(Map(f, s)) - multiset{f(s[k])}
    ensures multiset(Without(s, k)) == multiset(s) - multiset{s[k]}
    ensures f(s[k]) in multiset(Map(f, s))
  {
    hide Map;
    RemoveOne(s, k);
    RemoveOne(Map(f, s), k);
    assert Map(f, Without(s, k)) == Map(f, s)[..k] + Map(f, s)[k + 1..];
    assert Map(f, s)[k] in Map(f, s);
  }

  lemma PutBack<T>(a: multiset<T>, b: multiset<T>, x: T)
    requires a - multiset{x} == b - multiset{x} && x in a && x in b
    ensures a == b
  {
    assert a == a - multiset{x} + multiset{x};
    assert b == b - multiset{x} + multiset{x};
  }

  /** Permuting a table permutes any column of it. */
  lemma {:induction false} MapPermutes<T, U>(f: T -> U, a: seq<T>, b: seq<T>)
    requires multiset(a) == multiset(b)
    ensures multiset(Map(f, a)) == multiset(Map(f, b))
    decreases |a|
  {
    hide Map;
    if a == [] {
      assert |multiset(b)| == 0;
    } else {
      assert a[0] in multiset(b);
      var k :| 0 <= k < |b| && b[k] == a[0];
      MapWithout(f, a, 0);
      MapWithout(f, b, k);
      hide Without;
      MapPermutes(f, Without(a, 0), Without(b, k)) by { assert |multiset(Without(a, 0))| < |multiset(a)|; }
      PutBack(multiset(Map(f, a)), multiset(Map(f, b)), f(a[0]));
    }
  }
}
