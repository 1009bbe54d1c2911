/** The array operations the screens build their state from: `filter`, `find`, `map` over the
    record with a given id, and the `Math.max(...ids, 0) + 1` id generator. */
module Lists {

  datatype Option<T> = None | Some(value: T)

  /** JavaScript truthiness of a select's value, which is either '' (`None`) or a number. */
  predicate Truthy(o: Option<int>) {
    o.Some? && o.value != 0
  }

  /** `r` is `s` with some elements left out, the rest kept in their order. */
  predicate IsSubseq<T(==)>(r: seq<T>, s: seq<T>)
    decreases |s|
  {
    r == [] || (s != [] && ((r[0] == s[0] && IsSubseq(r[1..], s[1..])) || IsSubseq(r, s[1..])))
  }

  lemma {:induction false} SubseqRefl<T>(s: seq<T>)
    ensures IsSubseq(s, s)
    decreases |s|
  {
    if s != [] { SubseqRefl(s[1..]); }
  }

  lemma {:induction false} SubseqMembers<T>(r: seq<T>, s: seq<T>)
    requires IsSubseq(r, s)
    ensures forall x :: x in r ==> x in s
    decreases |s|
  {
    if r != [] {
      if r[0] == s[0] && IsSubseq(r[1..], s[1..]) {
        SubseqMembers(r[1..], s[1..]);
        assert forall x :: x in r ==> x == r[0] || x in r[1..];
      } else {
        SubseqMembers(r, s[1..]);
      }
    }
  }

  /** `s.filter(p)`. */
  function Filter<T(==,!new)>(s: seq<T>, p: T -> bool): (r: seq<T>)
    ensures |r| <= |s|
    ensures forall x :: x in r <==> x in s && p(x)
    ensures IsSubseq(r, s)
  {
    if s == [] then []
    else if p(s[0]) then
      var r := [s[0]] + Filter(s[1..], p);
      assert r[1..] == Filter(s[1..], p);
      r
    else Filter(s[1..], p)
  }

  lemma {:induction false} FilterKeepsAll<T(!new)>(s: seq<T>, p: T -> bool)
    requires forall x :: x in s ==> p(x)
    ensures Filter(s, p) == s
  {
    if s != [] {
      assert forall x :: x in s[1..] ==> x in s;
      FilterKeepsAll(s[1..], p);
    }
  }

  lemma {:induction false} FilterConcat<T(!new)>(a: seq<T>, b: seq<T>, p: T -> bool)
    ensures Filter(a + b, p) == Filter(a, p) + Filter(b, p)
  {
    if a == [] {
      assert a + b == b;
    } else {
      assert (a + b)[1..] == a[1..] + b;
      FilterConcat(a[1..], b, p);
    }
  }

  lemma {:induction false} FilterNone<T(!new)>(s: seq<T>, p: T -> bool)
    requires forall x :: x in s ==> !p(x)
    ensures Filter(s, p) == []
  {
    if s != [] {
      assert forall x :: x in s[1..] ==> x in s;
      FilterNone(s[1..], p);
    }
  }

  /** A weaker test keeps at least what a stronger one keeps, in the same order. */
  lemma {:induction false} FilterMonotone<T(!new)>(s: seq<T>, p: T -> bool, q: T -> bool)
    requires forall x :: x in s && p(x) ==> q(x)
    ensures IsSubseq(Filter(s, p), Filter(s, q))
  {
    if s != [] {
      assert forall x :: x in s[1..] ==> x in s;
      FilterMonotone(s[1..], p, q);
      var r, t := Filter(s, p), Filter(s, q);
      if p(s[0]) {
        assert r[0] == s[0] == t[0] && r[1..] == Filter(s[1..], p) && t[1..] == Filter(s[1..], q);
      } else if q(s[0]) {
        assert t == [s[0]] + Filter(s[1..], q);
        SubseqSkip(r, s[0], Filter(s[1..], q));
      }
    }
  }

  /** Putting one element in front of a sequence keeps every subsequence of it. */
  lemma SubseqSkip<T>(r: seq<T>, x: T, s: seq<T>)
    requires IsSubseq(r, s)
    ensures IsSubseq(r, [x] + s)
  {
    assert ([x] + s)[1..] == s;
  }

  lemma UniqueIdsPrefix<R, K>(s: seq<R>, n: nat, id: R -> K)
    requires UniqueIds(s, id) && n <= |s|
    ensures UniqueIds(s[..n], id)
  {
    forall i, j | 0 <= i < j < n ensures id(s[..n][i]) != id(s[..n][j]) {
      assert s[..n][i] == s[i] && s[..n][j] == s[j];
    }
  }

  /** Joining two lists with unique ids and no id in common keeps the ids unique. */
  lemma UniqueIdsConcat<R, K>(a: seq<R>, b: seq<R>, id: R -> K)
    requires UniqueIds(a, id) && UniqueIds(b, id)
    requires forall x, y :: x in a && y in b ==> id(x) != id(y)
    ensures UniqueIds(a + b, id)
  {
    var t := a + b;
    forall i, j | 0 <= i < j < |t| ensures id(t[i]) != id(t[j]) {
      if j < |a| {
        assert t[i] == a[i] && t[j] == a[j];
      } else if i >= |a| {
        assert t[i] == b[i - |a|] && t[j] == b[j - |a|];
      } else {
        assert t[i] in a && t[j] in b;
      }
    }
  }

  /** Elements of `s` that satisfy `p`, counted with multiplicity. */
  function Count<T(==,!new)>(s: seq<T>, p: T -> bool): nat {
    |Filter(s, p)|
  }

  /** `s.find(p)`: the first element satisfying `p`, if any. */
  function Find<T(!new)>(s: seq<T>, p: T -> bool): (r: Option<T>)
    ensures r.None? <==> forall x :: x in s ==> !p(x)
    ensures r.Some? ==> exists i :: 0 <= i < |s| && s[i] == r.value && p(s[i]) && forall k :: 0 <= k < i ==> !p(s[k])
  {
    if s == [] then None
    else if p(s[0]) then Some(s[0])
    else
      var r := Find(s[1..], p);
      FindStep(s, p, r);
      r
  }

  lemma FindStep<T>(s: seq<T>, p: T -> bool, r: Option<T>)
    requires s != [] && !p(s[0])
    requires r.None? <==> forall x :: x in s[1..] ==> !p(x)
    requires r.Some? ==> exists i :: 0 <= i < |s[1..]| && s[1..][i] == r.value && p(s[1..][i]) && forall k :: 0 <= k < i ==> !p(s[1..][k])
    ensures r.None? <==> forall x :: x in s ==> !p(x)
    ensures r.Some? ==> exists i :: 0 <= i < |s| && s[i] == r.value && p(s[i]) && forall k :: 0 <= k < i ==> !p(s[k])
  {
    assert forall x :: x in s ==> x == s[0] || x in s[1..];
    if r.Some? {
      var i :| 0 <= i < |s[1..]| && s[1..][i] == r.value && p(s[1..][i]) && forall k :: 0 <= k < i ==> !p(s[1..][k]);
      assert s[i + 1] == r.value && forall k :: 0 <= k < i + 1 ==> !p(s[k]);
    }
  }

  /** No two records share an id. */
  ghost predicate UniqueIds<R, K>(s: seq<R>, id: R -> K) {
    forall i, j :: 0 <= i < j < |s| ==> id(s[i]) != id(s[j])
  }

  lemma {:induction false} FilterUniqueIds<R(!new), K>(s: seq<R>, p: R -> bool, id: R -> K)
    requires UniqueIds(s, id)
    ensures UniqueIds(Filter(s, p), id)
  {
    if s != [] {
      FilterUniqueIds(s[1..], p, id);
      if p(s[0]) {
        var r := Filter(s, p);
        assert r == [s[0]] + Filter(s[1..], p);
        forall j | 1 <= j < |r| ensures id(r[0]) != id(r[j]) {
          assert r[j] in s[1..];
          var k :| 0 <= k < |s[1..]| && s[1..][k] == r[j];
          assert s[k + 1] == r[j];
        }
      }
    }
  }

  /** A list that repeats no id holds each record once. */
  lemma {:induction false} UniqueIdsNoDuplicates<R, K>(s: seq<R>, id: R -> K, x: R)
    requires UniqueIds(s, id)
    ensures multiset(s)[x] <= 1
  {
    if s != [] {
      assert s == [s[0]] + s[1..];
      assert UniqueIds(s[1..], id) by {
        forall i, j | 0 <= i < j < |s[1..]| ensures id(s[1..][i]) != id(s[1..][j]) {
          assert s[1..][i] == s[i + 1] && s[1..][j] == s[j + 1];
        }
      }
      UniqueIdsNoDuplicates(s[1..], id, x);
      assert s[0] !in s[1..] by {
        forall k | 0 <= k < |s[1..]| ensures s[1..][k] != s[0] {
          assert s[1..][k] == s[k + 1];
        }
      }
    }
  }

  /** Two distinct positions holding the same record count it twice. */
  lemma TwoPositions<R>(s: seq<R>, i: int, j: int)
    requires 0 <= i < j < |s| && s[i] == s[j]
    ensures multiset(s)[s[i]] >= 2
  {
    assert s == s[..j] + s[j..];
    assert s[i] in s[..j];
    assert s[j..][0] == s[j];
    assert multiset(s) == multiset(s[..j]) + multiset(s[j..]);
  }

  /** Rearranging a list keeps its ids unique. */
  lemma UniqueIdsPermutation<R, K>(a: seq<R>, b: seq<R>, id: R -> K)
    requires multiset(a) == multiset(b)
    requires UniqueIds(a, id)
    ensures UniqueIds(b, id)
  {
    forall i, j | 0 <= i < j < |b| ensures id(b[i]) != id(b[j]) {
      assert b[i] in multiset(a) && b[j] in multiset(a);
      var p :| 0 <= p < |a| && a[p] == b[i];
      var q :| 0 <= q < |a| && a[q] == b[j];
      if b[i] == b[j] {
        TwoPositions(b, i, j);
        UniqueIdsNoDuplicates(a, id, b[i]);
      } else {
        assert p != q;
      }
    }
  }

  /** Rearranging a list does not change how many of its elements satisfy `p`. */
  lemma {:induction false} CountPermutation<T(!new)>(a: seq<T>, b: seq<T>, p: T -> bool)
    requires multiset(a) == multiset(b)
    ensures Count(a, p) == Count(b, p)
    decreases |a|
  {
    if a == [] {
      assert |b| == |multiset(b)| == 0;
    } else {
      var x := a[0];
      assert x in multiset(b);
      var k :| 0 <= k < |b| && b[k] == x;
      var b' := b[..k] + b[k + 1..];
      assert b == b[..k] + [x] + b[k + 1..];
      assert a == [x] + a[1..];
      assert multiset(b) == multiset(b[..k]) + multiset([x]) + multiset(b[k + 1..]);
      assert multiset(a) == multiset([x]) + multiset(a[1..]);
      assert multiset(b') == multiset(b[..k]) + multiset(b[k + 1..]);
      forall y ensures multiset(a[1..])[y] == multiset(b')[y] {
        assert multiset(a)[y] == multiset([x])[y] + multiset(a[1..])[y];
        assert multiset(b)[y] == multiset(b[..k])[y] + multiset([x])[y] + multiset(b[k + 1..])[y];
      }
      assert multiset(a[1..]) == multiset(b');
      CountPermutation(a[1..], b', p);
      FilterConcat([x], a[1..], p);
      FilterConcat(b[..k] + [x], b[k + 1..], p);
      FilterConcat(b[..k], [x], p);
      FilterConcat(b[..k], b[k + 1..], p);
    }
  }

  /** Appending a record whose id exceeds every stored id keeps the ids unique. */
  lemma FreshAppendUniqueIds<R>(s: seq<R>, x: R, id: R -> int)
    requires UniqueIds(s, id)
    requires forall y :: y in s ==> id(y) < id(x)
    ensures UniqueIds(s + [x], id)
  {
    var t := s + [x];
    forall i, j | 0 <= i < j < |t| ensures id(t[i]) != id(t[j]) {
      if j == |s| { assert t[i] in s; }
    }
  }

  /** Prepending a record whose id exceeds every stored id keeps the ids unique. */
  lemma FreshPrependUniqueIds<R>(s: seq<R>, x: R, id: R -> int)
    requires UniqueIds(s, id)
    requires forall y :: y in s ==> id(y) < id(x)
    ensures UniqueIds([x] + s, id)
  {
    var t := [x] + s;
    forall i, j | 0 <= i < j < |t| ensures id(t[i]) != id(t[j]) {
      if i == 0 { assert t[j] in s; } else { assert t[i] == s[i - 1] && t[j] == s[j - 1]; }
    }
  }

  lemma SameIdsUnique<R, K>(a: seq<R>, b: seq<R>, id: R -> K)
    requires |a| == |b| && forall i :: 0 <= i < |a| ==> id(a[i]) == id(b[i])
    requires UniqueIds(a, id)
    ensures UniqueIds(b, id)
  {
  }

  /** `Math.max(...s.map(id), 0) + 1`: one more than the largest id, or 1 when every id is
      below 1 (in particular for the empty list). */
  function NextId<R(!new)>(s: seq<R>, id: R -> int): (r: int)
    ensures r >= 1
    ensures forall x :: x in s ==> id(x) < r
    ensures r == 1 || exists x :: x in s && id(x) == r - 1
  {
    if s == [] then 1
    else
      var r := NextId(s[1..], id);
      assert forall x :: x in s ==> x == s[0] || x in s[1..];
      if id(s[0]) + 1 > r then id(s[0]) + 1 else r
  }

  /** `Math.max(...s.map(id)) + 1` without the 0 seed, defined for a non-empty list. */
  function MaxIdPlusOne<R(!new)>(s: seq<R>, id: R -> int): (r: int)
    requires s != []
    ensures forall x :: x in s ==> id(x) < r
    ensures exists x :: x in s && id(x) == r - 1
  {
    if |s| == 1 then id(s[0]) + 1
    else
      var r := MaxIdPlusOne(s[1..], id);
      assert forall x :: x in s ==> x == s[0] || x in s[1..];
      if id(s[0]) + 1 > r then id(s[0]) + 1 else r
  }

  /** The test `x => id(x) === k`. */
  function HasId<R>(id: R -> int, k: int): R -> bool {
    x => id(x) == k
  }

  /** The test `x => id(x) !== k`. */
  function OtherId<R>(id: R -> int, k: int): R -> bool {
    x => id(x) != k
  }

  /** `s.filter(x => id(x) !== k)`: the records with id `k` removed, the others kept in order. */
  function WithoutId<R(==,!new)>(s: seq<R>, id: R -> int, k: int): (r: seq<R>)
    ensures forall x :: x in r <==> x in s && id(x) != k
    ensures IsSubseq(r, s)
  {
    Filter(s, OtherId(id, k))
  }

  /** Deleting an id that is not stored changes nothing. */
  lemma WithoutIdAbsent<R(!new)>(s: seq<R>, id: R -> int, k: int)
    requires forall x :: x in s ==> id(x) != k
    ensures WithoutId(s, id, k) == s
  {
    FilterKeepsAll(s, OtherId(id, k));
  }

  /** Deleting by id keeps the remaining ids unique; with unique ids at most one record carries
      id `k`, and exactly the records carrying it go. */
  lemma WithoutIdUnique<R(!new)>(s: seq<R>, id: R -> int, k: int)
    requires UniqueIds(s, id)
    ensures UniqueIds(WithoutId(s, id, k), id)
    ensures |WithoutId(s, id, k)| == |s| - Count(s, HasId(id, k))
    ensures Count(s, HasId(id, k)) <= 1
  {
    FilterUniqueIds(s, OtherId(id, k), id);
    FilterSplit(s, HasId(id, k), OtherId(id, k));
    AtMostOneWithId(s, id, k);
  }

  lemma {:induction false} AtMostOneWithId<R(!new)>(s: seq<R>, id: R -> int, k: int)
    requires UniqueIds(s, id)
    ensures Count(s, HasId(id, k)) <= 1
  {
    if s != [] {
      assert UniqueIds(s[1..], id) by {
        forall i, j | 0 <= i < j < |s[1..]| ensures id(s[1..][i]) != id(s[1..][j]) {
          assert s[1..][i] == s[i + 1] && s[1..][j] == s[j + 1];
        }
      }
      if id(s[0]) == k {
        forall x | x in s[1..] ensures !HasId(id, k)(x) {
          var j :| 0 <= j < |s[1..]| && s[1..][j] == x;
          assert s[j + 1] == x;
        }
        FilterNone(s[1..], HasId(id, k));
      } else {
        AtMostOneWithId(s[1..], id, k);
      }
    }
  }

  /** Two complementary tests split a list in two. */
  lemma {:induction false} FilterSplit<T(!new)>(s: seq<T>, p: T -> bool, q: T -> bool)
    requires forall x :: q(x) == !p(x)
    ensures |Filter(s, p)| + |Filter(s, q)| == |s|
  {
    if s != [] { FilterSplit(s[1..], p, q); }
  }

  /** `s.map(x => id(x) === k ? f(x) : x)`. */
  function MapWhere<R>(s: seq<R>, id: R -> int, k: int, f: R -> R): (r: seq<R>)
    ensures |r| == |s|
    ensures forall i :: 0 <= i < |s| ==> r[i] == (if id(s[i]) == k then f(s[i]) else s[i])
  {
    seq(|s|, i requires 0 <= i < |s| => if id(s[i]) == k then f(s[i]) else s[i])
  }

  /** `s.find(x => id(x) === k)`: the first record with id `k`, if any. */
  function FindId<R>(s: seq<R>, id: R -> int, k: int): (r: Option<R>)
    ensures r.Some? ==> r.value in s && id(r.value) == k
    ensures r.None? <==> forall x :: x in s ==> id(x) != k
  {
    if s == [] then None
    else if id(s[0]) == k then Some(s[0])
    else
      var r := FindId(s[1..], id, k);
      assert forall x :: x in s ==> x == s[0] || x in s[1..];
      r
  }

  /** With unique ids, the record `FindId` returns is the only one carrying that id. */
  lemma FindIdUnique<R>(s: seq<R>, id: R -> int, x: R)
    requires UniqueIds(s, id) && x in s
    ensures FindId(s, id, id(x)) == Some(x)
  {
    var i :| 0 <= i < |s| && s[i] == x;
    FindIdAt(s, id, i);
  }

  lemma {:induction false} FindIdAt<R>(s: seq<R>, id: R -> int, i: int)
    requires UniqueIds(s, id) && 0 <= i < |s|
    ensures FindId(s, id, id(s[i])) == Some(s[i])
  {
    if i > 0 {
      assert id(s[0]) != id(s[i]);
      assert UniqueIds(s[1..], id) by {
        forall a, b | 0 <= a < b < |s[1..]| ensures id(s[1..][a]) != id(s[1..][b]) {
          assert s[1..][a] == s[a + 1] && s[1..][b] == s[b + 1];
        }
      }
      FindIdAt(s[1..], id, i - 1);
    }
  }

  /** Every element passes the test exactly when the filter keeps the whole list. */
  lemma {:induction false} CountAll<T(!new)>(s: seq<T>, p: T -> bool)
    ensures Count(s, p) == |s| <==> forall x :: x in s ==> p(x)
  {
    if s != [] {
      CountAll(s[1..], p);
      assert forall x :: x in s <==> x == s[0] || x in s[1..];
    }
  }

  /** No element passes the test exactly when the filter keeps nothing. */
  lemma {:induction false} CountNone<T(!new)>(s: seq<T>, p: T -> bool)
    ensures Count(s, p) == 0 <==> forall x :: x in s ==> !p(x)
  {
    if s != [] {
      CountNone(s[1..], p);
      assert forall x :: x in s <==> x == s[0] || x in s[1..];
    }
  }

  /** Two tests that agree on every element of `s` filter it alike. */
  lemma {:induction false} FilterSame<T(!new)>(s: seq<T>, p: T -> bool, q: T -> bool)
    requires forall x :: x in s ==> p(x) == q(x)
    ensures Filter(s, p) == Filter(s, q)
  {
    if s != [] {
      assert forall x :: x in s[1..] ==> x in s;
      FilterSame(s[1..], p, q);
    }
  }

  /** Replacing one element changes the count by what leaves and what arrives. */
  lemma {:induction false} CountUpdate<T(!new)>(s: seq<T>, i: nat, x: T, p: T -> bool)
    requires i < |s|
    ensures Count(s[i := x], p) + (if p(s[i]) then 1 else 0) == Count(s, p) + (if p(x) then 1 else 0)
  {
    if i == 0 {
      assert s[i := x][1..] == s[1..];
    } else {
      CountUpdate(s[1..], i - 1, x, p);
      assert s[i := x][1..] == s[1..][i - 1 := x];
    }
  }

  /** What a form's submit handler does to a list of records: it is refused with an error
      message and the list stays, or the list is replaced. */
  datatype Envio<R> = Rejeitado(erro: string) | Gravado(lista: seq<R>)
}
