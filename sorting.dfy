/** `Array.prototype.sort` with a comparator that orders by a string key. The language requires
    the sort to be stable; it is modelled by insertion sort that places each element after every
    element whose key is not greater. */
module Sorting {
  import opened Text
  import opened Lists

  ghost predicate SortedBy<T>(s: seq<T>, key: T -> string) {
    forall i, j :: 0 <= i < j < |s| ==> StrLe(key(s[i]), key(s[j]))
  }

  function Insert<T>(s: seq<T>, x: T, key: T -> string): (r: seq<T>)
    ensures |r| == |s| + 1
  {
    if s == [] then [x]
    else if StrLt(key(x), key(s[0])) then [x] + s
    else [s[0]] + Insert(s[1..], x, key)
  }

  lemma {:induction false} InsertPermutes<T>(s: seq<T>, x: T, key: T -> string)
    ensures multiset(Insert(s, x, key)) == multiset(s) + multiset{x}
  {
    if s != [] && !StrLt(key(x), key(s[0])) {
      InsertPermutes(s[1..], x, key);
      assert s == [s[0]] + s[1..];
    }
  }

  lemma {:induction false} InsertSorted<T>(s: seq<T>, x: T, key: T -> string)
    requires SortedBy(s, key)
    ensures SortedBy(Insert(s, x, key), key)
  {
    if s == [] {
    } else if StrLt(key(x), key(s[0])) {
      InsertFront(s, x, key);
    } else {
      InsertSorted(s[1..], x, key);
      InsertAfterHead(s, x, key);
    }
  }

  /** An element whose key is below the first one's goes in front and keeps the order. */
  lemma InsertFront<T>(s: seq<T>, x: T, key: T -> string)
    requires SortedBy(s, key) && s != [] && StrLt(key(x), key(s[0]))
    ensures SortedBy([x] + s, key)
  {
    StrLeTotal(key(x), key(s[0]));
    var r := [x] + s;
    forall i, j | 0 <= i < j < |r| ensures StrLe(key(r[i]), key(r[j])) {
      if i == 0 && j > 1 { StrLeTrans(key(x), key(s[0]), key(s[j - 1])); }
    }
  }

  /** Otherwise the first element stays first: every key in the rest, once `x` is inserted
      into it, is at least the first one's. */
  lemma InsertAfterHead<T>(s: seq<T>, x: T, key: T -> string)
    requires SortedBy(s, key) && s != [] && !StrLt(key(x), key(s[0]))
    requires SortedBy(Insert(s[1..], x, key), key)
    ensures SortedBy([s[0]] + Insert(s[1..], x, key), key)
  {
    var t := Insert(s[1..], x, key);
    var r := [s[0]] + t;
    HeadBelowRest(s, x, key);
    forall i, j | 0 <= i < j < |r| ensures StrLe(key(r[i]), key(r[j])) {
      if i == 0 { assert r[j] == t[j - 1]; } else { assert r[i] == t[i - 1] && r[j] == t[j - 1]; }
    }
  }

  lemma HeadBelowRest<T>(s: seq<T>, x: T, key: T -> string)
    requires SortedBy(s, key) && s != [] && !StrLt(key(x), key(s[0]))
    ensures forall j :: 0 <= j < |Insert(s[1..], x, key)| ==> StrLe(key(s[0]), key(Insert(s[1..], x, key)[j]))
  {
    var t := Insert(s[1..], x, key);
    InsertElems(s[1..], x, key);
    StrLeTotal(key(x), key(s[0]));
    forall j | 0 <= j < |t| ensures StrLe(key(s[0]), key(t[j])) {
      assert t[j] in t;
      if t[j] != x {
        var k :| 0 <= k < |s[1..]| && s[1..][k] == t[j];
        assert s[k + 1] == t[j];
      }
    }
  }

  /** Inserting adds `x` and nothing else. */
  lemma {:induction false} InsertElems<T>(s: seq<T>, x: T, key: T -> string)
    ensures forall y :: y in Insert(s, x, key) ==> y == x || y in s
  {
    if s != [] && !StrLt(key(x), key(s[0])) {
      InsertElems(s[1..], x, key);
      assert forall y :: y in s[1..] ==> y in s;
    }
  }

  /** The stable sort of `s` by `key`. */
  function SortByKey<T>(s: seq<T>, key: T -> string): (r: seq<T>)
    ensures |r| == |s|
  {
    if s == [] then []
    else Insert(SortByKey(s[..|s| - 1], key), s[|s| - 1], key)
  }

  /** The sorted sequence is ordered by key and holds exactly the input's elements, each as
      often as in the input. */
  lemma {:induction false} SortByKeyCorrect<T>(s: seq<T>, key: T -> string)
    ensures SortedBy(SortByKey(s, key), key)
    ensures multiset(SortByKey(s, key)) == multiset(s)
  {
    if s != [] {
      var init := s[..|s| - 1];
      SortByKeyCorrect(init, key);
      InsertSorted(SortByKey(init, key), s[|s| - 1], key);
      InsertPermutes(SortByKey(init, key), s[|s| - 1], key);
      assert s == init + [s[|s| - 1]];
    }
  }

  /** The test that picks out the elements whose key is `k`. */
  function ComChave<T>(key: T -> string, k: string): T -> bool {
    y => key(y) == k
  }

  /** Inserting into a sorted sequence puts `x` after every element with the same key. */
  lemma {:induction false} InsertStable<T(!new)>(s: seq<T>, x: T, key: T -> string, k: string)
    requires SortedBy(s, key)
    ensures Filter(Insert(s, x, key), ComChave(key, k)) == Filter(s, ComChave(key, k)) + Filter([x], ComChave(key, k))
  {
    var p := ComChave(key, k);
    if s == [] {
      assert Insert(s, x, key) == [x];
    } else if StrLt(key(x), key(s[0])) {
      FilterConcat([x], s, p);
      if key(x) == k {
        forall y | y in s ensures !p(y) {
          var j :| 0 <= j < |s| && s[j] == y;
          if j > 0 { assert StrLe(key(s[0]), key(s[j])); } else { StrLeRefl(key(s[0])); }
        }
        FilterNone(s, p);
      }
    } else {
      assert SortedBy(s[1..], key) by {
        forall i, j | 0 <= i < j < |s[1..]| ensures StrLe(key(s[1..][i]), key(s[1..][j])) {
          assert s[1..][i] == s[i + 1] && s[1..][j] == s[j + 1];
        }
      }
      InsertStable(s[1..], x, key, k);
      FilterConcat([s[0]], Insert(s[1..], x, key), p);
      FilterConcat([s[0]], s[1..], p);
      assert s == [s[0]] + s[1..];
    }
  }

  /** The sort is stable: for every key, the elements carrying it come out in the order they
      went in. */
  lemma {:induction false} SortByKeyStable<T(!new)>(s: seq<T>, key: T -> string, k: string)
    ensures Filter(SortByKey(s, key), ComChave(key, k)) == Filter(s, ComChave(key, k))
  {
    if s != [] {
      var init := s[..|s| - 1];
      var x := s[|s| - 1];
      SortByKeyStable(init, key, k);
      SortByKeyCorrect(init, key);
      InsertStable(SortByKey(init, key), x, key, k);
      assert s == init + [x];
      FilterConcat(init, [x], ComChave(key, k));
    }
  }
}
