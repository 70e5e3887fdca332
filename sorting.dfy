/**
 * `Array.prototype.sort` with a comparator of the form `(a, b) => key(b) - key(a)`:
 * the library sort is stable, so the result is ordered by `key`, largest first,
 * and elements with equal keys keep their original order.  Written as an
 * insertion sort: each element goes in after the later elements with a
 * strictly larger key and before all the others.  Ascending sorts use the
 * negated key.
 */
module StableSort {

  function InsertBy<T>(key: T -> real, c: T, s: seq<T>): (r: seq<T>)
    ensures |r| == |s| + 1
  {
    if s == [] || key(s[0]) <= key(c) then [c] + s
    else [s[0]] + InsertBy(key, c, s[1..])
  }

  /** The stable sort by `key`, largest first. */
  function SortBy<T>(key: T -> real, s: seq<T>): (r: seq<T>)
    ensures |r| == |s|
  {
    if s == [] then [] else InsertBy(key, s[0], SortBy(key, s[1..]))
  }

  predicate SortedBy<T>(key: T -> real, s: seq<T>) {
    forall i, j :: 0 <= i < j < |s| ==> key(s[i]) >= key(s[j])
  }

  /** `s[i]` has the largest key and every earlier element a smaller one. */
  predicate IsFirstMax<T>(key: T -> real, s: seq<T>, i: nat) {
    i < |s|
    && (forall j :: 0 <= j < |s| ==> key(s[j]) <= key(s[i]))
    && (forall j :: 0 <= j < i ==> key(s[j]) < key(s[i]))
  }

  lemma {:induction false} InsertPermutes<T>(key: T -> real, c: T, s: seq<T>)
    ensures multiset(InsertBy(key, c, s)) == multiset(s) + multiset{c}
  {
    if s != [] && key(s[0]) > key(c) {
      InsertPermutes(key, c, s[1..]);
      assert s == [s[0]] + s[1..];
    }
  }

  lemma {:induction false} InsertSorted<T>(key: T -> real, c: T, s: seq<T>)
    requires SortedBy(key, s)
    ensures SortedBy(key, InsertBy(key, c, s))
  {
    if s != [] && key(s[0]) > key(c) {
      InsertSorted(key, c, s[1..]);
      InsertPermutes(key, c, s[1..]);
      var r := InsertBy(key, c, s[1..]);
      assert r[0] in multiset(s[1..]) + multiset{c};
    }
  }

  /** The sort orders by key, largest first, and only rearranges. */
  lemma {:induction false} SortIsSortedPermutation<T>(key: T -> real, s: seq<T>)
    ensures SortedBy(key, SortBy(key, s))
    ensures multiset(SortBy(key, s)) == multiset(s)
  {
    if s != [] {
      SortIsSortedPermutation(key, s[1..]);
      InsertSorted(key, s[0], SortBy(key, s[1..]));
      InsertPermutes(key, s[0], SortBy(key, s[1..]));
      assert s == [s[0]] + s[1..];
    }
  }

  /** Sorting puts first the earliest element with the largest key. */
  lemma {:induction false} SortHead<T>(key: T -> real, s: seq<T>, i: nat)
    requires IsFirstMax(key, s, i)
    ensures SortBy(key, s)[0] == s[i]
  {
    var rest := s[1..];
    if |rest| > 0 {
      var t := SortBy(key, rest);
      InsertHead(key, s[0], t);
      if i == 0 {
        SortIsSortedPermutation(key, rest);
        assert t[0] in multiset(rest);
        var j :| 0 <= j < |rest| && rest[j] == t[0];
        assert s[j + 1] == t[0];
      } else {
        assert IsFirstMax(key, rest, i - 1) by {
          assert forall j :: 0 <= j < |rest| ==> rest[j] == s[j + 1];
        }
        SortHead(key, rest, i - 1);
      }
    }
  }

  /** The insertion goes in front exactly when the first element's key is not larger. */
  lemma InsertHead<T>(key: T -> real, c: T, t: seq<T>)
    ensures InsertBy(key, c, t)[0] == if t == [] || key(t[0]) <= key(c) then c else t[0]
  {
  }

  /** Appending an element no larger than the first maximum keeps it first maximum. */
  lemma FirstMaxKept<T>(key: T -> real, s: seq<T>, c: T, i: nat)
    requires IsFirstMax(key, s, i) && key(c) <= key(s[i])
    ensures IsFirstMax(key, s + [c], i)
  {
    assert forall j :: 0 <= j < |s| ==> (s + [c])[j] == s[j];
  }

  /** Appending an element larger than everything makes it the first maximum. */
  lemma FirstMaxNew<T>(key: T -> real, s: seq<T>, c: T)
    requires forall j :: 0 <= j < |s| ==> key(s[j]) < key(c)
    ensures IsFirstMax(key, s + [c], |s|)
  {
    assert forall j :: 0 <= j < |s| ==> (s + [c])[j] == s[j];
  }
}
