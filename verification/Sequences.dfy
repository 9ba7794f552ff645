/**
  Ordered and duplicate-free lists, and lists of lists.
 */
module Sequences {

  predicate Distinct<T(==)>(s: seq<T>) {
    forall i, j :: 0 <= i < j < |s| ==> s[i] != s[j]
  }

  predicate Increasing(s: seq<nat>) {
    forall i, j :: 0 <= i < j < |s| ==> s[i] < s[j]
  }

  function Flatten<T>(parts: seq<seq<T>>): seq<T> {
    if parts == [] then [] else parts[0] + Flatten(parts[1..])
  }

  lemma FlattenFirst<T>(first: seq<T>, rest: seq<seq<T>>)
    ensures Flatten([first] + rest) == first + Flatten(rest)
  {
    assert ([first] + rest)[1..] == rest;
  }

  lemma {:induction false} FlattenConcat<T>(a: seq<seq<T>>, b: seq<seq<T>>)
    ensures Flatten(a + b) == Flatten(a) + Flatten(b)
  {
    if a == [] {
      assert a + b == b;
    } else {
      assert (a + b)[1..] == a[1..] + b;
      FlattenConcat(a[1..], b);
    }
  }

  lemma FlattenSnoc<T>(parts: seq<seq<T>>, last: seq<T>)
    ensures Flatten(parts + [last]) == Flatten(parts) + last
  {
    FlattenConcat(parts, [last]);
    FlattenFirst(last, []);
    assert [last] + [] == [last] && last + [] == last;
  }

  lemma ConsConcat<T>(head: T, a: seq<T>, b: seq<T>)
    ensures [head] + (a + b) == ([head] + a) + b
  {}

  lemma SliceHead<T>(s: seq<T>, from: nat, to: nat)
    requires from < to <= |s|
    ensures s[from..to] == [s[from]] + s[from + 1..to]
  {}

  lemma PrefixCons<T>(s: seq<T>, n: nat)
    requires 0 < n <= |s|
    ensures s[..n] == [s[0]] + s[1..][..n - 1]
  {}

  lemma PrefixSnoc<T>(s: seq<T>, n: nat)
    requires n < |s|
    ensures s[..n + 1] == s[..n] + [s[n]]
  {}

  lemma MoveHead<T>(done: seq<T>, head: T, rest: seq<T>)
    ensures done + ([head] + rest) == (done + [head]) + rest
  {}

  /** `selected` are the items at the increasing positions `at`, which are those that are wanted. */
  ghost predicate SelectedAt<T(!new)>(at: seq<nat>, items: seq<T>, selected: seq<T>, wanted: T -> bool) {
    && Increasing(at) && |at| == |selected|
    && (forall k :: 0 <= k < |at| ==> at[k] < |items| && items[at[k]] == selected[k])
    && (forall i :: 0 <= i < |items| ==> (i in at <==> wanted(items[i])))
  }

  lemma SelectedSnoc<T(!new)>(at: seq<nat>, items: seq<T>, selected: seq<T>, wanted: T -> bool, item: T)
    requires SelectedAt(at, items, selected, wanted)
    ensures if wanted(item) then SelectedAt(at + [|items|], items + [item], selected + [item], wanted)
      else SelectedAt(at, items + [item], selected, wanted)
  {
    forall i | 0 <= i < |items| ensures (items + [item])[i] == items[i] {}
    forall n | n in at ensures n < |items| {
      var k :| 0 <= k < |at| && at[k] == n;
    }
  }
}
