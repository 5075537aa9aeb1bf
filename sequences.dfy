/** Small facts about sequences that several services share. */
module Sequences {

  /** No element occurs twice in `s`. */
  predicate Distinct<T(==)>(s: seq<T>) {
    forall i, j :: 0 <= i < j < |s| ==> s[i] != s[j]
  }

  /** `s` read from its last element to its first: a table read with `ORDER BY created_at DESC`. */
  function Reversed<T>(s: seq<T>): (r: seq<T>)
    ensures |r| == |s|
    ensures forall i :: 0 <= i < |s| ==> r[i] == s[|s| - 1 - i]
  {
    if s == [] then [] else [s[|s| - 1]] + Reversed(s[..|s| - 1])
  }

  /** `x` occurs in `s` at an earlier position than `y` does. */
  predicate Before<T(==)>(s: seq<T>, x: T, y: T) {
    exists p, q :: 0 <= p < q < |s| && s[p] == x && s[q] == y
  }

  /** Putting an element in front keeps every order and puts it before the rest. */
  lemma BeforeCons<T>(s: seq<T>, x: T, y: T)
    requires s != []
    ensures Before(s[1..], x, y) ==> Before(s, x, y)
    ensures s[0] == x && y in s[1..] ==> Before(s, x, y)
  {
    if Before(s[1..], x, y) {
      var p, q :| 0 <= p < q < |s[1..]| && s[1..][p] == x && s[1..][q] == y;
      assert s[p + 1] == x && s[q + 1] == y;
    }
    if s[0] == x && y in s[1..] {
      var q :| 0 <= q < |s[1..]| && s[1..][q] == y;
      assert s[q + 1] == y;
    }
  }

  /** Appending an element keeps every order and puts it after the rest. */
  lemma BeforeSnoc<T>(s: seq<T>, x: T, y: T)
    requires s != []
    ensures Before(s[..|s| - 1], x, y) ==> Before(s, x, y)
    ensures s[|s| - 1] == y && x in s[..|s| - 1] ==> Before(s, x, y)
  {
    var init := s[..|s| - 1];
    if Before(init, x, y) {
      var p, q :| 0 <= p < q < |init| && init[p] == x && init[q] == y;
      assert s[p] == x && s[q] == y;
    }
    if s[|s| - 1] == y && x in init {
      var p :| 0 <= p < |init| && init[p] == x;
      assert s[p] == x;
    }
  }

  /**
   * The elements of `s` that `keep` accepts, last first: rows stored in time order, selected by a
   * WHERE clause and read back with `ORDER BY created_at DESC`.
   */
  function KeptNewestFirst<T(!new)>(s: seq<T>, keep: T -> bool): (r: seq<T>)
    ensures |r| <= |s|
    ensures forall x :: x in r <==> x in s && keep(x)
  {
    if s == [] then []
    else
      var last := s[|s| - 1];
      var rest := KeptNewestFirst(s[..|s| - 1], keep);
      assert forall x :: x in s <==> x in s[..|s| - 1] || x == last;
      if keep(last) then [last] + rest else rest
  }

  /** Of two kept elements, the one listed later stands earlier in `s`. */
  lemma KeptInReverseOrder<T(!new)>(s: seq<T>, keep: T -> bool)
    ensures forall i, j :: 0 <= i < j < |KeptNewestFirst(s, keep)| ==>
      Before(s, KeptNewestFirst(s, keep)[j], KeptNewestFirst(s, keep)[i])
  {
    forall i, j | 0 <= i < j < |KeptNewestFirst(s, keep)|
      ensures Before(s, KeptNewestFirst(s, keep)[j], KeptNewestFirst(s, keep)[i])
    {
      KeptPairInReverseOrder(s, keep, i, j);
    }
  }

  lemma {:induction false} KeptPairInReverseOrder<T(!new)>(s: seq<T>, keep: T -> bool, i: nat, j: nat)
    requires i < j < |KeptNewestFirst(s, keep)|
    ensures Before(s, KeptNewestFirst(s, keep)[j], KeptNewestFirst(s, keep)[i])
  {
    var r := KeptNewestFirst(s, keep);
    assert s != [];
    var init := s[..|s| - 1];
    var last := s[|s| - 1];
    var rest := KeptNewestFirst(init, keep);
    if keep(last) {
      assert r == [last] + rest;
      if i == 0 {
        assert r[j] == rest[j - 1] && rest[j - 1] in rest;
        BeforeSnoc(s, rest[j - 1], last);
      } else {
        KeptPairInReverseOrder(init, keep, i - 1, j - 1);
        BeforeSnoc(s, rest[j - 1], rest[i - 1]);
      }
    } else {
      assert r == rest;
      KeptPairInReverseOrder(init, keep, i, j);
      BeforeSnoc(s, rest[j], rest[i]);
    }
  }

  /** Keeping some elements of a sequence without repeats gives a sequence without repeats. */
  lemma {:induction false} KeptOnce<T(!new)>(s: seq<T>, keep: T -> bool)
    requires Distinct(s)
    ensures Distinct(KeptNewestFirst(s, keep))
  {
    if s != [] {
      var init := s[..|s| - 1];
      var last := s[|s| - 1];
      assert Distinct(init) by {
        forall i, j | 0 <= i < j < |init| ensures init[i] != init[j] {
          assert init[i] == s[i] && init[j] == s[j];
        }
      }
      KeptOnce(init, keep);
      assert last !in init by {
        forall i | 0 <= i < |init| ensures init[i] != last {
          assert init[i] == s[i];
        }
      }
      var rest := KeptNewestFirst(init, keep);
      assert forall k :: 0 <= k < |rest| ==> rest[k] in rest && rest[k] != last;
    }
  }

  /** When `keep` accepts every element, everything is kept, last first. */
  lemma {:induction false} KeptAll<T(!new)>(s: seq<T>, keep: T -> bool)
    requires forall x :: x in s ==> keep(x)
    ensures KeptNewestFirst(s, keep) == Reversed(s)
  {
    if s != [] {
      KeptAll(s[..|s| - 1], keep);
    }
  }
}
