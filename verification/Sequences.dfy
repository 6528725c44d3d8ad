/** Options and the few facts about sequences that the other modules share. */
module Sequences {

  datatype Option<+T> = None | Some(value: T)

  ghost predicate NoDup<T>(s: seq<T>) {
    forall i, j :: 0 <= i < j < |s| ==> s[i] != s[j]
  }

  /** `s` with the element at position `k` taken out. */
  function Without<T>(s: seq<T>, k: nat): seq<T>
    requires k < |s|
  {
    s[..k] + s[k + 1..]
  }

  /** `x` stands somewhere in front of `y` in `s`. */
  ghost predicate Before<T>(s: seq<T>, x: T, y: T) {
    exists i, j :: 0 <= i < j < |s| && s[i] == x && s[j] == y
  }

  lemma PutIn<T>(s: seq<T>, x: T)
    requires NoDup(s) && x !in s
    ensures NoDup(s + [x]) && NoDup([x] + s)
    ensures forall y :: y in s + [x] <==> y in s || y == x
    ensures forall y :: y in [x] + s <==> y in s || y == x
  {
  }

  lemma TakeOut<T>(s: seq<T>, k: nat)
    requires NoDup(s) && k < |s|
    ensures NoDup(Without(s, k))
    ensures forall x :: x in Without(s, k) <==> x in s && x != s[k]
  {
  }

  lemma TakeFirst<T>(s: seq<T>)
    requires NoDup(s) && s != []
    ensures NoDup(s[1..])
    ensures forall x :: x in s[1..] <==> x in s && x != s[0]
  {
  }

  lemma TakeLast<T>(s: seq<T>)
    requires NoDup(s) && s != []
    ensures NoDup(s[..|s| - 1])
    ensures forall x :: x in s[..|s| - 1] <==> x in s && x != s[|s| - 1]
  {
  }

  /** Taking out an element other than `x` and `y` keeps their order; putting
      one in front or at the back does too. */
  lemma BeforeWithout<T>(s: seq<T>, k: nat, x: T, y: T)
    requires k < |s| && Before(s, x, y) && s[k] != x && s[k] != y
    ensures Before(Without(s, k), x, y)
  {
    var i, j :| 0 <= i < j < |s| && s[i] == x && s[j] == y;
    var w := Without(s, k);
    var i' := if i < k then i else i - 1;
    var j' := if j < k then j else j - 1;
    assert w[i'] == x && w[j'] == y;
  }

  lemma BeforeGrow<T>(s: seq<T>, z: T, x: T, y: T)
    requires Before(s, x, y)
    ensures Before(s + [z], x, y) && Before([z] + s, x, y)
  {
    var i, j :| 0 <= i < j < |s| && s[i] == x && s[j] == y;
    var a, b := s + [z], [z] + s;
    assert a[i] == x && a[j] == y;
    assert b[i + 1] == x && b[j + 1] == y;
  }

  lemma BeforeAppend<T>(s: seq<T>, x: T, y: T)
    requires x in s
    ensures Before(s + [y], x, y)
  {
    var i :| 0 <= i < |s| && s[i] == x;
    var a := s + [y];
    assert a[i] == x && a[|s|] == y;
  }
}
