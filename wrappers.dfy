/** Optional values: Python's `None` next to a present value. */
module Wrappers {

  datatype Option<+T> = None | Some(value: T) {

    /** The value, or `default` when there is none (`d.get(key, default)`). */
    function GetOr(default: T): T {
      match this
      case Some(v) => v
      case None => default
    }
  }

  /**
   * A dictionary entry whose absence and whose `None` value are told apart:
   * `d.get(key, default)` gives `default` only for an absent key.
   */
  datatype Field<+T> = Absent | Null | Present(value: T)

  /** Storing an optional value under a key: the key is then present, holding `None` or the value. */
  function ToField<T>(o: Option<T>): (f: Field<T>)
    ensures f != Absent
    ensures f.Present? <==> o.Some?
    ensures o.Some? ==> f.value == o.value
  {
    match o
    case None => Null
    case Some(v) => Present(v)
  }

  /** The position of the first element of `s` that satisfies `p` (a query's `.first()`). */
  function FirstIndex<T>(s: seq<T>, p: T -> bool): (r: Option<nat>)
    ensures r.Some? ==> r.value < |s| && p(s[r.value])
    ensures r.Some? ==> forall j :: 0 <= j < r.value ==> !p(s[j])
    ensures r.None? ==> forall j :: 0 <= j < |s| ==> !p(s[j])
  {
    if s == [] then None
    else if p(s[0]) then Some(0)
    else
      match FirstIndex(s[1..], p)
      case None => None
      case Some(i) => Some(i + 1)
  }

  /** The first position satisfying `p` is unique. */
  lemma FirstIndexUnique<T>(s: seq<T>, p: T -> bool, k: nat)
    requires k < |s| && p(s[k]) && forall j :: 0 <= j < k ==> !p(s[j])
    ensures FirstIndex(s, p) == Some(k)
  {
  }

  /** `f` applied to every element of `xs`, in order (a list comprehension over `xs`). */
  function MapSeq<T, U>(f: T --> U, xs: seq<T>): (r: seq<U>)
    requires forall i :: 0 <= i < |xs| ==> f.requires(xs[i])
    ensures |r| == |xs|
  {
    if xs == [] then []
    else MapSeq(f, xs[..|xs| - 1]) + [f(xs[|xs| - 1])]
  }

  /** The `i`-th mapped element is `f` of the `i`-th element. */
  lemma {:induction false} MapSeqAt<T, U>(f: T --> U, xs: seq<T>, i: nat)
    requires forall j :: 0 <= j < |xs| ==> f.requires(xs[j])
    requires i < |xs|
    ensures MapSeq(f, xs)[i] == f(xs[i])
    decreases |xs|
  {
    var n := |xs| - 1;
    if i < n {
      MapSeqAt(f, xs[..n], i);
      assert xs[..n][i] == xs[i];
    }
  }

  /** Mapping a prefix one element longer appends `f` of that element. */
  lemma MapSeqSnoc<T, U>(f: T --> U, xs: seq<T>, k: nat)
    requires forall j :: 0 <= j < |xs| ==> f.requires(xs[j])
    requires k < |xs|
    ensures MapSeq(f, xs[..k + 1]) == MapSeq(f, xs[..k]) + [f(xs[k])]
  {
    assert xs[..k + 1][..k] == xs[..k];
  }

  /** What `a + b` is a prefix of, `a` is a prefix of. */
  lemma PrefixOfAppendTrans<T>(a: seq<T>, b: seq<T>, c: seq<T>)
    requires a + b <= c
    ensures a <= c
  {
    assert c[..|a|] == (a + b)[..|a|];
  }
}
