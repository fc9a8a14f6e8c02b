/** The list idioms the core repeats: build a list in a loop, find the first match, filter, `join`, `str(n)`. */
module Lists {

  /** The list a loop builds by appending one value per element, in order. */
  function MapSeq<A, B>(f: A -> B, xs: seq<A>): (r: seq<B>)
    ensures |r| == |xs| && forall i :: 0 <= i < |xs| ==> r[i] == f(xs[i])
  {
    seq(|xs|, i requires 0 <= i < |xs| => f(xs[i]))
  }

  /** The loop itself: `for x in xs: out.append(f(x))`. */
  method Collect<A, B>(f: A -> B, xs: seq<A>) returns (r: seq<B>)
    ensures r == MapSeq(f, xs)
  {
    r := [];
    for k := 0 to |xs|
      invariant |r| == k && forall i :: 0 <= i < k ==> r[i] == f(xs[i])
    {
      r := r + [f(xs[k])];
    }
  }

  /** The index of the first element from `k` on that satisfies `p`, or -1. */
  function FirstFrom<T>(p: T -> bool, xs: seq<T>, k: nat): (i: int)
    requires k <= |xs|
    ensures i == -1 || (k <= i < |xs| && p(xs[i]))
    decreases |xs| - k
  {
    if k == |xs| then -1 else if p(xs[k]) then k else FirstFrom(p, xs, k + 1)
  }

  /** No element before the one `FirstFrom` returns satisfies `p`; none at all when it returns -1. */
  lemma {:induction false} FirstFromFirst<T>(p: T -> bool, xs: seq<T>, k: nat)
    requires k <= |xs|
    ensures forall j :: k <= j < |xs| && (FirstFrom(p, xs, k) == -1 || j < FirstFrom(p, xs, k)) ==> !p(xs[j])
    decreases |xs| - k
  {
    if k < |xs| && !p(xs[k]) {
      FirstFromFirst(p, xs, k + 1);
    }
  }

  /** The first index whose element satisfies `p`, or -1: the `for x in xs: if p(x): ...` search. */
  function FirstWhere<T>(p: T -> bool, xs: seq<T>): (i: int)
    ensures -1 <= i < |xs|
  {
    FirstFrom(p, xs, 0)
  }

  /** `FirstWhere` finds exactly the first witness, and -1 means there is none. */
  lemma FirstWhereSpec<T>(p: T -> bool, xs: seq<T>)
    ensures FirstWhere(p, xs) == -1 <==> forall j :: 0 <= j < |xs| ==> !p(xs[j])
    ensures FirstWhere(p, xs) >= 0 ==> p(xs[FirstWhere(p, xs)])
    ensures forall j :: 0 <= j < FirstWhere(p, xs) ==> !p(xs[j])
  {
    FirstFromFirst(p, xs, 0);
  }

  /** `sep.join(xs)`. */
  function Join(sep: string, xs: seq<string>): (r: string)
    ensures xs == [] ==> r == []
    ensures |xs| == 1 ==> r == xs[0]
  {
    if xs == [] then [] else if |xs| == 1 then xs[0] else xs[0] + sep + Join(sep, xs[1..])
  }

  /** The elements of `xs` that satisfy `p`, in order (a list comprehension with a filter). */
  function Filter<T>(p: T -> bool, xs: seq<T>): (r: seq<T>)
    ensures |r| <= |xs|
    ensures forall i :: 0 <= i < |r| ==> p(r[i])
    ensures r == [] <==> forall i :: 0 <= i < |xs| ==> !p(xs[i])
  {
    if xs == [] then []
    else (if p(xs[0]) then [xs[0]] else []) + Filter(p, xs[1..])
  }

  /** What the filter keeps: exactly the elements that satisfy `p`, in their original order. */
  lemma {:induction false} FilterMembers<T>(p: T -> bool, xs: seq<T>)
    ensures forall x :: x in Filter(p, xs) <==> x in xs && p(x)
  {
    if xs != [] {
      FilterMembers(p, xs[1..]);
      assert xs == [xs[0]] + xs[1..];
    }
  }

  /** `str(n)` for a natural number. */
  function NatToString(n: nat): (s: string)
    ensures s != []
    ensures forall i :: 0 <= i < |s| ==> '0' <= s[i] <= '9'
  {
    var d := ['0' + (n % 10) as char];
    if n < 10 then d else NatToString(n / 10) + d
  }
}
