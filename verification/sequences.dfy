/** The list operations the service applies to provider data and to its own
    per-holding results: a leading slice (`items[:30]`), in-place reversal
    (`l.reverse()`), and the `if stock_data:` filter that keeps only the
    entries whose lookup succeeded. */
module Sequences {
  import opened Wrappers

  function Min(a: int, b: int): int {
    if a <= b then a else b
  }

  /** `s[:n]`: the first `n` elements, or all of them when there are fewer. */
  function Prefix<T>(s: seq<T>, n: nat): (r: seq<T>)
    ensures |r| == Min(|s|, n)
    ensures r <= s
  {
    if |s| <= n then s else s[..n]
  }

  /** `l.reverse()`. */
  function Reverse<T>(s: seq<T>): (r: seq<T>)
    ensures |r| == |s|
    ensures forall i :: 0 <= i < |s| ==> r[i] == s[|s| - 1 - i]
  {
    if |s| == 0 then [] else Reverse(s[1..]) + [s[0]]
  }

  /** Reversing twice restores the list. */
  lemma ReverseReverse<T>(s: seq<T>)
    ensures Reverse(Reverse(s)) == s
  {
    var r := Reverse(Reverse(s));
    assert forall i :: 0 <= i < |s| ==> r[i] == s[i];
  }

  /** The pairs whose second component is present, unwrapped, in their original
      order: a loop that appends only `if stock_data:`. */
  function Present<A, B>(ps: seq<(A, Option<B>)>): (r: seq<(A, B)>)
    ensures |r| <= |ps|
    ensures forall k :: 0 <= k < |r| ==> (r[k].0, Some(r[k].1)) in ps
  {
    if |ps| == 0 then []
    else
      var init := Present(ps[..|ps| - 1]);
      match ps[|ps| - 1].1
      case Some(b) => init + [(ps[|ps| - 1].0, b)]
      case None => init
  }

  /** Filtering a concatenation filters each part: the filter keeps relative order. */
  lemma {:induction false} PresentAppend<A, B>(a: seq<(A, Option<B>)>, b: seq<(A, Option<B>)>)
    ensures Present(a + b) == Present(a) + Present(b)
    decreases |b|
  {
    if |b| == 0 {
      assert a + b == a;
    } else {
      var b' := b[..|b| - 1];
      PresentAppend(a, b');
      assert (a + b)[..|a + b| - 1] == a + b';
      assert b[..|b| - 1] == b';
    }
  }

  /** An entry whose lookup failed contributes nothing. */
  lemma PresentSkips<A, B>(a: seq<(A, Option<B>)>, x: A, b: seq<(A, Option<B>)>)
    ensures Present(a + [(x, None)] + b) == Present(a + b)
  {
    PresentAppend(a + [(x, None)], b);
    PresentAppend(a, [(x, None)]);
    PresentAppend(a, b);
    var none: seq<(A, Option<B>)> := [(x, None)];
    assert none[..0] == [];
  }

  /** An entry whose lookup succeeded contributes exactly its unwrapped self, in place. */
  lemma PresentKeeps<A, B>(a: seq<(A, Option<B>)>, x: A, y: B, b: seq<(A, Option<B>)>)
    ensures Present(a + [(x, Some(y))] + b) == Present(a) + [(x, y)] + Present(b)
  {
    PresentAppend(a + [(x, Some(y))], b);
    PresentAppend(a, [(x, Some(y))]);
    assert [(x, Some(y))][..0] == [];
  }

  /** A pair is kept exactly when the input carried it with its value present. */
  lemma {:induction false} PresentMembership<A, B>(ps: seq<(A, Option<B>)>, x: A, y: B)
    ensures (x, y) in Present(ps) <==> (x, Some(y)) in ps
  {
    if |ps| > 0 {
      var init := ps[..|ps| - 1];
      PresentMembership(init, x, y);
      assert ps == init + [ps[|ps| - 1]];
    }
  }

  /** `f` applied to every element in order, stopping at the first failure:
      a loop whose body may raise. */
  function Traverse<T, U>(f: T -> Option<U>, s: seq<T>): (r: Option<seq<U>>)
    ensures r.Some? ==> |r.value| == |s|
  {
    if |s| == 0 then Some([])
    else
      match (Traverse(f, s[..|s| - 1]), f(s[|s| - 1]))
      case (Some(init), Some(last)) => Some(init + [last])
      case _ => None
  }

  /** A traversal succeeds exactly when `f` succeeds on every element, and then
      holds `f`'s results element by element. */
  lemma {:induction false} TraverseAllOrNothing<T, U>(f: T -> Option<U>, s: seq<T>)
    ensures Traverse(f, s).Some? <==> forall i :: 0 <= i < |s| ==> f(s[i]).Some?
    ensures Traverse(f, s).Some? ==> forall i :: 0 <= i < |s| ==> f(s[i]) == Some(Traverse(f, s).value[i])
  {
    if |s| > 0 {
      var init := s[..|s| - 1];
      TraverseAllOrNothing(f, init);
      assert forall i :: 0 <= i < |init| ==> init[i] == s[i];
      if Traverse(f, s).Some? {
        var r := Traverse(f, s).value;
        var front := Traverse(f, init).value;
        assert r == front + [f(s[|s| - 1]).value];
        forall i | 0 <= i < |s|
          ensures f(s[i]) == Some(r[i])
        {
          if i < |init| {
            assert r[i] == front[i];
          }
        }
      }
    }
  }

  /** A failing element makes the whole traversal fail. */
  lemma TraverseFails<T, U>(f: T -> Option<U>, s: seq<T>, i: nat)
    requires i < |s| && f(s[i]).None?
    ensures Traverse(f, s) == None
  {
    TraverseAllOrNothing(f, s);
  }

  /** Extending a successful traversal of `s[..i]` by one successful element. */
  lemma TraverseStep<T, U>(f: T -> Option<U>, s: seq<T>, i: nat, r: seq<U>, x: U)
    requires i < |s| && Traverse(f, s[..i]) == Some(r) && f(s[i]) == Some(x)
    ensures Traverse(f, s[..i + 1]) == Some(r + [x])
  {
    assert s[..i + 1][..i] == s[..i];
  }

  /** A successful traversal of the first `n` elements holds `f`'s result for each of them. */
  lemma TraversePrefix<T, U>(f: T -> Option<U>, s: seq<T>, n: nat, r: seq<U>)
    requires n <= |s| && Traverse(f, s[..n]) == Some(r)
    ensures |r| == n
    ensures forall k :: 0 <= k < n ==> f(s[k]) == Some(r[k])
  {
    TraverseAllOrNothing(f, s[..n]);
    forall k | 0 <= k < n
      ensures f(s[k]) == Some(r[k])
    {
      assert s[..n][k] == s[k];
    }
  }

  /** A traversal whose every step yields the given result produces exactly those results. */
  lemma TraverseOf<T, U>(f: T -> Option<U>, s: seq<T>, out: seq<U>)
    requires |out| == |s| && forall k :: 0 <= k < |s| ==> f(s[k]) == Some(out[k])
    ensures Traverse(f, s) == Some(out)
  {
    TraverseAllOrNothing(f, s);
    var r := Traverse(f, s).value;
    assert forall k :: 0 <= k < |s| ==> r[k] == out[k];
    assert r == out;
  }

  /** Traversing the reversed list gives the reversed results. */
  lemma TraverseReversed<T, U>(f: T -> Option<U>, s: seq<T>, out: seq<U>)
    requires |out| == |s| && forall k :: 0 <= k < |s| ==> f(s[k]) == Some(out[k])
    ensures Traverse(f, Reverse(s)) == Some(Reverse(out))
  {
    var back, outBack := Reverse(s), Reverse(out);
    forall k | 0 <= k < |back|
      ensures f(back[k]) == Some(outBack[k])
    {
      var j := |s| - 1 - k;
      assert back[k] == s[j] && outBack[k] == out[j];
    }
    TraverseOf(f, back, outBack);
  }
}
