/**
 * Filtering a sequence in order: the shape shared by the port-list parser
 * (keep the pieces that name a port) and the result aggregation (keep the
 * open results).
 */
module Seqs {
  import opened Wrappers

  /** What f gives for the elements of s, in order; the elements it gives nothing for are dropped. */
  function FilterMap<A, B>(f: A -> Option<B>, s: seq<A>): (r: seq<B>)
    ensures |r| <= |s|
  {
    if |s| == 0 then []
    else FilterMap(f, s[..|s| - 1]) + Kept(f, s[|s| - 1])
  }

  /** What one element contributes to FilterMap. */
  function Kept<A, B>(f: A -> Option<B>, a: A): (r: seq<B>)
    ensures |r| <= 1
  {
    match f(a)
    case Some(b) => [b]
    case None => []
  }

  /** Extending the input by one element extends the result by what that element contributes. */
  lemma FilterMapPrefix<A, B>(f: A -> Option<B>, s: seq<A>, i: nat)
    requires i < |s|
    ensures FilterMap(f, s[..i + 1]) == FilterMap(f, s[..i]) + Kept(f, s[i])
  {
    assert s[..i + 1][..i] == s[..i];
  }

  /** One more element at the end contributes what Kept gives for it. */
  lemma FilterMapSnoc<A, B>(f: A -> Option<B>, s: seq<A>, a: A)
    ensures FilterMap(f, s + [a]) == FilterMap(f, s) + Kept(f, a)
  {
    assert (s + [a])[..|s|] == s;
  }

  /** FilterMap works piece by piece, so it keeps the order of s. */
  lemma {:induction false} FilterMapAppend<A, B>(f: A -> Option<B>, s: seq<A>, t: seq<A>)
    ensures FilterMap(f, s + t) == FilterMap(f, s) + FilterMap(f, t)
    decreases |t|
  {
    if |t| == 0 {
      assert s + t == s;
    } else {
      var t', last := t[..|t| - 1], t[|t| - 1];
      calc {
        FilterMap(f, s + t);
        { assert s + t == (s + t') + [last]; }
        FilterMap(f, (s + t') + [last]);
        { FilterMapSnoc(f, s + t', last); }
        FilterMap(f, s + t') + Kept(f, last);
        { FilterMapAppend(f, s, t'); }
        FilterMap(f, s) + FilterMap(f, t') + Kept(f, last);
        { FilterMapSnoc(f, t', last); assert t' + [last] == t; }
        FilterMap(f, s) + FilterMap(f, t);
      }
    }
  }

  /** b is in the result exactly when f gives b for some element. */
  lemma {:induction false} FilterMapMembership<A, B>(f: A -> Option<B>, s: seq<A>, b: B)
    ensures b in FilterMap(f, s) <==> exists i :: 0 <= i < |s| && f(s[i]) == Some(b)
  {
    if |s| > 0 {
      var init := s[..|s| - 1];
      FilterMapMembership(f, init, b);
      if exists i :: 0 <= i < |init| && f(init[i]) == Some(b) {
        var i :| 0 <= i < |init| && f(init[i]) == Some(b);
        assert s[i] == init[i];
      }
      if exists i :: 0 <= i < |s| && f(s[i]) == Some(b) {
        var i :| 0 <= i < |s| && f(s[i]) == Some(b);
        if i < |init| { assert init[i] == s[i]; }
      }
    }
  }

  /** Every element of the result satisfies P when everything f gives does. */
  lemma {:induction false} FilterMapAll<A, B>(f: A -> Option<B>, s: seq<A>, P: B -> bool)
    requires forall a :: f(a).Some? ==> P(f(a).value)
    ensures forall i :: 0 <= i < |FilterMap(f, s)| ==> P(FilterMap(f, s)[i])
  {
    if |s| > 0 {
      FilterMapAll(f, s[..|s| - 1], P);
    }
  }

  /** Two filters that agree element by element produce the same result. */
  lemma {:induction false} FilterMapPointwise<A, B, C>(f: A -> Option<C>, g: B -> Option<C>, s: seq<A>, t: seq<B>)
    requires |s| == |t|
    requires forall i :: 0 <= i < |s| ==> f(s[i]) == g(t[i])
    ensures FilterMap(f, s) == FilterMap(g, t)
    decreases |s|
  {
    if |s| > 0 {
      var n := |s| - 1;
      FilterMapPointwise(f, g, s[..n], t[..n]);
      assert f(s[n]) == g(t[n]);
    }
  }

  /** When f keeps every element as it is, the result is s itself. */
  lemma {:induction false} FilterMapKeepAll<A>(f: A -> Option<A>, s: seq<A>)
    requires forall i :: 0 <= i < |s| ==> f(s[i]) == Some(s[i])
    ensures FilterMap(f, s) == s
  {
    if |s| > 0 {
      FilterMapKeepAll(f, s[..|s| - 1]);
    }
  }

  /** When f gives nothing for any element, the result is empty. */
  lemma {:induction false} FilterMapDropAll<A, B>(f: A -> Option<B>, s: seq<A>)
    requires forall i :: 0 <= i < |s| ==> f(s[i]).None?
    ensures FilterMap(f, s) == []
  {
    if |s| > 0 {
      FilterMapDropAll(f, s[..|s| - 1]);
    }
  }

  /**
   * When f only keeps or drops elements, each kept element occurs in the
   * result as often as in s.
   */
  lemma {:induction false} FilterCount<A>(f: A -> Option<A>, s: seq<A>, x: A)
    requires forall a :: f(a) == None || f(a) == Some(a)
    ensures multiset(FilterMap(f, s))[x] == if f(x).Some? then multiset(s)[x] else 0
  {
    if |s| > 0 {
      var init, last := s[..|s| - 1], s[|s| - 1];
      FilterCount(f, init, x);
      assert s == init + [last];
      assert multiset(FilterMap(f, s)) == multiset(FilterMap(f, init)) + multiset(Kept(f, last));
    }
  }

  /** A filter's result, as a multiset, does not depend on the order of its input. */
  lemma FilterPermutation<A>(f: A -> Option<A>, s: seq<A>, t: seq<A>)
    requires forall a :: f(a) == None || f(a) == Some(a)
    requires multiset(s) == multiset(t)
    ensures multiset(FilterMap(f, s)) == multiset(FilterMap(f, t))
  {
    var ms, mt := multiset(FilterMap(f, s)), multiset(FilterMap(f, t));
    forall x ensures ms[x] == mt[x] {
      FilterCount(f, s, x);
      FilterCount(f, t, x);
    }
    MultisetsEqual(ms, mt);
  }

  /** Two multisets that agree on every element are equal. */
  lemma MultisetsEqual<A>(a: multiset<A>, b: multiset<A>)
    requires forall x :: a[x] == b[x]
    ensures a == b
  {
  }
}
