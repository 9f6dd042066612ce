/** Facts about sequences, stated once for any element type, that the other modules cite by name. */
module Sequences {

  lemma TakeAll<T>(s: seq<T>)
    ensures s[..|s|] == s
  {
  }

  lemma PrefixStep<T>(s: seq<T>, i: nat)
    requires i < |s|
    ensures s[..i + 1][..i] == s[..i] && s[..i + 1] == s[..i] + [s[i]]
  {
  }

  lemma SplitLast<T>(s: seq<T>)
    requires |s| > 0
    ensures s[..|s| - 1] + [s[|s| - 1]] == s
  {
  }

  lemma InitOfAppend<T>(a: seq<T>, b: seq<T>)
    requires |b| > 0
    ensures (a + b)[..|a + b| - 1] == a + b[..|b| - 1] && (a + b)[|a + b| - 1] == b[|b| - 1]
  {
  }

  lemma AppendAssociative<T>(a: seq<T>, b: seq<T>, c: seq<T>)
    ensures a + (b + c) == (a + b) + c
  {
  }

  lemma SplitAt<T>(s: seq<T>, j: nat)
    requires j <= |s|
    ensures s[..j] + s[j..] == s
  {
  }

  lemma PrefixOfConcat<T>(a: seq<T>, b: seq<T>)
    ensures (a + b)[0..|a|] == a
  {
  }

  lemma SliceOfConcat<T>(a: seq<T>, b: seq<T>, lo: nat, hi: nat)
    requires |a| <= lo <= hi <= |a| + |b|
    ensures (a + b)[lo..hi] == b[lo - |a|..hi - |a|]
  {
  }

  lemma SliceOfSuffix<T>(s: seq<T>, b: nat, lo: nat, hi: nat)
    requires lo <= hi && b + hi <= |s|
    ensures s[b..][lo..hi] == s[b + lo..b + hi]
  {
  }

  /** `[f(x) for x in xs]`. */
  function MapSeq<A, B>(f: A -> B, xs: seq<A>): (r: seq<B>)
    ensures |r| == |xs|
    ensures forall i :: 0 <= i < |xs| ==> r[i] == f(xs[i])
  {
    if |xs| == 0 then [] else MapSeq(f, xs[..|xs| - 1]) + [f(xs[|xs| - 1])]
  }

  /** Mapping one more item of a prefix appends its image. */
  lemma MapSeqStep<A, B>(f: A -> B, xs: seq<A>, k: nat)
    requires k < |xs|
    ensures MapSeq(f, xs[..k + 1]) == MapSeq(f, xs[..k]) + [f(xs[k])]
  {
    PrefixStep(xs, k);
  }

  /** `[x for x in xs if keep(x)]`. */
  function Filter<T>(keep: T -> bool, xs: seq<T>): (r: seq<T>)
    ensures |r| <= |xs|
  {
    if |xs| == 0 then [] else Filter(keep, xs[..|xs| - 1]) + (if keep(xs[|xs| - 1]) then [xs[|xs| - 1]] else [])
  }

  /** A filter keeps exactly the items of the input that pass it. */
  lemma {:induction false} FilterFacts<T>(keep: T -> bool, xs: seq<T>)
    ensures forall k :: 0 <= k < |Filter(keep, xs)| ==> keep(Filter(keep, xs)[k]) && Filter(keep, xs)[k] in xs
    ensures forall x :: x in xs && keep(x) ==> x in Filter(keep, xs)
  {
    if |xs| > 0 {
      FilterFacts(keep, xs[..|xs| - 1]);
      SplitLast(xs);
    }
  }

  /** Filtering a concatenation filters each part: items kept from an earlier part come before those from a later one. */
  lemma {:induction false} FilterConcat<T>(keep: T -> bool, a: seq<T>, b: seq<T>)
    ensures Filter(keep, a + b) == Filter(keep, a) + Filter(keep, b)
    decreases |b|
  {
    if |b| > 0 {
      var init := b[..|b| - 1];
      assert (a + b)[..|a + b| - 1] == a + init && (a + b)[|a + b| - 1] == b[|b| - 1];
      FilterConcat(keep, a, init);
    } else {
      assert a + b == a;
    }
  }

  /** A filter keeps every passing item as often as it occurs, and no other item. */
  lemma {:induction false} FilterMultiset<T>(keep: T -> bool, xs: seq<T>)
    ensures forall x :: multiset(Filter(keep, xs))[x] == if keep(x) then multiset(xs)[x] else 0
  {
    if |xs| > 0 {
      FilterMultiset(keep, xs[..|xs| - 1]);
      SplitLast(xs);
      assert multiset(xs) == multiset(xs[..|xs| - 1]) + multiset{xs[|xs| - 1]} by {
        assert xs == xs[..|xs| - 1] + [xs[|xs| - 1]];
      }
    }
  }

  /** A filter that every item passes keeps the whole sequence. */
  lemma {:induction false} FilterAll<T>(keep: T -> bool, xs: seq<T>)
    requires forall k :: 0 <= k < |xs| ==> keep(xs[k])
    ensures Filter(keep, xs) == xs
  {
    if |xs| > 0 {
      FilterAll(keep, xs[..|xs| - 1]);
      SplitLast(xs);
    }
  }

  /** Filtering the images by `keep` is mapping the items that pass `pass`, when the two tests agree. */
  lemma {:induction false} FilterMap<A, B>(keep: B -> bool, pass: A -> bool, f: A -> B, xs: seq<A>)
    requires forall x :: keep(f(x)) == pass(x)
    ensures Filter(keep, MapSeq(f, xs)) == MapSeq(f, Filter(pass, xs))
  {
    if |xs| > 0 {
      var init := xs[..|xs| - 1];
      FilterMap(keep, pass, f, init);
      assert MapSeq(f, xs)[..|xs| - 1] == MapSeq(f, init);
      var tail := if pass(xs[|xs| - 1]) then [xs[|xs| - 1]] else [];
      assert MapSeq(f, Filter(pass, init) + tail) == MapSeq(f, Filter(pass, init)) + MapSeq(f, tail) by {
        MapSeqConcat(f, Filter(pass, init), tail);
      }
    }
  }

  /** Mapping a concatenation maps each part. */
  lemma MapSeqConcat<A, B>(f: A -> B, a: seq<A>, b: seq<A>)
    ensures MapSeq(f, a + b) == MapSeq(f, a) + MapSeq(f, b)
  {
  }

  /** A slice of the tail sits `|head|` positions further on in `head + tail`. */
  lemma ShiftSlice<T>(whole: seq<T>, head: seq<T>, tail: seq<T>, o: nat, n: nat, part: seq<T>)
    requires whole == head + tail && o + n <= |tail| && tail[o..o + n] == part
    ensures |head| + o + n <= |whole| && whole[|head| + o..|head| + o + n] == part
  {
    SliceOfConcat(head, tail, |head| + o, |head| + o + n);
  }
}
