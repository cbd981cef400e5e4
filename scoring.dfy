/** The scoring half of the indexator's `index`: `Indexator.compare`, the
    sort it drives, the frequency statistics, the normalisation of
    specificities and the optional truncation at the average. Numbers are
    `real`s (see README for what that leaves out). */
module Scoring {

  /** An extracted term once it has been scored: the extractor's entry,
      plus `specificity`, `probability` and `term`. */
  datatype Keyword = Keyword(term: string, frequency: nat, strength: nat, specificity: real, probability: real)

  /** `Indexator.compare(a, b)`: -1 puts `a` first, 1 puts `b` first. */
  function Compare(a: Keyword, b: Keyword): (r: int)
    ensures r == -1 <==> a.specificity > b.specificity
    ensures r == 1 <==> a.specificity < b.specificity
    ensures r == 0 <==> a.specificity == b.specificity
  {
    if a.specificity > b.specificity then -1
    else if a.specificity < b.specificity then 1
    else 0
  }

  /** Swapping the arguments negates the answer. */
  lemma CompareAntisymmetric(a: Keyword, b: Keyword)
    ensures Compare(a, b) == -Compare(b, a)
  {
  }

  /** The comparator is a total preorder, as a sort needs it to be. */
  lemma CompareTransitive(a: Keyword, b: Keyword, c: Keyword)
    requires Compare(a, b) <= 0 && Compare(b, c) <= 0
    ensures Compare(a, c) <= 0
  {
  }

  // ---------------------------------------------------------------------
  // `keywords.sort(Indexator.compare)`: a stable sort.

  /** No keyword is followed by one `compare` would put before it. */
  predicate Ordered(s: seq<Keyword>)
  {
    forall i, j :: 0 <= i < j < |s| ==> s[i].specificity >= s[j].specificity
  }

  /** Puts `k` in front of the first keyword whose specificity is not
      above its own. */
  function Insert(k: Keyword, s: seq<Keyword>): seq<Keyword>
  {
    if s == [] then [k]
    else if k.specificity >= s[0].specificity then [k] + s
    else [s[0]] + Insert(k, s[1..])
  }

  /** The sorted keywords; equal keywords keep their order. */
  function Sort(ks: seq<Keyword>): seq<Keyword>
  {
    if ks == [] then [] else Insert(ks[0], Sort(ks[1..]))
  }

  lemma {:induction false} InsertPermutes(k: Keyword, s: seq<Keyword>)
    ensures multiset(Insert(k, s)) == multiset(s) + multiset{k}
  {
    if s == [] {
    } else if k.specificity >= s[0].specificity {
      assert Insert(k, s) == [k] + s;
    } else {
      var rest := Insert(k, s[1..]);
      InsertPermutes(k, s[1..]);
      assert Insert(k, s) == [s[0]] + rest;
      assert s == [s[0]] + s[1..];
      assert multiset(Insert(k, s)) == multiset{s[0]} + multiset(rest);
      assert multiset(s) == multiset{s[0]} + multiset(s[1..]);
    }
  }

  lemma {:induction false} InsertOrdered(k: Keyword, s: seq<Keyword>)
    requires Ordered(s)
    ensures Ordered(Insert(k, s))
  {
    if s == [] {
    } else if k.specificity >= s[0].specificity {
      OrderedCons(k, s);
    } else {
      var rest := Insert(k, s[1..]);
      InsertOrdered(k, s[1..]);
      InsertBounded(k, s[1..], s[0].specificity);
      OrderedCons(s[0], rest);
      assert Insert(k, s) == [s[0]] + rest;
    }
  }

  /** A bound on every specificity survives an insertion below it. */
  lemma {:induction false} InsertBounded(k: Keyword, s: seq<Keyword>, x: real)
    requires x >= k.specificity
    requires forall i :: 0 <= i < |s| ==> x >= s[i].specificity
    ensures forall i :: 0 <= i < |Insert(k, s)| ==> x >= Insert(k, s)[i].specificity
  {
    if s != [] && k.specificity < s[0].specificity {
      InsertBounded(k, s[1..], x);
      assert Insert(k, s) == [s[0]] + Insert(k, s[1..]);
    }
  }

  lemma OrderedCons(k: Keyword, s: seq<Keyword>)
    requires Ordered(s)
    requires forall i :: 0 <= i < |s| ==> k.specificity >= s[i].specificity
    ensures Ordered([k] + s)
  {
    forall i, j | 0 <= i < j < |[k] + s|
      ensures ([k] + s)[i].specificity >= ([k] + s)[j].specificity
    {
      assert ([k] + s)[j] == s[j - 1];
      if i > 0 {
        assert ([k] + s)[i] == s[i - 1];
      }
    }
  }

  /** Sorting gives a permutation of its input. */
  lemma {:induction false} SortPermutes(ks: seq<Keyword>)
    ensures multiset(Sort(ks)) == multiset(ks)
  {
    if ks != [] {
      SortPermutes(ks[1..]);
      InsertPermutes(ks[0], Sort(ks[1..]));
      assert ks == [ks[0]] + ks[1..];
    }
  }

  /** Sorting gives specificities that never increase along the result:
      `compare` never puts a keyword before one it follows. */
  lemma {:induction false} SortOrdered(ks: seq<Keyword>)
    ensures Ordered(Sort(ks))
    ensures forall i, j :: 0 <= i < j < |Sort(ks)| ==> Compare(Sort(ks)[i], Sort(ks)[j]) <= 0
  {
    if ks != [] {
      SortOrdered(ks[1..]);
      InsertOrdered(ks[0], Sort(ks[1..]));
    }
  }

  /** The keywords of specificity `v`, in order. */
  function WithSpecificity(s: seq<Keyword>, v: real): seq<Keyword>
  {
    if s == [] then []
    else (if s[0].specificity == v then [s[0]] else []) + WithSpecificity(s[1..], v)
  }

  lemma {:induction false} InsertStable(k: Keyword, s: seq<Keyword>, v: real)
    ensures WithSpecificity(Insert(k, s), v)
         == (if k.specificity == v then [k] else []) + WithSpecificity(s, v)
  {
    if s != [] {
      if k.specificity >= s[0].specificity {
        assert ([k] + s)[1..] == s;
      } else {
        InsertStable(k, s[1..], v);
        assert ([s[0]] + Insert(k, s[1..]))[1..] == Insert(k, s[1..]);
      }
    }
  }

  /** The sort is stable: keywords of equal specificity keep their
      relative order. */
  lemma {:induction false} SortStable(ks: seq<Keyword>, v: real)
    ensures WithSpecificity(Sort(ks), v) == WithSpecificity(ks, v)
  {
    if ks != [] {
      SortStable(ks[1..], v);
      InsertStable(ks[0], Sort(ks[1..]), v);
    }
  }

  // ---------------------------------------------------------------------
  // Frequency statistics.

  /** `frequencies.total`: the sum of the frequencies. */
  function Total(fs: seq<nat>): nat
  {
    if fs == [] then 0 else Total(fs[..|fs| - 1]) + fs[|fs| - 1]
  }

  /** `frequencies.max`: starts at 0 and takes every larger frequency. */
  function MaxFrequency(fs: seq<nat>): nat
  {
    if fs == [] then 0
    else
      var m := MaxFrequency(fs[..|fs| - 1]);
      if m < fs[|fs| - 1] then fs[|fs| - 1] else m
  }

  /** The maximum is an upper bound, and one of the frequencies (or 0 for
      no frequencies). */
  lemma {:induction false} MaxFrequencyIsMaximum(fs: seq<nat>)
    ensures forall i :: 0 <= i < |fs| ==> fs[i] <= MaxFrequency(fs)
    ensures fs == [] ==> MaxFrequency(fs) == 0
    ensures fs != [] ==> MaxFrequency(fs) in fs
  {
    if fs != [] {
      var init := fs[..|fs| - 1];
      MaxFrequencyIsMaximum(init);
      assert forall x :: x in init ==> x in fs;
    }
  }

  /** Frequencies of at least 1 add up to at least their number. */
  lemma {:induction false} TotalAtLeastCount(fs: seq<nat>)
    requires forall i :: 0 <= i < |fs| ==> fs[i] >= 1
    ensures Total(fs) >= |fs|
  {
    if fs != [] {
      TotalAtLeastCount(fs[..|fs| - 1]);
    }
  }

  /** No frequency exceeds the total. */
  lemma {:induction false} TotalBoundsMaximum(fs: seq<nat>)
    ensures MaxFrequency(fs) <= Total(fs)
  {
    if fs != [] {
      TotalBoundsMaximum(fs[..|fs| - 1]);
    }
  }

  // ---------------------------------------------------------------------
  // Specificities.

  /** `specificities.max`: starts at 0 and takes every larger specificity. */
  function MaxSpecificity(ks: seq<Keyword>): real
  {
    if ks == [] then 0.0
    else
      var m := MaxSpecificity(ks[..|ks| - 1]);
      if m < ks[|ks| - 1].specificity then ks[|ks| - 1].specificity else m
  }

  /** The sum of the specificities. */
  function SumSpecificity(ks: seq<Keyword>): real
  {
    if ks == [] then 0.0 else SumSpecificity(ks[..|ks| - 1]) + ks[|ks| - 1].specificity
  }

  predicate AllPositive(ks: seq<Keyword>)
  {
    forall i :: 0 <= i < |ks| ==> ks[i].specificity > 0.0
  }

  /** For positive specificities the maximum is positive, bounds them all,
      and is reached. */
  lemma {:induction false} MaxSpecificityIsMaximum(ks: seq<Keyword>)
    requires ks != [] && AllPositive(ks)
    ensures MaxSpecificity(ks) > 0.0
    ensures forall i :: 0 <= i < |ks| ==> ks[i].specificity <= MaxSpecificity(ks)
    ensures exists i :: 0 <= i < |ks| && ks[i].specificity == MaxSpecificity(ks)
  {
    var init := ks[..|ks| - 1];
    if init != [] {
      MaxSpecificityIsMaximum(init);
      var i :| 0 <= i < |init| && init[i].specificity == MaxSpecificity(init);
      assert ks[i] == init[i];
    }
  }

  /** Each specificity divided by `m`. */
  function Normalize(ks: seq<Keyword>, m: real): (ns: seq<Keyword>)
    requires m != 0.0
    ensures |ns| == |ks|
    ensures forall i :: 0 <= i < |ks| ==> ns[i] == ks[i].(specificity := ks[i].specificity / m)
  {
    seq(|ks|, i requires 0 <= i < |ks| => ks[i].(specificity := ks[i].specificity / m))
  }

  predicate InUnitInterval(ks: seq<Keyword>)
  {
    forall i :: 0 <= i < |ks| ==> 0.0 < ks[i].specificity <= 1.0
  }

  /** Normalised by their maximum, positive specificities lie in (0, 1],
      and some keyword reaches 1. */
  lemma NormalizeBounds(ks: seq<Keyword>)
    requires ks != [] && AllPositive(ks)
    ensures MaxSpecificity(ks) > 0.0
    ensures InUnitInterval(Normalize(ks, MaxSpecificity(ks)))
    ensures exists i :: 0 <= i < |ks| && Normalize(ks, MaxSpecificity(ks))[i].specificity == 1.0
  {
    MaxSpecificityIsMaximum(ks);
    var m := MaxSpecificity(ks);
    var ns := Normalize(ks, m);
    forall i | 0 <= i < |ks|
      ensures 0.0 < ns[i].specificity <= 1.0
    {
      assert ns[i].specificity == ks[i].specificity / m;
      DivideBounds(ks[i].specificity, m);
    }
    var i :| 0 <= i < |ks| && ks[i].specificity == m;
    assert ns[i].specificity == m / m;
    DivideBounds(m, m);
  }

  lemma DivideBounds(x: real, m: real)
    requires 0.0 < x <= m
    ensures 0.0 < x / m <= 1.0
    ensures x == m ==> x / m == 1.0
  {
  }

  /** Specificities in (0, 1] sum to more than 0 and at most their number. */
  lemma {:induction false} SumBounds(ks: seq<Keyword>)
    requires InUnitInterval(ks)
    ensures 0.0 <= SumSpecificity(ks) <= |ks| as real
    ensures ks != [] ==> SumSpecificity(ks) > 0.0
  {
    if ks != [] {
      SumBounds(ks[..|ks| - 1]);
    }
  }

  /** `specificities.avg`: the sum divided by the number of keywords. */
  function Average(ks: seq<Keyword>): (avg: real)
    requires ks != []
  {
    SumSpecificity(ks) / |ks| as real
  }

  /** The average of specificities in (0, 1] lies in (0, 1]. */
  lemma AverageBounds(ks: seq<Keyword>)
    requires ks != [] && InUnitInterval(ks)
    ensures 0.0 < Average(ks) <= 1.0
  {
    SumBounds(ks);
    DivideBounds(SumSpecificity(ks), |ks| as real);
  }

  // ---------------------------------------------------------------------
  // The selection of the final keywords.

  /** The keywords kept: all of them without `truncate`, otherwise those at
      or above `avg`, in order. */
  function Truncated(ks: seq<Keyword>, truncate: bool, avg: real): seq<Keyword>
  {
    if ks == [] then []
    else
      var last := ks[|ks| - 1];
      Truncated(ks[..|ks| - 1], truncate, avg) + (if !truncate || last.specificity >= avg then [last] else [])
  }

  /** Without `truncate` every keyword is kept, in order. */
  lemma {:induction false} NotTruncated(ks: seq<Keyword>, avg: real)
    ensures Truncated(ks, false, avg) == ks
  {
    if ks != [] {
      NotTruncated(ks[..|ks| - 1], avg);
    }
  }

  /** With `truncate`, a keyword is kept exactly when it reaches `avg`. */
  lemma {:induction false} TruncatedMembers(ks: seq<Keyword>, avg: real)
    ensures forall k :: k in Truncated(ks, true, avg) <==> k in ks && k.specificity >= avg
  {
    if ks != [] {
      TruncatedMembers(ks[..|ks| - 1], avg);
      assert ks == ks[..|ks| - 1] + [ks[|ks| - 1]];
    }
  }

  /** Truncation keeps the order: it distributes over concatenation. */
  lemma {:induction false} TruncatedKeepsOrder(a: seq<Keyword>, b: seq<Keyword>, truncate: bool, avg: real)
    ensures Truncated(a + b, truncate, avg) == Truncated(a, truncate, avg) + Truncated(b, truncate, avg)
  {
    if b == [] {
      assert a + b == a;
    } else {
      TruncatedKeepsOrder(a, b[..|b| - 1], truncate, avg);
      assert (a + b)[..|a + b| - 1] == a + b[..|b| - 1];
    }
  }

  /** Truncating at the average of normalised specificities keeps at least
      the keyword that reached 1. */
  lemma TruncatedNotEmpty(ns: seq<Keyword>)
    requires ns != [] && InUnitInterval(ns)
    requires exists i :: 0 <= i < |ns| && ns[i].specificity == 1.0
    ensures Truncated(ns, true, Average(ns)) != []
  {
    AverageBounds(ns);
    var i :| 0 <= i < |ns| && ns[i].specificity == 1.0;
    TruncatedMembers(ns, Average(ns));
    assert ns[i] in Truncated(ns, true, Average(ns));
  }
}
