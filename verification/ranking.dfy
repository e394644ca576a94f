/** Phase 3 of `main.py`: the analysed products sorted by virality score,
    highest first, with Python's stable `list.sort(key=..., reverse=True)`,
    and the top-three summary that is logged at the end of a run. */
module Ranking {
  import opened Models
  import Text

  /** Highest score first. */
  predicate SortedDesc(s: seq<AnalyzedProduct>) {
    forall i, j :: 0 <= i < j < |s| ==> s[i].viralityScore >= s[j].viralityScore
  }

  /** The products scoring exactly `score`, in their order in `s`. */
  function WithScore(s: seq<AnalyzedProduct>, score: int): (r: seq<AnalyzedProduct>)
    ensures |r| <= |s|
    ensures forall p :: p in r ==> p in s && p.viralityScore == score
  {
    if |s| == 0 then []
    else if s[0].viralityScore == score then [s[0]] + WithScore(s[1..], score)
    else WithScore(s[1..], score)
  }

  /** A sort is stable when products with equal scores keep their
      relative order. */
  ghost predicate Stable(input: seq<AnalyzedProduct>, output: seq<AnalyzedProduct>) {
    forall score :: WithScore(output, score) == WithScore(input, score)
  }

  /** Places `x` before the first product scoring no more than it. */
  function Insert(x: AnalyzedProduct, s: seq<AnalyzedProduct>): (r: seq<AnalyzedProduct>)
    ensures |r| == |s| + 1
    ensures r[0] == x || (|s| > 0 && r[0] == s[0])
  {
    if |s| == 0 || s[0].viralityScore <= x.viralityScore then [x] + s
    else [s[0]] + Insert(x, s[1..])
  }

  /** `analyzed_products.sort(key=lambda x: x.virality_score, reverse=True)`
      (main.py:83), as an insertion sort that inserts each product ahead of
      the later products scoring the same. */
  function SortByScore(s: seq<AnalyzedProduct>): (r: seq<AnalyzedProduct>)
    ensures |r| == |s|
  {
    if |s| == 0 then [] else Insert(s[0], SortByScore(s[1..]))
  }

  lemma {:induction false} InsertPermutes(x: AnalyzedProduct, s: seq<AnalyzedProduct>)
    ensures multiset(Insert(x, s)) == multiset(s) + multiset{x}
  {
    if |s| > 0 && s[0].viralityScore > x.viralityScore {
      InsertPermutes(x, s[1..]);
      assert s == [s[0]] + s[1..];
    }
  }

  lemma {:induction false} InsertSorted(x: AnalyzedProduct, s: seq<AnalyzedProduct>)
    requires SortedDesc(s)
    ensures SortedDesc(Insert(x, s))
  {
    if |s| > 0 && s[0].viralityScore > x.viralityScore {
      var rest := Insert(x, s[1..]);
      SortedTail(s);
      InsertSorted(x, s[1..]);
      InsertPermutes(x, s[1..]);
      forall j | 0 <= j < |rest|
        ensures s[0].viralityScore >= rest[j].viralityScore
      {
        assert rest[j] in multiset(rest);
        assert rest[j] == x || rest[j] in s[1..];
      }
      assert Insert(x, s) == [s[0]] + rest;
    }
  }

  /** The result is a permutation of the input. */
  lemma {:induction false} SortPermutes(s: seq<AnalyzedProduct>)
    ensures multiset(SortByScore(s)) == multiset(s)
  {
    if |s| > 0 {
      SortPermutes(s[1..]);
      InsertPermutes(s[0], SortByScore(s[1..]));
      assert s == [s[0]] + s[1..];
    }
  }

  /** The result is in descending order of score. */
  lemma {:induction false} SortSorted(s: seq<AnalyzedProduct>)
    ensures SortedDesc(SortByScore(s))
  {
    if |s| > 0 {
      SortSorted(s[1..]);
      InsertSorted(s[0], SortByScore(s[1..]));
    }
  }

  lemma {:induction false} WithScoreInsert(x: AnalyzedProduct, s: seq<AnalyzedProduct>, score: int)
    ensures WithScore(Insert(x, s), score)
         == if x.viralityScore == score then [x] + WithScore(s, score) else WithScore(s, score)
  {
    if |s| == 0 || s[0].viralityScore <= x.viralityScore {
      assert ([x] + s)[1..] == s;
    } else {
      WithScoreInsert(x, s[1..], score);
      assert ([s[0]] + Insert(x, s[1..]))[1..] == Insert(x, s[1..]);
    }
  }

  /** The sort is stable. */
  lemma {:induction false} SortStable(s: seq<AnalyzedProduct>)
    ensures Stable(s, SortByScore(s))
  {
    forall score
      ensures WithScore(SortByScore(s), score) == WithScore(s, score)
    {
      SortStableAt(s, score);
    }
  }

  lemma {:induction false} SortStableAt(s: seq<AnalyzedProduct>, score: int)
    ensures WithScore(SortByScore(s), score) == WithScore(s, score)
  {
    if |s| > 0 {
      SortStableAt(s[1..], score);
      WithScoreInsert(s[0], SortByScore(s[1..]), score);
    }
  }

  /** A descending, stable order is unique: any stable sort by score
      (Python's included) produces exactly `SortByScore`. */
  lemma SortUnique(s: seq<AnalyzedProduct>, r: seq<AnalyzedProduct>)
    requires SortedDesc(r) && Stable(s, r)
    ensures r == SortByScore(s)
  {
    SortStable(s);
    SortSorted(s);
    SortedStableEqual(r, SortByScore(s));
  }

  /** Two descending lists with the same products per score are equal. */
  lemma {:induction false} SortedStableEqual(a: seq<AnalyzedProduct>, b: seq<AnalyzedProduct>)
    requires SortedDesc(a) && SortedDesc(b)
    requires forall score :: WithScore(a, score) == WithScore(b, score)
    ensures a == b
  {
    if |a| == 0 || |b| == 0 {
      assert |a| > 0 ==> WithScore(a, a[0].viralityScore) != [];
      assert |b| > 0 ==> WithScore(b, b[0].viralityScore) != [];
    } else {
      var m := a[0].viralityScore;
      TopOfWithScore(a, m);
      TopOfWithScore(b, b[0].viralityScore);
      HeadScore(a, b);
      HeadScore(b, a);
      assert b[0].viralityScore == m;
      assert a[0] == b[0];
      forall score
        ensures WithScore(a[1..], score) == WithScore(b[1..], score)
      {
        TailsAgree(a, b, score);
      }
      SortedTail(a);
      SortedTail(b);
      SortedStableEqual(a[1..], b[1..]);
      assert a == [a[0]] + a[1..];
      assert b == [b[0]] + b[1..];
    }
  }

  /** Lists with the same head and the same products of `score` have
      tails with the same products of `score`. */
  lemma TailsAgree(a: seq<AnalyzedProduct>, b: seq<AnalyzedProduct>, score: int)
    requires |a| > 0 && |b| > 0 && a[0] == b[0]
    requires WithScore(a, score) == WithScore(b, score)
    ensures WithScore(a[1..], score) == WithScore(b[1..], score)
  {
    if a[0].viralityScore == score {
      assert WithScore(a, score) == [a[0]] + WithScore(a[1..], score);
      assert WithScore(b, score) == [a[0]] + WithScore(b[1..], score);
      assert WithScore(a, score)[1..] == WithScore(a[1..], score);
    }
  }

  /** Dropping the head keeps a list sorted. */
  lemma SortedTail(a: seq<AnalyzedProduct>)
    requires |a| > 0 && SortedDesc(a)
    ensures SortedDesc(a[1..])
  {
    forall i, j | 0 <= i < j < |a| - 1
      ensures a[1..][i].viralityScore >= a[1..][j].viralityScore
    {
      assert a[1..][i] == a[i + 1] && a[1..][j] == a[j + 1];
    }
  }

  /** The head of a list is the first product of its own score. */
  lemma TopOfWithScore(a: seq<AnalyzedProduct>, m: int)
    requires |a| > 0 && a[0].viralityScore == m
    ensures WithScore(a, m) == [a[0]] + WithScore(a[1..], m)
  {
  }

  /** In descending lists with the same products per score, the head of
      `b` scores at least as much as the head of `a`. */
  lemma HeadScore(a: seq<AnalyzedProduct>, b: seq<AnalyzedProduct>)
    requires |a| > 0 && |b| > 0 && SortedDesc(b)
    requires WithScore(a, a[0].viralityScore) == WithScore(b, a[0].viralityScore)
    ensures b[0].viralityScore >= a[0].viralityScore
  {
    var m := a[0].viralityScore;
    TopOfWithScore(a, m);
    var p := WithScore(b, m)[0];
    assert p in WithScore(b, m);
    var k :| 0 <= k < |b| && b[k] == p;
  }

  // ---------------------------------------------------------------------
  // The summary
  // ---------------------------------------------------------------------

  /** One entry of the logged "TOP 3 VIRAL PRODUCTS" list: position from
      1, title, score and the first 100 characters of the explanation. */
  datatype SummaryLine = SummaryLine(rank: int, title: string, score: int, why: string)

  /** The summary of main.py:90-96 for an already sorted list: at most
      three entries, in list order, explanations cut to 100 characters. */
  function TopSummary(ranked: seq<AnalyzedProduct>): (r: seq<SummaryLine>)
    ensures |r| == if |ranked| < 3 then |ranked| else 3
    ensures forall i :: 0 <= i < |r| ==> r[i].rank == i + 1
    ensures forall i :: 0 <= i < |r| ==>
              r[i].title == ranked[i].productTitle && r[i].score == ranked[i].viralityScore
    ensures forall i :: 0 <= i < |r| ==> |r[i].why| <= 100 && r[i].why <= ranked[i].whyWinning
    ensures forall i :: 0 <= i < |r| && |ranked[i].whyWinning| <= 100 ==> r[i].why == ranked[i].whyWinning
    ensures forall i :: 0 <= i < |r| && |ranked[i].whyWinning| > 100 ==> |r[i].why| == 100
  {
    SummaryFrom(Text.Take(ranked, 3), 1)
  }

  function SummaryFrom(top: seq<AnalyzedProduct>, rank: int): (r: seq<SummaryLine>)
    ensures |r| == |top|
    ensures forall i :: 0 <= i < |r| ==> r[i].rank == rank + i
    ensures forall i :: 0 <= i < |r| ==>
              r[i].title == top[i].productTitle && r[i].score == top[i].viralityScore
    ensures forall i :: 0 <= i < |r| ==> |r[i].why| <= 100 && r[i].why <= top[i].whyWinning
    ensures forall i :: 0 <= i < |r| && |top[i].whyWinning| <= 100 ==> r[i].why == top[i].whyWinning
    ensures forall i :: 0 <= i < |r| && |top[i].whyWinning| > 100 ==> |r[i].why| == 100
  {
    if |top| == 0 then []
    else
      [SummaryLine(rank, top[0].productTitle, top[0].viralityScore, Text.Take(top[0].whyWinning, 100))]
      + SummaryFrom(top[1..], rank + 1)
  }

  /** After sorting, the summary names products scoring at least as much
      as every product left out of it. */
  lemma SummaryIsTop(s: seq<AnalyzedProduct>)
    ensures forall i, j :: 0 <= i < |TopSummary(SortByScore(s))| <= j < |s| ==>
              TopSummary(SortByScore(s))[i].score >= SortByScore(s)[j].viralityScore
  {
    SortSorted(s);
  }
}
