/**
 * The keyword scan shared by the synchronous and the session-based
 * retrieval: walk the corpus in order, keep the items whose title occurs in
 * the prompt (ignoring case), and stop at the first further match once the
 * cap is reached.
 */
module Scan {
  import opened Text
  import opened DataModel

  /** The article's title occurs in the prompt, ignoring case. */
  predicate TitleMatches(prompt: string, a: WikipediaArticle)
  {
    ContainsIgnoreCase(prompt, a.title)
  }

  /** Reference filter: the matching items, in corpus order. */
  function Matches(items: seq<WikipediaArticle>, prompt: string): (r: seq<WikipediaArticle>)
    ensures |r| <= |items|
  {
    if |items| == 0 then []
    else if TitleMatches(prompt, items[0]) then [items[0]] + Matches(items[1..], prompt)
    else Matches(items[1..], prompt)
  }

  /** The first `n` elements of `xs`, or all of them when there are fewer. */
  function Take<T>(xs: seq<T>, n: nat): (r: seq<T>)
    ensures r <= xs
    ensures |r| == if n < |xs| then n else |xs|
  {
    if n < |xs| then xs[..n] else xs
  }

  /** Reference cap: a positive `maxMatches` keeps that many, any other value keeps all. */
  function Cap<T>(xs: seq<T>, maxMatches: int): (r: seq<T>)
    ensures r <= xs
    ensures maxMatches > 0 ==> |r| == if maxMatches < |xs| then maxMatches else |xs|
    ensures maxMatches <= 0 ==> r == xs
  {
    if maxMatches > 0 then Take(xs, maxMatches) else xs
  }

  /** How many more items a queue already holding `queued` may take under the cap. */
  function Room(maxMatches: int, queued: nat): nat
  {
    if queued >= maxMatches then 0 else maxMatches - queued
  }

  /**
   * The scan loop: `queued` is the length of the result list the loop
   * appends to, which the cap test compares against `maxMatches`. Returns
   * the articles the loop appends, in order.
   */
  function ScanFrom(items: seq<WikipediaArticle>, prompt: string, maxMatches: int, queued: nat)
    : (r: seq<WikipediaArticle>)
    ensures |r| <= |items|
    ensures forall a :: a in r ==> a in items && TitleMatches(prompt, a)
    ensures maxMatches > 0 && queued <= maxMatches ==> queued + |r| <= maxMatches
    ensures maxMatches > 0 && queued >= maxMatches ==> r == []
    decreases |items|
  {
    if |items| == 0 then []
    else if !TitleMatches(prompt, items[0]) then ScanFrom(items[1..], prompt, maxMatches, queued)
    else if maxMatches > 0 && queued >= maxMatches then []
    else [items[0]] + ScanFrom(items[1..], prompt, maxMatches, queued + 1)
  }

  /** The reference filter keeps exactly the matching corpus items. */
  lemma {:induction false} MatchesMembership(items: seq<WikipediaArticle>, prompt: string, a: WikipediaArticle)
    ensures a in Matches(items, prompt) <==> a in items && TitleMatches(prompt, a)
    decreases |items|
  {
    if |items| > 0 {
      MatchesMembership(items[1..], prompt, a);
      assert items == [items[0]] + items[1..];
    }
  }

  /** Taking `n + 1` of a non-empty list keeps its head and takes `n` of its tail. */
  lemma TakeCons<T>(x: T, xs: seq<T>, n: nat)
    ensures Take([x] + xs, n + 1) == [x] + Take(xs, n)
  {
    if n < |xs| {
      assert ([x] + xs)[..n + 1] == [x] + xs[..n];
    }
  }

  /**
   * The scan loop appends exactly the first `Room(maxMatches, queued)`
   * matches when the cap is positive, and all matches otherwise.
   */
  lemma {:induction false} ScanIsFilterThenCap(items: seq<WikipediaArticle>, prompt: string, maxMatches: int, queued: nat)
    ensures ScanFrom(items, prompt, maxMatches, queued)
         == if maxMatches > 0 then Take(Matches(items, prompt), Room(maxMatches, queued))
            else Matches(items, prompt)
    decreases |items|
  {
    if |items| > 0 {
      var head, tail := items[0], items[1..];
      if !TitleMatches(prompt, head) {
        assert Matches(items, prompt) == Matches(tail, prompt);
        assert ScanFrom(items, prompt, maxMatches, queued) == ScanFrom(tail, prompt, maxMatches, queued);
        ScanIsFilterThenCap(tail, prompt, maxMatches, queued);
      } else if !(maxMatches > 0 && queued >= maxMatches) {
        assert Matches(items, prompt) == [head] + Matches(tail, prompt);
        assert ScanFrom(items, prompt, maxMatches, queued)
            == [head] + ScanFrom(tail, prompt, maxMatches, queued + 1);
        ScanIsFilterThenCap(tail, prompt, maxMatches, queued + 1);
        if maxMatches > 0 {
          assert Room(maxMatches, queued) == Room(maxMatches, queued + 1) + 1;
          TakeCons(head, Matches(tail, prompt), Room(maxMatches, queued + 1));
        }
      }
    }
  }

  /** Starting from an empty result list, the scan is the capped filter. */
  lemma ScanFromEmptyIsCapOfMatches(items: seq<WikipediaArticle>, prompt: string, maxMatches: int)
    ensures ScanFrom(items, prompt, maxMatches, 0) == Cap(Matches(items, prompt), maxMatches)
  {
    ScanIsFilterThenCap(items, prompt, maxMatches, 0);
  }
}
