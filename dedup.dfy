/**
 * `dedup`: removal of repeated seeds, keeping the first occurrence of each,
 * by one pass that records the seeds seen so far in a map.
 */
module Deduplication {
  import opened SpiderTypes

  /** What `dedup` returns for `s`, defined one element at a time from the end. */
  function Deduplicated(s: seq<HttpSeed>): seq<HttpSeed>
  {
    if s == [] then []
    else
      var r := Deduplicated(s[..|s| - 1]);
      if s[|s| - 1] in r then r else r + [s[|s| - 1]]
  }

  predicate NoDuplicates(s: seq<HttpSeed>)
  {
    forall i, j :: 0 <= i < j < |s| ==> s[i] != s[j]
  }

  /** The position of the first occurrence of `x` in `s`. */
  function FirstIndex(s: seq<HttpSeed>, x: HttpSeed): (k: nat)
    requires x in s
    ensures k < |s| && s[k] == x
    ensures forall j :: 0 <= j < k ==> s[j] != x
  {
    if s[0] == x then 0 else 1 + FirstIndex(s[1..], x)
  }

  /** Every seed of `r` occurs in `s`, and `r` lists them in the order of their first occurrences in `s`. */
  predicate InFirstOccurrenceOrder(r: seq<HttpSeed>, s: seq<HttpSeed>)
  {
    && (forall i :: 0 <= i < |r| ==> r[i] in s)
    && (forall i, j :: 0 <= i < j < |r| ==> FirstIndex(s, r[i]) < FirstIndex(s, r[j]))
  }

  /** Go's `m[k]` on a `map[HttpSeed]bool`: a missing key reads as false. */
  function Lookup(m: map<HttpSeed, bool>, k: HttpSeed): bool
  {
    if k in m then m[k] else false
  }

  /** Nothing is lost and nothing is invented: the output holds exactly the input's seeds. */
  lemma {:induction false} DedupKeepsEverySeed(s: seq<HttpSeed>)
    ensures forall x :: x in Deduplicated(s) <==> x in s
  {
    if s != [] {
      var init := s[..|s| - 1];
      DedupKeepsEverySeed(init);
      assert s == init + [s[|s| - 1]];
    }
  }

  /** No seed appears twice in the output. */
  lemma {:induction false} DedupHasNoDuplicates(s: seq<HttpSeed>)
    ensures NoDuplicates(Deduplicated(s))
  {
    if s != [] {
      DedupHasNoDuplicates(s[..|s| - 1]);
    }
  }

  /** Prepending nothing new to `s` does not move the first occurrences in it. */
  lemma FirstIndexInPrefix(s: seq<HttpSeed>, n: nat, x: HttpSeed)
    requires n <= |s| && x in s[..n]
    ensures FirstIndex(s, x) == FirstIndex(s[..n], x)
  {
    var k := FirstIndex(s[..n], x);
    assert s[k] == x;
    assert FirstIndex(s, x) <= k;
  }

  /**
   * The output is the input's first occurrences in input order: each output
   * seed sits at its first input position, and those positions increase.
   */
  lemma {:induction false} DedupKeepsFirstOccurrenceOrder(s: seq<HttpSeed>)
    ensures InFirstOccurrenceOrder(Deduplicated(s), s)
  {
    if s != [] {
      var init := s[..|s| - 1];
      var last := s[|s| - 1];
      var r0 := Deduplicated(init);
      DedupKeepsFirstOccurrenceOrder(init);
      DedupKeepsEverySeed(init);
      var r := Deduplicated(s);
      assert forall i :: 0 <= i < |r| ==> r[i] in s by {
        assert s == init + [last];
      }
      forall i, j | 0 <= i < j < |r|
        ensures FirstIndex(s, r[i]) < FirstIndex(s, r[j])
      {
        assert init == s[..|s| - 1];
        assert i < |r0| && r[i] == r0[i] && r[i] in init;
        FirstIndexInPrefix(s, |s| - 1, r[i]);
        if j < |r0| {
          assert r[j] == r0[j] && r[j] in init;
          assert FirstIndex(init, r0[i]) < FirstIndex(init, r0[j]);
          FirstIndexInPrefix(s, |s| - 1, r[j]);
        } else {
          assert FirstIndex(s, r[i]) == FirstIndex(init, r[i]) < |init|;
          assert r[j] == last && last !in init;
          assert FirstIndex(s, last) == |s| - 1;
        }
      }
    }
  }

  /** A list without repeats is left as it is. */
  lemma {:induction false} DedupOfDistinct(s: seq<HttpSeed>)
    requires NoDuplicates(s)
    ensures Deduplicated(s) == s
  {
    if s != [] {
      var init := s[..|s| - 1];
      DedupOfDistinct(init);
      assert s[|s| - 1] !in init;
      assert s == init + [s[|s| - 1]];
    }
  }

  /** Deduplicating twice is deduplicating once. */
  lemma DedupIdempotent(s: seq<HttpSeed>)
    ensures Deduplicated(Deduplicated(s)) == Deduplicated(s)
  {
    DedupHasNoDuplicates(s);
    DedupOfDistinct(Deduplicated(s));
  }

  /** `dedup`: one pass with a map of the seeds already seen. */
  method Dedup(seeds: seq<HttpSeed>) returns (result: seq<HttpSeed>)
    ensures result == Deduplicated(seeds)
  {
    var occurred: map<HttpSeed, bool> := map[];
    result := [];
    for i := 0 to |seeds|
      invariant result == Deduplicated(seeds[..i])
      invariant forall x :: Lookup(occurred, x) <==> x in result
    {
      var val := seeds[i];
      assert seeds[..i + 1][..i] == seeds[..i];
      if Lookup(occurred, val) != true {
        occurred := occurred[val := true];
        result := result + [val];
      }
    }
    assert seeds[..|seeds|] == seeds;
  }
}
