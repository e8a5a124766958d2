/**
 * Merging the citation lists of the two research phases
 * (`[...new Set([...phase1, ...phase2])]`, index.js:293): duplicates are
 * dropped and each URL keeps the place of its first appearance, as a
 * JavaScript `Set` keeps insertion order.
 */
module Citations {

  predicate NoDuplicates(s: seq<string>) {
    forall i, j :: 0 <= i < j < |s| ==> s[i] != s[j]
  }

  /** The elements of `s` in insertion order, each once: spreading `new Set(s)`. */
  function Dedupe(s: seq<string>): (r: seq<string>)
    ensures NoDuplicates(r)
    ensures forall x :: x in r <==> x in s
    ensures |r| <= |s|
  {
    if s == [] then []
    else
      var seen := Dedupe(s[..|s| - 1]);
      var x := s[|s| - 1];
      if x in seen then seen else seen + [x]
  }

  /** The citations persisted and counted for the job: phase 1's, then phase 2's, without repeats. */
  function Merge(phase1: seq<string>, phase2: seq<string>): (r: seq<string>)
    ensures NoDuplicates(r)
    ensures forall x :: x in r <==> x in phase1 || x in phase2
    ensures |r| <= |phase1| + |phase2|
  {
    Dedupe(phase1 + phase2)
  }

  /** The index of the first appearance of `x` in `s`. */
  function FirstIndex(s: seq<string>, x: string): (i: nat)
    requires x in s
    ensures i < |s| && s[i] == x && x !in s[..i]
  {
    if s[0] == x then 0 else 1 + FirstIndex(s[1..], x)
  }

  lemma {:induction false} FirstIndexExtend(s: seq<string>, y: string, x: string)
    requires x in s
    ensures FirstIndex(s + [y], x) == FirstIndex(s, x)
  {
    if s[0] != x {
      assert (s + [y])[1..] == s[1..] + [y];
      FirstIndexExtend(s[1..], y, x);
    }
  }

  /** Deduplication lists the distinct elements in order of first appearance. */
  lemma {:induction false} DedupeKeepsFirstAppearanceOrder(s: seq<string>)
    ensures forall i, j :: 0 <= i < j < |Dedupe(s)| ==>
      FirstIndex(s, Dedupe(s)[i]) < FirstIndex(s, Dedupe(s)[j])
  {
    if s != [] {
      var init := s[..|s| - 1];
      var x := s[|s| - 1];
      assert s == init + [x];
      DedupeKeepsFirstAppearanceOrder(init);
      var seen := Dedupe(init);
      forall y | y in seen
        ensures FirstIndex(s, y) == FirstIndex(init, y)
      {
        FirstIndexExtend(init, x, y);
      }
      if x !in seen {
        assert x !in init;
        assert FirstIndex(s, x) == |init| by {
          assert s[|init|] == x && x !in s[..|init|];
          FirstIndexIsFirst(s, x, |init|);
        }
      }
    }
  }

  lemma {:induction false} FirstIndexIsFirst(s: seq<string>, x: string, k: nat)
    requires k < |s| && s[k] == x && x !in s[..k]
    ensures FirstIndex(s, x) == k
  {
    if s[0] != x {
      assert k > 0 && s[1..][k - 1] == x;
      assert s[1..][..k - 1] == s[..k][1..];
      FirstIndexIsFirst(s[1..], x, k - 1);
    }
  }

  /** Phase 1's deduplicated citations come first in the merged list, in their own order. */
  lemma {:induction false} MergeStartsWithPhase1(phase1: seq<string>, phase2: seq<string>)
    ensures Dedupe(phase1) <= Merge(phase1, phase2)
  {
    if phase2 != [] {
      var init := phase2[..|phase2| - 1];
      assert phase1 + phase2 == (phase1 + init) + [phase2[|phase2| - 1]];
      assert (phase1 + phase2)[..|phase1 + phase2| - 1] == phase1 + init;
      MergeStartsWithPhase1(phase1, init);
    } else {
      assert phase1 + phase2 == phase1;
    }
  }

  /** Deduplicating a list without repeats leaves it as it is. */
  lemma {:induction false} DedupeOfDistinct(s: seq<string>)
    requires NoDuplicates(s)
    ensures Dedupe(s) == s
  {
    if s != [] {
      var init := s[..|s| - 1];
      DedupeOfDistinct(init);
      assert s[|s| - 1] !in init;
      assert init + [s[|s| - 1]] == s;
    }
  }

  /** Merging again changes nothing: the merged list is its own deduplication. */
  lemma DedupeIdempotent(s: seq<string>)
    ensures Dedupe(Dedupe(s)) == Dedupe(s)
  {
    DedupeOfDistinct(Dedupe(s));
  }
}
