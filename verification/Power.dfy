/** Voting power of sets of validator indices, and how two quorums overlap. */
module Power {
  import opened Types

  const TOTAL_VOTING_POWER: real := 10.0

  /** Power that makes a block the majority of a vote set: 23/3. */
  const QUORUM: real := TOTAL_VOTING_POWER * 2.0 / 3.0 + 1.0

  /** Power that must be exceeded for "two thirds of anything", and by a commit certificate: 20/3. */
  const TWO_THIRDS: real := TOTAL_VOTING_POWER * 2.0 / 3.0

  ghost predicate NonNegative(vals: seq<Validator>) {
    forall i | 0 <= i < |vals| :: vals[i].power >= 0.0
  }

  function WeightBelow(vals: seq<Validator>, s: set<int>, n: nat): real
    requires n <= |vals|
  {
    if n == 0 then 0.0
    else WeightBelow(vals, s, n - 1) + (if n - 1 in s then vals[n - 1].power else 0.0)
  }

  /** Total power of the validators whose index is in `s`. */
  function Weight(vals: seq<Validator>, s: set<int>): real {
    WeightBelow(vals, s, |vals|)
  }

  function TotalBelow(vals: seq<Validator>, n: nat): real
    requires n <= |vals|
  {
    if n == 0 then 0.0 else TotalBelow(vals, n - 1) + vals[n - 1].power
  }

  function Total(vals: seq<Validator>): real {
    TotalBelow(vals, |vals|)
  }

  lemma {:induction false} WeightBelowEmpty(vals: seq<Validator>, n: nat)
    requires n <= |vals|
    ensures WeightBelow(vals, {}, n) == 0.0
  {
    if n > 0 { WeightBelowEmpty(vals, n - 1); }
  }

  lemma WeightEmpty(vals: seq<Validator>)
    ensures Weight(vals, {}) == 0.0
  {
    WeightBelowEmpty(vals, |vals|);
  }

  lemma {:induction false} WeightBelowAdd(vals: seq<Validator>, s: set<int>, i: int, n: nat)
    requires n <= |vals| && 0 <= i < |vals| && i !in s
    ensures WeightBelow(vals, s + {i}, n) == WeightBelow(vals, s, n) + (if i < n then vals[i].power else 0.0)
  {
    if n > 0 { WeightBelowAdd(vals, s, i, n - 1); }
  }

  lemma WeightAdd(vals: seq<Validator>, s: set<int>, i: int)
    requires 0 <= i < |vals| && i !in s
    ensures Weight(vals, s + {i}) == Weight(vals, s) + vals[i].power
  {
    WeightBelowAdd(vals, s, i, |vals|);
  }

  lemma {:induction false} WeightBelowMonotone(vals: seq<Validator>, s: set<int>, t: set<int>, n: nat)
    requires n <= |vals| && NonNegative(vals)
    requires forall i | 0 <= i < n && i in s :: i in t
    ensures 0.0 <= WeightBelow(vals, s, n) <= WeightBelow(vals, t, n)
  {
    if n > 0 { WeightBelowMonotone(vals, s, t, n - 1); }
  }

  lemma WeightMonotone(vals: seq<Validator>, s: set<int>, t: set<int>)
    requires NonNegative(vals)
    requires forall i | 0 <= i < |vals| && i in s :: i in t
    ensures 0.0 <= Weight(vals, s) <= Weight(vals, t)
  {
    WeightBelowMonotone(vals, s, t, |vals|);
  }

  lemma {:induction false} WeightAtMostTotal(vals: seq<Validator>, s: set<int>, n: nat)
    requires n <= |vals| && NonNegative(vals)
    ensures WeightBelow(vals, s, n) <= TotalBelow(vals, n)
  {
    if n > 0 { WeightAtMostTotal(vals, s, n - 1); }
  }

  lemma {:induction false} InclusionExclusionBelow(vals: seq<Validator>, s: set<int>, t: set<int>, n: nat)
    requires n <= |vals|
    ensures WeightBelow(vals, s, n) + WeightBelow(vals, t, n)
         == WeightBelow(vals, s + t, n) + WeightBelow(vals, s * t, n)
  {
    if n > 0 { InclusionExclusionBelow(vals, s, t, n - 1); }
  }

  /** Two sets of voters overlap in at least what their weights exceed the total by. */
  lemma Overlap(vals: seq<Validator>, s: set<int>, t: set<int>)
    requires NonNegative(vals)
    ensures Weight(vals, s * t) >= Weight(vals, s) + Weight(vals, t) - Total(vals)
  {
    InclusionExclusionBelow(vals, s, t, |vals|);
    WeightAtMostTotal(vals, s + t, |vals|);
  }

  /** If the faulty voters weigh less than the overlap of two quorums, the quorums share a correct voter. */
  lemma QuorumsShareCorrect(vals: seq<Validator>, s: set<int>, t: set<int>, faulty: set<int>) returns (i: int)
    requires NonNegative(vals)
    requires Weight(vals, s) >= QUORUM && Weight(vals, t) >= QUORUM
    requires Weight(vals, faulty) < 2.0 * QUORUM - Total(vals)
    ensures 0 <= i < |vals| && i in s && i in t && i !in faulty
  {
    Overlap(vals, s, t);
    if forall j | 0 <= j < |vals| && j in s * t :: j in faulty {
      WeightMonotone(vals, s * t, faulty);
      assert false;
    }
    i :| 0 <= i < |vals| && i in s * t && i !in faulty;
  }
}
