/** What the signatures made so far say about who voted for what. */
module Quorums {
  import opened Types
  import opened Power
  import VS = VoteSets
  import HV = HeightVoteSets

  /** What all nodes agree on beforehand: the chain and the validators in force at each height. */
  datatype World = World(chainID: string, valsAt: int -> seq<Validator>)

  predicate IsVote(f: SigFact, chainID: string, key: PubKey, kind: VoteType, height: int, round: int, b: BlockID) {
    && f.key == key && f.msg.VoteBytes?
    && f.msg.chainID == chainID && f.msg.kind == kind && f.msg.height == height && f.msg.round == round
    && f.msg.blockID == b
  }

  ghost predicate VotedFor(facts: set<SigFact>, chainID: string, key: PubKey,
                           kind: VoteType, height: int, round: int, b: BlockID)
  {
    exists f | f in facts :: IsVote(f, chainID, key, kind, height, round, b)
  }

  ghost function Voters(facts: set<SigFact>, w: World, kind: VoteType, height: int, round: int, b: BlockID): set<int> {
    set i | 0 <= i < |w.valsAt(height)|
            && VotedFor(facts, w.chainID, w.valsAt(height)[i].pubKey, kind, height, round, b)
  }

  /** Votes worth at least 23/3 have been signed for `b`. */
  ghost predicate HasQuorum(facts: set<SigFact>, w: World, kind: VoteType, height: int, round: int, b: BlockID) {
    Weight(w.valsAt(height), Voters(facts, w, kind, height, round, b)) >= QUORUM
  }

  lemma QuorumMonotone(facts: set<SigFact>, more: set<SigFact>, w: World,
                       kind: VoteType, height: int, round: int, b: BlockID)
    requires facts <= more && NonNegative(w.valsAt(height)) && HasQuorum(facts, w, kind, height, round, b)
    ensures HasQuorum(more, w, kind, height, round, b)
  {
    WeightMonotone(w.valsAt(height), Voters(facts, w, kind, height, round, b),
                   Voters(more, w, kind, height, round, b));
  }

  /** A majority recorded by a vote set is backed by a quorum of real signatures. */
  lemma MajorityHasQuorum(s: VS.VoteSet, facts: set<SigFact>, w: World)
    requires VS.Valid(s) && VS.AllSigned(s, facts) && s.maj23.Some?
    requires s.chainID == w.chainID && s.vals == w.valsAt(s.height)
    ensures HasQuorum(facts, w, s.kind, s.height, s.round, s.maj23.value)
  {
    var b := s.maj23.value;
    assert VS.TallyOk(s, b);
    forall i | 0 <= i < |s.vals| && i in s.byBlock[b].bits
      ensures i in Voters(facts, w, s.kind, s.height, s.round, b)
    {
      var v := s.byBlock[b].votes[i].value;
      assert VS.Signed(facts, s, v) by { assert VS.TallySigned(s, s.byBlock[b], facts); }
      assert IsVote(SigFact(s.vals[i].pubKey, v.SignBytes(s.chainID), v.signature),
                    w.chainID, s.vals[i].pubKey, s.kind, s.height, s.round, b);
    }
    WeightMonotone(s.vals, s.byBlock[b].bits, Voters(facts, w, s.kind, s.height, s.round, b));
  }

  lemma PolkaHasQuorum(h: HV.HeightVotes, r: int, facts: set<SigFact>, w: World)
    requires HV.Valid(h) && HV.AllSigned(h, facts) && HV.Polka(h, r).Some?
    requires h.chainID == w.chainID && h.vals == w.valsAt(h.height)
    ensures HasQuorum(facts, w, Prepare, h.height, r, HV.Polka(h, r).value)
  {
    assert HV.RoundOk(h, r);
    MajorityHasQuorum(h.sets[r].prepares, facts, w);
  }

  lemma CommitsHaveQuorum(h: HV.HeightVotes, r: int, facts: set<SigFact>, w: World)
    requires HV.Valid(h) && HV.AllSigned(h, facts) && HV.CommitMajority(h, r).Some?
    requires h.chainID == w.chainID && h.vals == w.valsAt(h.height)
    ensures HasQuorum(facts, w, Commit, h.height, r, HV.CommitMajority(h, r).value)
  {
    assert HV.RoundOk(h, r);
    MajorityHasQuorum(h.sets[r].commits, facts, w);
  }
}
