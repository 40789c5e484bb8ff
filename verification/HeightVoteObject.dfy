/** `consensus/height_vote_set.go` as it runs: one object that tracks the vote sets of a height. */
module HeightVoteObjects {
  import opened Types
  import opened Power
  import VS = VoteSets
  import HV = HeightVoteSets

  class HeightVoteSet {
    const chainID: string
    var height: int
    var vals: seq<Validator>
    var round: int
    var sets: map<int, HV.RoundVotes>
    var catchup: map<VS.Peer, seq<int>>

    ghost function View(): HV.HeightVotes
      reads this
    {
      HV.HeightVotes(chainID, height, vals, round, sets, catchup)
    }

    constructor (chainID: string, height: int, vals: seq<Validator>)
      requires NonNegative(vals)
      ensures View() == HV.NewHeightVotes(chainID, height, vals) && HV.Valid(View())
    {
      this.chainID := chainID;
      new;
      Reset(height, vals);
    }

    /** `Reset`: a new height starts with round 0 alone. */
    method Reset(height: int, vals: seq<Validator>)
      requires NonNegative(vals)
      modifies this
      ensures View() == HV.NewHeightVotes(chainID, height, vals) && HV.Valid(View())
    {
      this.height := height;
      this.vals := vals;
      sets := map[];
      catchup := map[];
      TrackRound(0);
      round := 0;
      HV.NewHeightVotesValid(chainID, height, vals);
    }

    /** `addRound`. */
    method TrackRound(r: int)
      requires r !in sets
      modifies this`sets
      ensures View() == HV.AddRound(old(View()), r)
    {
      sets := sets[r := HV.RoundVotes(VS.NewVoteSet(chainID, height, r, Prepare, vals),
                                      VS.NewVoteSet(chainID, height, r, Commit, vals))];
    }

    /** `SetRound`, for callers that never lower the round: every round up to it is tracked and nothing is lost. */
    method SetRound(newRound: int)
      requires HV.Valid(View()) && round <= newRound
      modifies this`sets, this`round
      ensures View() == HV.SetRound(old(View()), newRound)
      ensures HV.Valid(View()) && HV.Grows(old(View()), View())
    {
      hide HV.Valid, HV.Grows, HV.AddRound, HV.AllSigned, HV.Polka;
      ghost var h := View();
      HV.SetRoundKeeps(h, newRound, {});
      var r := round - 1;
      while r <= newRound
        invariant round - 1 <= r <= newRound + 1
        invariant HV.Fill(View(), r, newRound) == HV.Fill(h, round - 1, newRound)
        invariant View() == h.(sets := sets)
      {
        if r !in sets { TrackRound(r); }
        r := r + 1;
      }
      round := newRound;
    }

    /** `AddVote`: an untracked round is opened only at the expense of the peer that sent the vote. */
    method AddVote(scheme: set<SigFact>, v: Vote, peer: VS.Peer) returns (added: bool, err: HV.HeightError)
      requires HV.Valid(View())
      modifies this`sets, this`catchup
      ensures HV.AllShaped(old(View())) && (View(), added, err) == HV.AddVote(old(View()), scheme, v, peer)
      ensures HV.Valid(View()) && HV.Grows(old(View()), View())
      ensures |sets| <= round + 2 + 2 * |catchup|
    {
      hide HV.Valid, HV.Grows, HV.AllShaped, HV.AllSigned, VS.AddVote, VS.Shaped, HV.AddRound;
      ghost var h := View();
      HV.AddVoteKeeps(h, scheme, v, peer);
      HV.TrackedRoundsBounded(HV.AddVote(h, scheme, v, peer).0);
      if v.round !in sets {
        var rounds := if peer in catchup then catchup[peer] else [];
        if |rounds| >= 2 { return false, HV.UnwantedRound; }
        TrackRound(v.round);
        catchup := catchup[peer := rounds + [v.round]];
      }
      assert HV.Admit(h, v.round, peer) == Some(View());
      ShapedAfterAdmit(h, v.round, peer);
      var old_sets := sets[v.round];
      if v.kind == Prepare {
        var res := VS.AddVote(old_sets.prepares, scheme, v);
        sets := sets[v.round := old_sets.(prepares := res.state)];
        return res.added, HV.VoteErr(res.err);
      } else {
        var res := VS.AddVote(old_sets.commits, scheme, v);
        sets := sets[v.round := old_sets.(commits := res.state)];
        return res.added, HV.VoteErr(res.err);
      }
    }

    /** `POLInfo`: the greatest round up to the current one whose prepares have a majority, and that majority. */
    method POLInfo() returns (polRound: int, polBlock: BlockID)
      requires HV.Valid(View())
      ensures polRound == -1 ==> polBlock == NIL_BLOCK && forall r | 0 <= r <= round :: HV.Polka(View(), r).None?
      ensures polRound != -1 ==> 0 <= polRound <= round && HV.Polka(View(), polRound) == Some(polBlock)
      ensures forall r | polRound < r <= round && 0 <= r :: HV.Polka(View(), r).None?
    {
      hide HV.Valid;
      Tracked(View());
      var r := round;
      while r >= 0
        invariant -1 <= r <= round
        invariant forall q | r < q <= round :: HV.Polka(View(), q).None?
      {
        assert r in sets;
        var prepares := sets[r].prepares;
        if prepares.maj23.Some? { return r, prepares.maj23.value; }
        r := r - 1;
      }
      return -1, NIL_BLOCK;
    }

    /** `SetPeerMaj23`: a claim about an untracked round is dropped. */
    method SetPeerMaj23(r: int, kind: VoteType, peer: VS.Peer, b: BlockID)
      requires HV.Valid(View())
      modifies this`sets
      ensures View() == HV.SetPeerMaj23(old(View()), r, kind, peer, b)
      ensures HV.Valid(View()) && HV.Grows(old(View()), View())
    {
      HV.SetPeerMaj23Keeps(View(), r, kind, peer, b, {});
      hide HV.Valid, HV.Grows;
      if r !in sets { return; }
      var rv := sets[r];
      if kind == Prepare {
        sets := sets[r := rv.(prepares := VS.SetPeerMaj23(rv.prepares, peer, b).0)];
      } else {
        sets := sets[r := rv.(commits := VS.SetPeerMaj23(rv.commits, peer, b).0)];
      }
    }
  }

  lemma Tracked(h: HV.HeightVotes)
    requires HV.Valid(h)
    ensures 0 <= h.round && forall r | 0 <= r <= h.round :: r in h.sets
  {
  }

  lemma ShapedAfterAdmit(h: HV.HeightVotes, r: int, peer: VS.Peer)
    requires HV.Valid(h) && HV.Admit(h, r, peer).Some?
    ensures HV.AllShaped(HV.Admit(h, r, peer).value) && r in HV.Admit(h, r, peer).value.sets
  {
    HV.AdmitKeeps(h, r, peer, {});
    HV.AllShapedIfValid(HV.Admit(h, r, peer).value);
  }
}
