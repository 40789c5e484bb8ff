/** `consensus/height_vote_set.go`: the vote sets of every round of one height. */
module HeightVoteSets {
  import opened Types
  import opened Power
  import VS = VoteSets
  import opened VoteSets

  datatype RoundVotes = RoundVotes(prepares: VoteSet, commits: VoteSet)

  datatype HeightVotes = HeightVotes(
    chainID: string, height: int, vals: seq<Validator>, round: int,
    sets: map<int, RoundVotes>, catchup: map<Peer, seq<int>>)

  datatype HeightError = VoteErr(err: VoteError) | UnwantedRound

  // ---------------------------------------------------------------- operations

  function NewRound(h: HeightVotes, r: int): RoundVotes {
    RoundVotes(NewVoteSet(h.chainID, h.height, r, Prepare, h.vals),
               NewVoteSet(h.chainID, h.height, r, Commit, h.vals))
  }

  function AddRound(h: HeightVotes, r: int): HeightVotes
    requires r !in h.sets
  {
    h.(sets := h.sets[r := NewRound(h, r)])
  }

  /** `NewHeightVoteSet`: only round 0 is tracked. */
  function NewHeightVotes(chainID: string, height: int, vals: seq<Validator>): HeightVotes {
    AddRound(HeightVotes(chainID, height, vals, 0, map[], map[]), 0)
  }

  /** Create the missing rounds of `from..last`. */
  function Fill(h: HeightVotes, from: int, last: int): HeightVotes
    decreases last - from
  {
    if from > last then h
    else Fill(if from in h.sets then h else AddRound(h, from), from + 1, last)
  }

  /** `SetRound` panics when told to go back by more than one round. */
  predicate SetRoundPanics(h: HeightVotes, round: int) { h.round != 0 && round < h.round - 1 }

  function SetRound(h: HeightVotes, round: int): HeightVotes {
    Fill(h, h.round - 1, round).(round := round)
  }

  function Get(h: HeightVotes, r: int, kind: VoteType): Option<VoteSet> {
    if r !in h.sets then None
    else Some(if kind == Prepare then h.sets[r].prepares else h.sets[r].commits)
  }

  function Put(h: HeightVotes, r: int, kind: VoteType, s: VoteSet): HeightVotes
    requires r in h.sets
  {
    var rv := h.sets[r];
    h.(sets := h.sets[r := if kind == Prepare then rv.(prepares := s) else rv.(commits := s)])
  }

  function Charged(h: HeightVotes, peer: Peer): seq<int> {
    if peer in h.catchup then h.catchup[peer] else []
  }

  /** Make room for a vote of round `r` from `peer`: an untracked round is charged to the peer. */
  function Admit(h: HeightVotes, r: int, peer: Peer): Option<HeightVotes> {
    if r in h.sets then Some(h)
    else if |Charged(h, peer)| < 2 then
      Some(AddRound(h, r).(catchup := h.catchup[peer := Charged(h, peer) + [r]]))
    else None
  }

  predicate AllShaped(h: HeightVotes) {
    forall r | r in h.sets :: Shaped(h.sets[r].prepares) && Shaped(h.sets[r].commits)
  }

  /** `HeightVoteSet.AddVote`. */
  function AddVote(h: HeightVotes, scheme: set<SigFact>, v: Vote, peer: Peer): (HeightVotes, bool, HeightError)
    requires AllShaped(h)
  {
    match Admit(h, v.round, peer)
    case None => (h, false, UnwantedRound)
    case Some(h1) =>
      var res := VS.AddVote(Get(h1, v.round, v.kind).value, scheme, v);
      (Put(h1, v.round, v.kind, res.state), res.added, VoteErr(res.err))
  }

  /** `HeightVoteSet.SetPeerMaj23`. */
  function SetPeerMaj23(h: HeightVotes, r: int, kind: VoteType, peer: Peer, b: BlockID): HeightVotes {
    if r !in h.sets then h else Put(h, r, kind, VS.SetPeerMaj23(Get(h, r, kind).value, peer, b).0)
  }

  /** The majority of a round's prepares, if any. */
  function Polka(h: HeightVotes, r: int): Option<BlockID> {
    if r in h.sets then h.sets[r].prepares.maj23 else None
  }

  /** The majority of a round's commits, if any. */
  function CommitMajority(h: HeightVotes, r: int): Option<BlockID> {
    if r in h.sets then h.sets[r].commits.maj23 else None
  }

  // ---------------------------------------------------------------- invariant

  ghost predicate SlotOk(h: HeightVotes, r: int, kind: VoteType, s: VoteSet) {
    && VS.Valid(s)
    && s.chainID == h.chainID && s.height == h.height && s.round == r && s.kind == kind && s.vals == h.vals
  }

  ghost predicate RoundOk(h: HeightVotes, r: int)
    requires r in h.sets
  {
    SlotOk(h, r, Prepare, h.sets[r].prepares) && SlotOk(h, r, Commit, h.sets[r].commits)
  }

  /** Rounds `0..round` are all tracked, and any later round is charged to a peer with at most two. */
  ghost predicate RoundsOk(h: HeightVotes) {
    && 0 <= h.round
    && (forall r | 0 <= r <= h.round :: r in h.sets)
    && (forall r | r in h.sets :: -1 <= r <= h.round || exists p | p in h.catchup :: r in h.catchup[p])
    && (forall p | p in h.catchup :: |h.catchup[p]| <= 2)
  }

  ghost predicate Valid(h: HeightVotes) {
    && NonNegative(h.vals)
    && (forall r | r in h.sets :: RoundOk(h, r))
    && RoundsOk(h)
  }

  ghost predicate AllSigned(h: HeightVotes, scheme: set<SigFact>) {
    forall r | r in h.sets ::
      VS.AllSigned(h.sets[r].prepares, scheme) && VS.AllSigned(h.sets[r].commits, scheme)
  }

  /** No round is dropped and every vote set only grows. */
  ghost predicate Grows(h: HeightVotes, k: HeightVotes) {
    && k.chainID == h.chainID && k.height == h.height && k.vals == h.vals
    && forall r | r in h.sets :: r in k.sets && VS.Grows(h.sets[r].prepares, k.sets[r].prepares)
                                              && VS.Grows(h.sets[r].commits, k.sets[r].commits)
  }

  lemma ShapedIfValid(s: VoteSet)
    requires VS.Valid(s)
    ensures Shaped(s)
  {
    forall b | b in s.byBlock ensures |s.byBlock[b].votes| == |s.vals| { assert TallyOk(s, b); }
  }

  lemma AllShapedIfValid(h: HeightVotes)
    requires Valid(h)
    ensures AllShaped(h)
  {
    forall r | r in h.sets ensures Shaped(h.sets[r].prepares) && Shaped(h.sets[r].commits) {
      assert RoundOk(h, r);
      ShapedIfValid(h.sets[r].prepares);
      ShapedIfValid(h.sets[r].commits);
    }
  }

  lemma NewRoundOk(h: HeightVotes, r: int)
    requires NonNegative(h.vals) && r !in h.sets
    ensures RoundOk(AddRound(h, r), r)
    ensures forall scheme :: VS.AllSigned(NewRound(h, r).prepares, scheme) && VS.AllSigned(NewRound(h, r).commits, scheme)
  {
    NewVoteSetValid(h.chainID, h.height, r, Prepare, h.vals);
    NewVoteSetValid(h.chainID, h.height, r, Commit, h.vals);
  }

  lemma NewHeightVotesValid(chainID: string, height: int, vals: seq<Validator>)
    requires NonNegative(vals)
    ensures Valid(NewHeightVotes(chainID, height, vals))
    ensures AllSigned(NewHeightVotes(chainID, height, vals), {})
    ensures forall r :: Polka(NewHeightVotes(chainID, height, vals), r).None?
  {
    NewRoundOk(HeightVotes(chainID, height, vals, 0, map[], map[]), 0);
  }

  lemma {:induction false} FillKeeps(h: HeightVotes, from: int, last: int)
    requires NonNegative(h.vals) && forall r | r in h.sets :: RoundOk(h, r)
    ensures var k := Fill(h, from, last);
            && k.round == h.round && k.catchup == h.catchup && Grows(h, k)
            && (forall r | r in k.sets :: RoundOk(k, r))
            && (forall r :: r in k.sets <==> r in h.sets || from <= r <= last)
            && (forall r | r in k.sets :: k.sets[r] == if r in h.sets then h.sets[r] else NewRound(h, r))
    decreases last - from
  {
    hide VS.Valid;
    if from <= last {
      if from !in h.sets { NewRoundOk(h, from); }
      var h1 := if from in h.sets then h else AddRound(h, from);
      forall r | r in h1.sets ensures RoundOk(h1, r) { assert r in h.sets ==> RoundOk(h, r); }
      FillKeeps(h1, from + 1, last);
    }
  }

  lemma NewRoundEmpty(h: HeightVotes)
    ensures forall r :: NewRound(h, r).prepares.maj23.None?
  {
  }

  lemma SameGrows(h: HeightVotes, k: HeightVotes)
    requires k.chainID == h.chainID && k.height == h.height && k.vals == h.vals
    requires forall r | r in h.sets :: r in k.sets && k.sets[r] == h.sets[r]
    ensures Grows(h, k)
  {
  }

  /** Callers that never lower the round keep every round `0..round` tracked. */
  lemma SetRoundKeeps(h: HeightVotes, round: int, scheme: set<SigFact>)
    requires Valid(h) && h.round <= round
    ensures !SetRoundPanics(h, round)
    ensures var k := SetRound(h, round);
            && Valid(k) && Grows(h, k) && k.round == round
            && (AllSigned(h, scheme) ==> AllSigned(k, scheme))
            && (forall r :: Polka(k, r) == Polka(h, r))
  {
    hide VS.Valid, VS.AllSigned, Fill, NewRound, VS.Grows;
    FillKeeps(h, h.round - 1, round);
    NewRoundEmpty(h);
    var f := Fill(h, h.round - 1, round);
    var k := SetRound(h, round);
    forall r | r in k.sets ensures RoundOk(k, r) { assert RoundOk(f, r); }
    forall r | r in k.sets && r !in h.sets
      ensures VS.AllSigned(k.sets[r].prepares, scheme) && VS.AllSigned(k.sets[r].commits, scheme)
    {
      NewRoundOk(h, r);
    }
  }

  /** Exactly the missing rounds up to the new one are added, without votes; the others are as they were. */
  lemma SetRoundAdds(h: HeightVotes, round: int)
    requires Valid(h) && h.round <= round
    ensures var k := SetRound(h, round);
            && (forall r :: r in k.sets <==> r in h.sets || h.round - 1 <= r <= round)
            && (forall r | r in h.sets :: k.sets[r] == h.sets[r])
            && (forall r | r in k.sets && r !in h.sets ::
                  k.sets[r].prepares.bits == {} == k.sets[r].commits.bits && k.sets[r].prepares.byBlock == map[] == k.sets[r].commits.byBlock)
            && k.catchup == h.catchup && k.chainID == h.chainID && k.height == h.height && k.vals == h.vals
  {
    hide VS.Valid, VS.AllSigned, Fill, VS.Grows;
    FillKeeps(h, h.round - 1, round);
  }

  lemma AdmitKeeps(h: HeightVotes, r: int, peer: Peer, scheme: set<SigFact>)
    requires Valid(h) && Admit(h, r, peer).Some?
    ensures var k := Admit(h, r, peer).value;
            && Valid(k) && Grows(h, k) && k.round == h.round && r in k.sets
            && (AllSigned(h, scheme) ==> AllSigned(k, scheme))
            && (forall q :: Polka(k, q) == Polka(h, q))
  {
    hide VS.Valid, VS.AllSigned, NewRound, VS.Grows, Grows;
    var k := Admit(h, r, peer).value;
    SameGrows(h, k);
    if r !in h.sets {
      NewRoundOk(h, r);
      NewRoundEmpty(h);
      AdmitRounds(h, r, peer);
      forall q | q in k.sets ensures RoundOk(k, q) { assert q in h.sets ==> RoundOk(h, q); }
    }
  }

  lemma AdmitRounds(h: HeightVotes, r: int, peer: Peer)
    requires RoundsOk(h) && r !in h.sets && Admit(h, r, peer).Some?
    ensures RoundsOk(Admit(h, r, peer).value)
  {
    hide NewRound;
    var k := Admit(h, r, peer).value;
    assert r in k.catchup[peer];
    forall q | q in k.sets ensures -1 <= q <= k.round || exists p | p in k.catchup :: q in k.catchup[p] {
      if q in h.sets && !(-1 <= q <= h.round) {
        var p :| p in h.catchup && q in h.catchup[p];
        assert p in k.catchup && q in k.catchup[p];
      }
    }
  }

  lemma PutKeeps(h: HeightVotes, r: int, kind: VoteType, s: VoteSet, scheme: set<SigFact>)
    requires Valid(h) && r in h.sets && SlotOk(h, r, kind, s) && VS.Grows(Get(h, r, kind).value, s)
    ensures Valid(Put(h, r, kind, s)) && Grows(h, Put(h, r, kind, s))
    ensures AllSigned(h, scheme) && VS.AllSigned(s, scheme) ==> AllSigned(Put(h, r, kind, s), scheme)
  {
    hide VS.Valid, VS.AllSigned;
    var k := Put(h, r, kind, s);
    forall q | q in k.sets ensures RoundOk(k, q) { assert RoundOk(h, q); }
    forall q | q in h.sets ensures VS.Grows(h.sets[q].prepares, k.sets[q].prepares)
                                && VS.Grows(h.sets[q].commits, k.sets[q].commits) {
    }
  }

  /** `AddVote` keeps the invariant whatever vote any peer sends, and only grows. */
  lemma AddVoteKeeps(h: HeightVotes, scheme: set<SigFact>, v: Vote, peer: Peer)
    requires Valid(h)
    ensures AllShaped(h)
    ensures var (k, added, err) := AddVote(h, scheme, v, peer);
            && Valid(k) && Grows(h, k) && k.round == h.round
            && (AllSigned(h, scheme) ==> AllSigned(k, scheme))
            && (added ==> v.round in k.sets)
            && (err.VoteErr? ==> !err.err.Panic?)
  {
    hide VS.Valid, VS.AllSigned, VS.AddVote;
    AllShapedIfValid(h);
    match Admit(h, v.round, peer)
    case None =>
    case Some(h1) =>
      AdmitKeeps(h, v.round, peer, scheme);
      AllShapedIfValid(h1);
      var s := Get(h1, v.round, v.kind).value;
      assert RoundOk(h1, v.round);
      VS.AddVoteKeeps(s, scheme, v);
      if AllSigned(h, scheme) { AddVoteSigned(s, scheme, v); }
      PutKeeps(h1, v.round, v.kind, VS.AddVote(s, scheme, v).state, scheme);
      GrowsTransitive(h, h1, AddVote(h, scheme, v, peer).0);
  }

  lemma GrowsTransitive(h: HeightVotes, k: HeightVotes, l: HeightVotes)
    requires Grows(h, k) && Grows(k, l)
    ensures Grows(h, l)
  {
    forall r | r in h.sets ensures VS.Grows(h.sets[r].prepares, l.sets[r].prepares)
                                && VS.Grows(h.sets[r].commits, l.sets[r].commits) {
      SetGrowsTransitive(h.sets[r].prepares, k.sets[r].prepares, l.sets[r].prepares);
      SetGrowsTransitive(h.sets[r].commits, k.sets[r].commits, l.sets[r].commits);
    }
  }

  lemma SetGrowsTransitive(s: VoteSet, t: VoteSet, u: VoteSet)
    requires VS.Grows(s, t) && VS.Grows(t, u)
    ensures VS.Grows(s, u)
  {
  }

  lemma SetPeerMaj23Keeps(h: HeightVotes, r: int, kind: VoteType, peer: Peer, b: BlockID, scheme: set<SigFact>)
    requires Valid(h)
    ensures var k := SetPeerMaj23(h, r, kind, peer, b);
            && Valid(k) && Grows(h, k) && k.round == h.round
            && (AllSigned(h, scheme) ==> AllSigned(k, scheme))
  {
    hide VS.Valid, VS.AllSigned, VS.SetPeerMaj23;
    if r in h.sets {
      assert RoundOk(h, r);
      var s := Get(h, r, kind).value;
      VS.SetPeerMaj23Keeps(s, peer, b, scheme);
      PutKeeps(h, r, kind, VS.SetPeerMaj23(s, peer, b).0, scheme);
    } else {
      GrowsReflexive(h);
    }
  }

  lemma GrowsReflexive(h: HeightVotes)
    ensures Grows(h, h)
  {
  }

  // ---------------------------------------------------------------- how many rounds can be tracked

  function RoundRange(n: nat): (s: set<int>)
    ensures |s| == n && forall r :: r in s <==> -1 <= r < n - 1
  {
    if n == 0 then {} else RoundRange(n - 1) + {n - 2}
  }

  lemma {:induction false} ChargedAtMost<P, R>(keys: set<R>, catchup: map<P, seq<R>>)
    requires forall p | p in catchup :: |catchup[p]| <= 2
    requires forall r | r in keys :: exists p | p in catchup :: r in catchup[p]
    ensures |keys| <= 2 * |catchup|
    decreases |catchup|
  {
    if catchup.Keys == {} {
      assert keys == {};
    } else {
      var p :| p in catchup;
      var rest := catchup - {p};
      var others := set r | r in keys && r !in catchup[p];
      forall r | r in others ensures exists q | q in rest :: r in rest[q] {
        var q :| q in catchup && r in catchup[q];
        assert q in rest;
      }
      assert |rest| == |catchup| - 1 by {
        assert rest.Keys == catchup.Keys - {p};
      }
      ChargedAtMost(others, rest);
      MembersAtMost(keys, others, catchup[p]);
    }
  }

  lemma MembersAtMost<R>(keys: set<R>, others: set<R>, q: seq<R>)
    requires |q| <= 2 && forall r | r in keys :: r in others || r in q
    ensures |keys| <= |others| + 2
  {
    if q == [] { SubsetSize(keys, others); }
    else if |q| == 1 { SubsetSize(keys, others + {q[0]}); }
    else { SubsetSize(keys, others + {q[0], q[1]}); }
  }

  lemma {:induction false} SubsetSize<R>(s: set<R>, t: set<R>)
    requires s <= t
    ensures |s| <= |t|
  {
    if s != {} {
      var x :| x in s;
      SubsetSize(s - {x}, t - {x});
    }
  }

  /** Peers cannot make the set grow without bound: at most `round + 2` rounds plus two per peer. */
  lemma TrackedRoundsBounded(h: HeightVotes)
    requires Valid(h)
    ensures |h.sets| <= h.round + 2 + 2 * |h.catchup|
  {
    var near := RoundRange(h.round + 2);
    var far := h.sets.Keys - near;
    ChargedAtMost(far, h.catchup);
    SubsetSize(h.sets.Keys, near + far);
  }
}
