/** What vote sets answer: which votes are added, which errors are given, and what a peer's claim is good for. */
module VoteAnswers {
  import opened Types
  import opened Power
  import VS = VoteSets
  import opened VoteSets
  import HV = HeightVoteSets

  /** The vote is one that its validator could have cast in this set. */
  ghost predicate Genuine(s: VoteSet, scheme: set<SigFact>, v: Vote) {
    && 0 <= v.index < |s.vals| && v.address != [] && v.address == s.vals[v.index].pubKey.address
    && v.height == s.height && v.round == s.round && v.kind == s.kind
    && SigFact(s.vals[v.index].pubKey, v.SignBytes(s.chainID), v.signature) in scheme
  }

  /** A vote of validator `i` for block `b` that the set holds, canonically or in the block's tally. */
  ghost predicate HeldFor(s: VoteSet, i: int, b: BlockID, held: Vote) {
    || (0 <= i < |s.votes| && s.votes[i] == Some(held) && held.blockID == b)
    || (b in s.byBlock && 0 <= i < |s.byBlock[b].votes| && s.byBlock[b].votes[i] == Some(held))
  }

  ghost predicate IsKnown(s: VoteSet, v: Vote) { exists held :: HeldFor(s, v.index, v.blockID, held) }

  /** A peer has claimed a majority for the block. */
  predicate IsClaimed(s: VoteSet, b: BlockID) { b in s.byBlock && s.byBlock[b].peerMaj23 }

  predicate HasVoted(s: VoteSet, i: int) { 0 <= i < |s.votes| && s.votes[i].Some? }

  /** A vote is added exactly if it is genuine, new, and either its validator's first or for a block that a peer has
      claimed. It then counts for its block, and a first vote is the canonical one. */
  lemma AddedIff(s: VoteSet, scheme: set<SigFact>, v: Vote)
    requires Valid(s) && Shaped(s)
    ensures var r := AddVote(s, scheme, v);
            && (r.added <==> Genuine(s, scheme, v) && !IsKnown(s, v) && (!HasVoted(s, v.index) || IsClaimed(s, v.blockID)))
            && (r.added ==> IsTracked(r.state, v) && HasVoted(r.state, v.index))
            && (r.added && !HasVoted(s, v.index) ==> r.state.votes[v.index] == Some(v))
  {
    hide MajorityOk, Weight, Voted;
    KnownVote(s, v);
    if 0 <= v.index < |s.vals| && v.blockID in s.byBlock { assert TallyOk(s, v.blockID); }
  }

  lemma KnownVote(s: VoteSet, v: Vote)
    requires Shaped(s)
    ensures 0 <= v.index < |s.vals| ==> (IsKnown(s, v) <==> GetVote(s, v.index, v.blockID).Some?)
  {
    if 0 <= v.index < |s.vals| && GetVote(s, v.index, v.blockID).Some? {
      assert HeldFor(s, v.index, v.blockID, GetVote(s, v.index, v.blockID).value);
    }
  }

  /** A genuine second vote of a validator is reported with its first one. */
  lemma ConflictIff(s: VoteSet, scheme: set<SigFact>, v: Vote)
    requires Valid(s) && Shaped(s)
    ensures var r := AddVote(s, scheme, v);
            && (r.err.Conflicting? <==> Genuine(s, scheme, v) && !IsKnown(s, v) && HasVoted(s, v.index))
            && (r.err.Conflicting? ==> r.err.existing == s.votes[v.index].value)
            && (r.err.Conflicting? && s.maj23 == Some(v.blockID) ==> r.state.votes[v.index] == Some(v))
  {
    hide MajorityOk, Weight, Voted;
    KnownVote(s, v);
    if 0 <= v.index < |s.vals| && v.blockID in s.byBlock { assert TallyOk(s, v.blockID); }
  }

  /** What is refused for any other reason changes nothing; the reasons, in this order. */
  lemma RefusedFor(s: VoteSet, scheme: set<SigFact>, v: Vote)
    requires Valid(s) && Shaped(s)
    ensures var r := AddVote(s, scheme, v);
            var inside := 0 <= v.index < |s.vals|;
            var here := v.height == s.height && v.round == s.round && v.kind == s.kind;
            && (!r.added && !r.err.Conflicting? ==> r.state == s)
            && (v.index < 0 ==> r.err == InvalidIndex)
            && (v.index >= 0 && v.address == [] ==> r.err == InvalidAddress)
            && (v.index >= 0 && v.address != [] && !here ==> r.err == UnexpectedStep)
            && (v.index >= |s.vals| && v.address != [] && here ==> r.err == InvalidIndex)
            && (inside && v.address != [] && here && IsKnown(s, v) ==>
                  && !r.added && (r.err == NoError || r.err == NonDeterministicSignature)
                  && (r.err == NoError <==> GetVote(s, v.index, v.blockID).value.signature == v.signature))
            && (inside && v.address != [] && here && !IsKnown(s, v) ==>
                  && (r.err == InvalidAddress <==> v.address != s.vals[v.index].pubKey.address)
                  && (r.err == InvalidSignature <==> v.address == s.vals[v.index].pubKey.address && !Genuine(s, scheme, v)))
  {
    hide CanonicalOk, MajorityOk, Weight, Voted;
    KnownVote(s, v);
  }

  /** A peer's first claim is recorded and marks the block as claimed, whether or not it has votes yet; nothing else
      changes. A later claim of the same peer changes nothing, and is refused unless it is the same. */
  lemma ClaimRecorded(s: VoteSet, peer: Peer, b: BlockID)
    ensures var (t, ok) := SetPeerMaj23(s, peer, b);
            if peer in s.peerMaj23s then t == s && (ok <==> s.peerMaj23s[peer] == b)
            else
              && ok && IsClaimed(t, b) && t == s.(peerMaj23s := s.peerMaj23s[peer := b], byBlock := t.byBlock)
              && (forall c :: c in t.byBlock <==> c in s.byBlock || c == b)
              && (forall c | c in s.byBlock && c != b :: t.byBlock[c] == s.byBlock[c])
              && (b in s.byBlock ==> t.byBlock[b] == s.byBlock[b].(peerMaj23 := true))
              && (b !in s.byBlock ==> t.byBlock[b].bits == {} && t.byBlock[b].sum == 0.0 && t.byBlock[b].votes == Blank(|s.vals|))
  {
  }

  /** What a claim is for: from then on every genuine new vote for the block counts, also of a validator that has
      voted for another one. */
  lemma ClaimedVotesCount(s: VoteSet, peer: Peer, b: BlockID, scheme: set<SigFact>, v: Vote)
    requires Valid(s) && Shaped(s) && peer !in s.peerMaj23s
    requires v.blockID == b && Genuine(s, scheme, v) && !IsKnown(s, v)
    ensures var t := SetPeerMaj23(s, peer, b).0;
            Shaped(t) && AddVote(t, scheme, v).added && IsTracked(AddVote(t, scheme, v).state, v)
  {
    hide Valid, AddVote;
    SetPeerMaj23Keeps(s, peer, b, {});
    ClaimRecorded(s, peer, b);
    var t := SetPeerMaj23(s, peer, b).0;
    assert t.vals == s.vals && t.votes == s.votes;
    ClaimHolds(s, peer, b, v);
    AddedIff(t, scheme, v);
  }

  lemma ClaimHolds(s: VoteSet, peer: Peer, b: BlockID, v: Vote)
    requires peer !in s.peerMaj23s
    ensures IsKnown(SetPeerMaj23(s, peer, b).0, v) <==> IsKnown(s, v)
  {
    var t := SetPeerMaj23(s, peer, b).0;
    forall held ensures HeldFor(t, v.index, v.blockID, held) <==> HeldFor(s, v.index, v.blockID, held) {
    }
  }

  /** Two thirds of anything, and all: measured by the power of the distinct validators that have voted. */
  lemma TwoThirdsAnyIff(s: VoteSet)
    requires Valid(s)
    ensures HasTwoThirdsAny(s) <==> 3.0 * Weight(s.vals, set i | 0 <= i < |s.votes| && s.votes[i].Some?) > 20.0
    ensures HasAll(s) <==> Weight(s.vals, set i | 0 <= i < |s.votes| && s.votes[i].Some?) == 10.0
  {
    assert Voted(s.votes) == set i | 0 <= i < |s.votes| && s.votes[i].Some?;
  }

  // ---------------------------------------------------------------- the rounds of a height

  /** A vote for a round that is not tracked is turned away exactly if its peer has opened two rounds already; otherwise
      the round is opened at the peer's expense. The vote goes to the set of its round and type, and to no other. */
  lemma RoundVoteAdded(h: HV.HeightVotes, scheme: set<SigFact>, v: Vote, peer: Peer)
    requires HV.Valid(h)
    ensures HV.AllShaped(h)
    ensures var (k, added, err) := HV.AddVote(h, scheme, v, peer);
            var used := if peer in h.catchup then |h.catchup[peer]| else 0;
            if v.round !in h.sets && used >= 2 then k == h && !added && err == HV.UnwantedRound
            else
              && v.round in k.sets && k.round == h.round && k.sets.Keys == h.sets.Keys + {v.round}
              && (forall r | r in h.sets && r != v.round :: k.sets[r] == h.sets[r])
              && (if v.round in h.sets then k.catchup == h.catchup
                  else peer in k.catchup && |k.catchup[peer]| == used + 1 && v.round in k.catchup[peer]
                       && forall p | p in h.catchup && p != peer :: p in k.catchup && k.catchup[p] == h.catchup[p])
  {
    hide VS.Valid, VS.AddVote;
    HV.AllShapedIfValid(h);
    HV.AddVoteKeeps(h, scheme, v, peer);
  }

  /** The set of a round and type, empty before the round is tracked. */
  function SetOf(h: HV.HeightVotes, round: int, kind: VoteType): VoteSet {
    if round !in h.sets then NewVoteSet(h.chainID, h.height, round, kind, h.vals)
    else if kind == Prepare then h.sets[round].prepares
    else h.sets[round].commits
  }

  /** Unless it is turned away, the answer to a vote is that of its round's set. */
  lemma SetAnswers(h: HV.HeightVotes, scheme: set<SigFact>, v: Vote, peer: Peer)
    requires HV.Valid(h) && (v.round in h.sets || peer !in h.catchup || |h.catchup[peer]| < 2)
    ensures HV.AllShaped(h) && Shaped(SetOf(h, v.round, v.kind))
    ensures var (k, added, err) := HV.AddVote(h, scheme, v, peer);
            var res := VS.AddVote(SetOf(h, v.round, v.kind), scheme, v);
            && added == res.added && err == HV.VoteErr(res.err) && SetOf(k, v.round, v.kind) == res.state
            && forall kind | kind != v.kind :: SetOf(k, v.round, kind) == SetOf(h, v.round, kind)
  {
    hide VS.Valid, VS.AddVote;
    HV.AllShapedIfValid(h);
  }

  /** A claim goes to the set of its round and type, and is dropped if the round is not tracked. */
  lemma RoundClaimRecorded(h: HV.HeightVotes, r: int, kind: VoteType, peer: Peer, b: BlockID)
    ensures var k := HV.SetPeerMaj23(h, r, kind, peer, b);
            if r !in h.sets then k == h
            else
              && k == h.(sets := k.sets) && k.sets.Keys == h.sets.Keys
              && SetOf(k, r, kind) == VS.SetPeerMaj23(SetOf(h, r, kind), peer, b).0
              && forall q, other | q in h.sets && (q, other) != (r, kind) :: SetOf(k, q, other) == SetOf(h, q, other)
  {
    hide VS.SetPeerMaj23;
  }
}
