/** `types/vote.go`: votes of one height, round and type, tallied per block. */
module VoteSets {
  import opened Types
  import opened Power

  type Peer = string

  /** Votes for one block: `blockVotes` of the source. */
  datatype BlockVotes = BlockVotes(peerMaj23: bool, bits: set<int>, votes: seq<Option<Vote>>, sum: real)

  datatype VoteSet = VoteSet(
    chainID: string, height: int, round: int, kind: VoteType, vals: seq<Validator>,
    bits: set<int>, votes: seq<Option<Vote>>, sum: real, maj23: Option<BlockID>,
    byBlock: map<BlockID, BlockVotes>, peerMaj23s: map<Peer, BlockID>)

  datatype VoteError =
    | NoError
    | InvalidIndex
    | InvalidAddress
    | UnexpectedStep
    | NonDeterministicSignature
    | InvalidSignature
    | Conflicting(existing: Vote)
    | Panic(message: string)

  datatype AddResult = AddResult(state: VoteSet, added: bool, err: VoteError)

  // ---------------------------------------------------------------- operations

  function Blank(n: nat): seq<Option<Vote>> { seq(n, _ => None) }

  function NewBlockVotes(peerMaj23: bool, n: nat): BlockVotes {
    BlockVotes(peerMaj23, {}, Blank(n), 0.0)
  }

  function NewVoteSet(chainID: string, height: int, round: int, kind: VoteType, vals: seq<Validator>): VoteSet {
    VoteSet(chainID, height, round, kind, vals, {}, Blank(|vals|), 0.0, None, map[], map[])
  }

  predicate Shaped(s: VoteSet) {
    && |s.votes| == |s.vals|
    && forall b | b in s.byBlock :: |s.byBlock[b].votes| == |s.vals|
  }

  function GetVote(s: VoteSet, index: int, b: BlockID): Option<Vote>
    requires Shaped(s) && 0 <= index < |s.vals|
  {
    if s.votes[index].Some? && s.votes[index].value.blockID == b then s.votes[index]
    else if b in s.byBlock then s.byBlock[b].votes[index]
    else None
  }

  predicate Fits(s: VoteSet, v: Vote) {
    v.height == s.height && v.round == s.round && v.kind == s.kind
  }

  predicate Signed(scheme: set<SigFact>, s: VoteSet, v: Vote) {
    && 0 <= v.index < |s.vals|
    && s.vals[v.index].pubKey.address == v.address
    && Verify(scheme, s.vals[v.index].pubKey, v.SignBytes(s.chainID), v.signature)
  }

  /** `VoteSet.addVote`. */
  function AddVote(s: VoteSet, scheme: set<SigFact>, v: Vote): AddResult
    requires Shaped(s)
  {
    if v.index < 0 then AddResult(s, false, InvalidIndex)
    else if v.address == [] then AddResult(s, false, InvalidAddress)
    else if !Fits(s, v) then AddResult(s, false, UnexpectedStep)
    else if v.index >= |s.vals| then AddResult(s, false, InvalidIndex)
    else
      var existing := GetVote(s, v.index, v.blockID);
      if existing.Some? then
        AddResult(s, false,
                  if existing.value.signature == v.signature then NoError else NonDeterministicSignature)
      else if s.vals[v.index].pubKey.address != v.address then AddResult(s, false, InvalidAddress)
      else if !Signed(scheme, s, v) then AddResult(s, false, InvalidSignature)
      else AddVerified(s, v)
  }

  function Track(bv: BlockVotes, v: Vote, power: real): BlockVotes
    requires 0 <= v.index < |bv.votes|
  {
    if bv.votes[v.index].Some? then bv
    else bv.(bits := bv.bits + {v.index}, votes := bv.votes[v.index := Some(v)], sum := bv.sum + power)
  }

  /** The majority's votes become the canonical ones. */
  function Overlay(votes: seq<Option<Vote>>, tracked: seq<Option<Vote>>): (r: seq<Option<Vote>>)
    requires |votes| == |tracked|
  {
    seq(|votes|, i requires 0 <= i < |votes| => if tracked[i].Some? then tracked[i] else votes[i])
  }

  function Record(s: VoteSet, v: Vote): VoteSet
    requires Shaped(s) && 0 <= v.index < |s.vals|
  {
    if s.votes[v.index].None? then
      s.(bits := s.bits + {v.index}, votes := s.votes[v.index := Some(v)],
         sum := s.sum + s.vals[v.index].power)
    else if s.maj23 == Some(v.blockID) then
      s.(bits := s.bits + {v.index}, votes := s.votes[v.index := Some(v)])
    else s
  }

  /** `VoteSet.addVerifiedVote`. */
  function AddVerified(s: VoteSet, v: Vote): AddResult
    requires Shaped(s) && 0 <= v.index < |s.vals|
  {
    var prior := s.votes[v.index];
    if prior.Some? && prior.value.blockID == v.blockID then
      AddResult(s, false, Panic("addVerifiedVote does not expect duplicate votes"))
    else
      var s1 := Record(s, v);
      var err := if prior.Some? then Conflicting(prior.value) else NoError;
      if prior.Some? && !(v.blockID in s.byBlock && s.byBlock[v.blockID].peerMaj23) then
        AddResult(s1, false, err)
      else
        var bv := if v.blockID in s.byBlock then s.byBlock[v.blockID] else NewBlockVotes(false, |s.vals|);
        AddResult(CountForBlock(s1, v, bv), true, err)
  }

  /** Track the vote for its block; the first block to cross the quorum becomes the majority. */
  function CountForBlock(s: VoteSet, v: Vote, bv: BlockVotes): VoteSet
    requires Shaped(s) && 0 <= v.index < |s.vals| && |bv.votes| == |s.vals|
  {
    var bv' := Track(bv, v, s.vals[v.index].power);
    var s' := s.(byBlock := s.byBlock[v.blockID := bv']);
    if bv.sum < QUORUM <= bv'.sum && s.maj23.None? then
      s'.(maj23 := Some(v.blockID), votes := Overlay(s.votes, bv'.votes))
    else s'
  }

  /** `VoteSet.SetPeerMaj23`; the flag says whether the claim was accepted. */
  function SetPeerMaj23(s: VoteSet, peer: Peer, b: BlockID): (VoteSet, bool) {
    if peer in s.peerMaj23s then (s, s.peerMaj23s[peer] == b)
    else
      var bv := if b in s.byBlock then s.byBlock[b].(peerMaj23 := true) else NewBlockVotes(true, |s.vals|);
      (s.(peerMaj23s := s.peerMaj23s[peer := b], byBlock := s.byBlock[b := bv]), true)
  }

  predicate HasTwoThirdsAny(s: VoteSet) { s.sum > TWO_THIRDS }

  predicate HasAll(s: VoteSet) { s.sum == TOTAL_VOTING_POWER }

  // ---------------------------------------------------------------- invariant

  function Voted(votes: seq<Option<Vote>>): set<int> {
    set i | 0 <= i < |votes| && votes[i].Some?
  }

  ghost predicate TallyOk(s: VoteSet, b: BlockID)
    requires b in s.byBlock
  {
    var bv := s.byBlock[b];
    && |bv.votes| == |s.vals| == |s.votes|
    && bv.bits == Voted(bv.votes)
    && bv.sum == Weight(s.vals, bv.bits)
    && forall i | 0 <= i < |s.vals| && bv.votes[i].Some? ::
         && bv.votes[i].value.blockID == b && bv.votes[i].value.index == i && Fits(s, bv.votes[i].value)
         && s.votes[i].Some?
  }

  /** Counts: bit arrays mark the votes held, and every sum is the power of its voters, each counted once. */
  ghost predicate CountsOk(s: VoteSet) {
    && NonNegative(s.vals)
    && |s.votes| == |s.vals|
    && s.bits == Voted(s.votes)
    && s.sum == Weight(s.vals, s.bits)
    && (forall b | b in s.byBlock :: TallyOk(s, b))
  }

  /** Canonical votes sit at their voter's index and are tracked for their block, unless they were
      replaced in favour of the majority. */
  ghost predicate CanonicalOk(s: VoteSet) {
    forall i | 0 <= i < |s.votes| && s.votes[i].Some? ::
      && s.votes[i].value.index == i && Fits(s, s.votes[i].value)
      && (s.maj23 == Some(s.votes[i].value.blockID) || IsTracked(s, s.votes[i].value))
  }

  /** The majority is a block whose tally reached the quorum, and its tracked votes are the canonical ones. */
  ghost predicate MajorityOk(s: VoteSet)
    requires CountsOk(s)
  {
    && (s.maj23.None? ==> forall b | b in s.byBlock :: s.byBlock[b].sum < QUORUM)
    && (s.maj23.Some? ==>
          && s.maj23.value in s.byBlock
          && s.byBlock[s.maj23.value].sum >= QUORUM
          && TallyOk(s, s.maj23.value)
          && forall i | 0 <= i < |s.votes| && s.byBlock[s.maj23.value].votes[i].Some? ::
               s.votes[i] == s.byBlock[s.maj23.value].votes[i])
  }

  /** Everything a vote set keeps true, however its voters equivocate. */
  ghost predicate Valid(s: VoteSet) {
    CountsOk(s) && CanonicalOk(s) && MajorityOk(s)
  }

  predicate IsTracked(s: VoteSet, v: Vote) {
    && v.blockID in s.byBlock
    && 0 <= v.index < |s.byBlock[v.blockID].votes|
    && s.byBlock[v.blockID].votes[v.index] == Some(v)
  }

  /** Every recorded vote carries a signature that was really made. */
  ghost predicate AllSigned(s: VoteSet, scheme: set<SigFact>) {
    && (forall i | 0 <= i < |s.votes| && s.votes[i].Some? :: Signed(scheme, s, s.votes[i].value))
    && (forall b | b in s.byBlock :: TallySigned(s, s.byBlock[b], scheme))
  }

  ghost predicate TallySigned(s: VoteSet, bv: BlockVotes, scheme: set<SigFact>) {
    forall i | 0 <= i < |bv.votes| && bv.votes[i].Some? :: Signed(scheme, s, bv.votes[i].value)
  }

  lemma NewVoteSetValid(chainID: string, height: int, round: int, kind: VoteType, vals: seq<Validator>)
    requires NonNegative(vals)
    ensures Valid(NewVoteSet(chainID, height, round, kind, vals))
    ensures AllSigned(NewVoteSet(chainID, height, round, kind, vals), {})
  {
    WeightEmpty(vals);
    assert Voted(Blank(|vals|)) == {};
  }

  // ---------------------------------------------------------------- what every operation keeps

  ghost predicate SameSlot(s: VoteSet, t: VoteSet) {
    && s.chainID == t.chainID && s.height == t.height && s.round == t.round && s.kind == t.kind
    && s.vals == t.vals
  }

  /** A vote set only grows: no majority is replaced and nobody's vote disappears. */
  ghost predicate Grows(s: VoteSet, t: VoteSet) {
    && SameSlot(s, t)
    && (s.maj23.Some? ==> t.maj23 == s.maj23)
    && s.bits <= t.bits
    && (forall b | b in s.byBlock :: b in t.byBlock && s.byBlock[b].bits <= t.byBlock[b].bits)
  }

  lemma VotedUpdate(votes: seq<Option<Vote>>, i: int, v: Vote)
    requires 0 <= i < |votes|
    ensures Voted(votes[i := Some(v)]) == Voted(votes) + {i}
  {
  }

  lemma RecordKeeps(s: VoteSet, v: Vote)
    requires Valid(s) && 0 <= v.index < |s.vals| && Fits(s, v)
    requires s.votes[v.index].Some? ==> s.votes[v.index].value.blockID != v.blockID
    requires v.blockID in s.byBlock ==> s.byBlock[v.blockID].votes[v.index].None?
    ensures var t := Record(s, v);
            && Shaped(t) && t.bits == Voted(t.votes) && t.sum == Weight(t.vals, t.bits) && Grows(s, t)
            && forall b | b in t.byBlock :: TallyOk(t, b)
    ensures s.votes[v.index].Some? ==> Valid(Record(s, v))
  {
    VotedUpdate(s.votes, v.index, v);
    if s.votes[v.index].None? { WeightAdd(s.vals, s.bits, v.index); }
    else { assert s.bits + {v.index} == s.bits; }
  }

  lemma RecordSigned(s: VoteSet, scheme: set<SigFact>, v: Vote)
    requires Shaped(s) && AllSigned(s, scheme) && Signed(scheme, s, v)
    ensures AllSigned(Record(s, v), scheme)
  {
    var t := Record(s, v);
    forall b | b in t.byBlock ensures TallySigned(t, t.byBlock[b], scheme) {
      assert TallySigned(s, s.byBlock[b], scheme);
    }
  }

  lemma CountSigned(s: VoteSet, scheme: set<SigFact>, v: Vote, bv: BlockVotes)
    requires Shaped(s) && AllSigned(s, scheme) && Signed(scheme, s, v)
    requires |bv.votes| == |s.vals| && TallySigned(s, bv, scheme)
    ensures AllSigned(CountForBlock(s, v, bv), scheme)
  {
    var bv' := Track(bv, v, s.vals[v.index].power);
    assert TallySigned(s, bv', scheme);
    var t := CountForBlock(s, v, bv);
    forall b | b in t.byBlock ensures TallySigned(t, t.byBlock[b], scheme) {
      assert b != v.blockID ==> TallySigned(s, s.byBlock[b], scheme);
    }
  }

  lemma AddVerifiedSigned(s: VoteSet, scheme: set<SigFact>, v: Vote)
    requires Shaped(s) && AllSigned(s, scheme) && Signed(scheme, s, v)
    ensures AllSigned(AddVerified(s, v).state, scheme)
  {
    RecordSigned(s, scheme, v);
    if AddVerified(s, v).added {
      var bv := if v.blockID in s.byBlock then s.byBlock[v.blockID] else NewBlockVotes(false, |s.vals|);
      assert TallySigned(Record(s, v), bv, scheme) by {
        assert v.blockID in s.byBlock ==> TallySigned(s, bv, scheme);
      }
      CountSigned(Record(s, v), scheme, v, bv);
    }
  }

  lemma TrackKeeps(s: VoteSet, b: BlockID, bv: BlockVotes, v: Vote)
    requires b in s.byBlock && s.byBlock[b] == bv && TallyOk(s, b)
    requires 0 <= v.index < |s.vals| && Fits(s, v) && v.blockID == b
    requires bv.votes[v.index].None? && s.votes[v.index].Some?
    ensures TallyOk(s.(byBlock := s.byBlock[b := Track(bv, v, s.vals[v.index].power)]), b)
  {
    VotedUpdate(bv.votes, v.index, v);
    WeightAdd(s.vals, bv.bits, v.index);
  }

  lemma EmptyTallyOk(s: VoteSet, b: BlockID, claim: bool)
    requires |s.votes| == |s.vals|
    ensures TallyOk(s.(byBlock := s.byBlock[b := NewBlockVotes(claim, |s.vals|)]), b)
  {
    WeightEmpty(s.vals);
    assert Voted(Blank(|s.vals|)) == {};
  }

  /** The tally a counted vote starts from: none of its voter's votes is in it yet. */
  ghost predicate Starts(s: VoteSet, v: Vote, bv: BlockVotes)
    requires CountsOk(s)
  {
    && 0 <= v.index < |s.vals| && Fits(s, v) && s.votes[v.index].Some?
    && bv == (if v.blockID in s.byBlock then s.byBlock[v.blockID] else NewBlockVotes(false, |s.vals|))
    && |bv.votes| == |s.vals|
    && bv.votes[v.index].None?
  }

  lemma CountKeepsCounts(s: VoteSet, v: Vote, bv: BlockVotes)
    requires CountsOk(s) && Starts(s, v, bv)
    ensures CountsOk(CountForBlock(s, v, bv)) && Grows(s, CountForBlock(s, v, bv))
  {
    hide Weight;
    var t := CountForBlock(s, v, bv);
    CountedTally(s, v, bv);
    assert Voted(t.votes) == Voted(s.votes);
    forall b | b in t.byBlock ensures TallyOk(t, b) {
      if b != v.blockID { assert TallyOk(s, b); }
    }
  }

  /** The tally of the counted vote's block. */
  lemma CountedTally(s: VoteSet, v: Vote, bv: BlockVotes)
    requires CountsOk(s) && Starts(s, v, bv)
    ensures TallyOk(CountForBlock(s, v, bv), v.blockID)
    ensures bv.bits <= CountForBlock(s, v, bv).byBlock[v.blockID].bits
  {
    hide Weight, Overlay;
    var bv' := Track(bv, v, s.vals[v.index].power);
    var mid := s.(byBlock := s.byBlock[v.blockID := bv]);
    if v.blockID !in s.byBlock { EmptyTallyOk(s, v.blockID, false); }
    else { assert mid == s; assert TallyOk(s, v.blockID); }
    TrackKeeps(mid, v.blockID, bv, v);
    var done := s.(byBlock := s.byBlock[v.blockID := bv']);
    assert mid.byBlock[v.blockID := bv'] == s.byBlock[v.blockID := bv'];
    OverlaySome(s.votes, bv'.votes);
  }

  lemma OverlaySome(votes: seq<Option<Vote>>, tracked: seq<Option<Vote>>)
    requires |votes| == |tracked|
    ensures |Overlay(votes, tracked)| == |votes|
    ensures forall i | 0 <= i < |votes| && votes[i].Some? :: Overlay(votes, tracked)[i].Some?
  {
  }

  lemma CountKeepsCanonical(s: VoteSet, v: Vote, bv: BlockVotes)
    requires CountsOk(s) && Starts(s, v, bv)
    requires forall i | 0 <= i < |s.votes| && s.votes[i].Some? ::
               && s.votes[i].value.index == i && Fits(s, s.votes[i].value)
               && (s.maj23 == Some(s.votes[i].value.blockID) || IsTracked(s, s.votes[i].value)
                   || s.votes[i].value == v)
    ensures CanonicalOk(CountForBlock(s, v, bv))
  {
    hide NonNegative, MajorityOk, Weight, Voted;
    var t := CountForBlock(s, v, bv);
    forall i | 0 <= i < |t.votes| && t.votes[i].Some?
      ensures t.votes[i].value.index == i && Fits(t, t.votes[i].value)
      ensures t.maj23 == Some(t.votes[i].value.blockID) || IsTracked(t, t.votes[i].value)
    {
      if t.votes[i] == s.votes[i] && s.votes[i].value.blockID != v.blockID {
        assert s.maj23 == Some(s.votes[i].value.blockID) || IsTracked(s, s.votes[i].value);
      }
    }
  }

  lemma CountKeepsMajority(s: VoteSet, v: Vote, bv: BlockVotes)
    requires CountsOk(s) && Starts(s, v, bv) && MajorityOk(s)
    requires s.maj23 == Some(v.blockID) ==> s.votes[v.index] == Some(v)
    ensures CountsOk(CountForBlock(s, v, bv)) && MajorityOk(CountForBlock(s, v, bv))
  {
    CountKeepsCounts(s, v, bv);
    var t := CountForBlock(s, v, bv);
    assert TallyOk(t, v.blockID);
    if t.maj23.Some? { assert TallyOk(t, t.maj23.value); }
  }

  /** The vote passes every check of `addVote`, so it reaches `addVerifiedVote`. */
  predicate Accepted(s: VoteSet, scheme: set<SigFact>, v: Vote)
    requires Shaped(s)
  {
    && 0 <= v.index < |s.vals| && v.address != [] && Fits(s, v)
    && GetVote(s, v.index, v.blockID).None?
    && Signed(scheme, s, v)
  }

  /** After the first half of `addVerifiedVote` the second half can start. */
  lemma RecordStarts(s: VoteSet, v: Vote, bv: BlockVotes)
    requires Valid(s) && 0 <= v.index < |s.vals| && Fits(s, v) && Shaped(s) && GetVote(s, v.index, v.blockID).None?
    requires bv == if v.blockID in s.byBlock then s.byBlock[v.blockID] else NewBlockVotes(false, |s.vals|)
    ensures var t := Record(s, v);
            && CountsOk(t) && Starts(t, v, bv) && MajorityOk(t) && Grows(s, t)
            && (t.maj23 == Some(v.blockID) ==> t.votes[v.index] == Some(v))
            && (forall i | 0 <= i < |t.votes| && t.votes[i].Some? ::
                  && t.votes[i].value.index == i && Fits(t, t.votes[i].value)
                  && (t.maj23 == Some(t.votes[i].value.blockID) || IsTracked(t, t.votes[i].value)
                      || t.votes[i].value == v))
  {
    hide CountForBlock;
    if v.blockID in s.byBlock { assert TallyOk(s, v.blockID); }
    RecordKeeps(s, v);
    var t := Record(s, v);
    if s.maj23.Some? { TallyOfMajority(s, s.maj23.value); }
    forall i | 0 <= i < |t.votes| && t.votes[i].Some?
      ensures t.maj23 == Some(t.votes[i].value.blockID) || IsTracked(t, t.votes[i].value) || t.votes[i].value == v
    {
      if t.votes[i] == s.votes[i] { assert s.maj23 == Some(s.votes[i].value.blockID) || IsTracked(s, s.votes[i].value); }
    }
  }

  lemma FreeSlots(s: VoteSet, v: Vote)
    requires Valid(s) && Shaped(s) && 0 <= v.index < |s.vals| && GetVote(s, v.index, v.blockID).None?
    ensures s.votes[v.index].Some? ==> s.votes[v.index].value.blockID != v.blockID
    ensures v.blockID in s.byBlock ==> s.byBlock[v.blockID].votes[v.index].None?
  {
    hide Valid;
  }

  lemma AddVerifiedKeeps(s: VoteSet, v: Vote)
    requires Valid(s) && 0 <= v.index < |s.vals| && Fits(s, v) && Shaped(s) && GetVote(s, v.index, v.blockID).None?
    ensures var r := AddVerified(s, v);
            && Valid(r.state) && Grows(s, r.state)
            && !r.err.Panic? && (r.added ==> r.err.NoError? || r.err.Conflicting?)
            && (s.votes[v.index].None? ==> r.added && r.err.NoError?)
            && (s.votes[v.index].Some? ==> r.err == Conflicting(s.votes[v.index].value))
  {
    hide AddVerified, Record, CountForBlock, TallyOk, CanonicalOk, MajorityOk, CountsOk, Starts, IsTracked;
    FreeSlots(s, v);
    if s.votes[v.index].Some? && !(v.blockID in s.byBlock && s.byBlock[v.blockID].peerMaj23) {
      NotTracked(s, v);
      RecordKeeps(s, v);
    } else {
      var s1 := Record(s, v);
      var bv := if v.blockID in s.byBlock then s.byBlock[v.blockID] else NewBlockVotes(false, |s.vals|);
      RecordStarts(s, v, bv);
      Counted(s, v, bv);
      CountKeepsCounts(s1, v, bv);
      CountKeepsCanonical(s1, v, bv);
      CountKeepsMajority(s1, v, bv);
    }
  }

  lemma NotTracked(s: VoteSet, v: Vote)
    requires Shaped(s) && 0 <= v.index < |s.vals| && s.votes[v.index].Some?
    requires s.votes[v.index].value.blockID != v.blockID
    requires !(v.blockID in s.byBlock && s.byBlock[v.blockID].peerMaj23)
    ensures AddVerified(s, v) == AddResult(Record(s, v), false, Conflicting(s.votes[v.index].value))
  {
  }

  lemma Counted(s: VoteSet, v: Vote, tracked: BlockVotes)
    requires Shaped(s) && 0 <= v.index < |s.vals|
    requires s.votes[v.index].Some? ==>
               s.votes[v.index].value.blockID != v.blockID && v.blockID in s.byBlock && s.byBlock[v.blockID].peerMaj23
    requires tracked == if v.blockID in s.byBlock then s.byBlock[v.blockID] else NewBlockVotes(false, |s.vals|)
    ensures AddVerified(s, v)
         == AddResult(CountForBlock(Record(s, v), v, tracked), true,
                      if s.votes[v.index].Some? then Conflicting(s.votes[v.index].value) else NoError)
  {
  }

  /** `addVote` keeps the invariant on every input, never reaches either of its panics, and only grows. */
  lemma AddVoteKeeps(s: VoteSet, scheme: set<SigFact>, v: Vote)
    requires Valid(s)
    ensures Shaped(s)
    ensures var r := AddVote(s, scheme, v);
            && Valid(r.state) && Grows(s, r.state)
            && !r.err.Panic? && (r.added ==> r.err.NoError? || r.err.Conflicting?)
  {
    hide CanonicalOk, MajorityOk, AddVerified, Signed;
    forall b | b in s.byBlock ensures |s.byBlock[b].votes| == |s.vals| { assert TallyOk(s, b); }
    if Accepted(s, scheme, v) { AddVerifiedKeeps(s, v); }
  }

  lemma AddVoteSigned(s: VoteSet, scheme: set<SigFact>, v: Vote)
    requires Valid(s) && Shaped(s) && AllSigned(s, scheme)
    ensures Valid(AddVote(s, scheme, v).state) && AllSigned(AddVote(s, scheme, v).state, scheme)
  {
    AddVoteKeeps(s, scheme, v);
    if Accepted(s, scheme, v) { AddVerifiedSigned(s, scheme, v); }
  }

  lemma ClaimKeepsCounts(s: VoteSet, peer: Peer, b: BlockID)
    requires CountsOk(s)
    ensures CountsOk(SetPeerMaj23(s, peer, b).0)
  {
    var t := SetPeerMaj23(s, peer, b).0;
    if peer !in s.peerMaj23s {
      if b !in s.byBlock { EmptyTallyOk(s, b, true); }
      forall c | c in t.byBlock ensures TallyOk(t, c) {
        if c != b { assert TallyOk(s, c); }
        else if b in s.byBlock { assert TallyOk(s, b); }
      }
    }
  }

  lemma ClaimKeepsSigned(s: VoteSet, peer: Peer, b: BlockID, scheme: set<SigFact>)
    requires AllSigned(s, scheme)
    ensures AllSigned(SetPeerMaj23(s, peer, b).0, scheme)
  {
    var t := SetPeerMaj23(s, peer, b).0;
    forall c | c in t.byBlock ensures TallySigned(t, t.byBlock[c], scheme) {
      if c in s.byBlock { assert TallySigned(s, s.byBlock[c], scheme); }
    }
  }

  lemma SetPeerMaj23Keeps(s: VoteSet, peer: Peer, b: BlockID, scheme: set<SigFact>)
    requires Valid(s)
    ensures Valid(SetPeerMaj23(s, peer, b).0) && Grows(s, SetPeerMaj23(s, peer, b).0)
    ensures SetPeerMaj23(s, peer, b).0.maj23 == s.maj23 && SetPeerMaj23(s, peer, b).0.sum == s.sum
    ensures AllSigned(s, scheme) ==> AllSigned(SetPeerMaj23(s, peer, b).0, scheme)
  {
    hide CountsOk, AllSigned;
    ClaimKeepsCounts(s, peer, b);
    if AllSigned(s, scheme) { ClaimKeepsSigned(s, peer, b, scheme); }
    var t := SetPeerMaj23(s, peer, b).0;
    if s.maj23.Some? { TallyOfMajority(t, s.maj23.value); }
  }

  lemma TallyOfMajority(s: VoteSet, b: BlockID)
    requires CountsOk(s)
    ensures |s.votes| == |s.vals| && (b in s.byBlock ==> TallyOk(s, b))
  {
  }

  /** A majority is always "two thirds of anything" as well. */
  lemma MajorityIsTwoThirdsAny(s: VoteSet)
    requires Valid(s) && s.maj23.Some?
    ensures HasTwoThirdsAny(s)
  {
    assert TallyOk(s, s.maj23.value);
    WeightMonotone(s.vals, s.byBlock[s.maj23.value].bits, s.bits);
  }
}
