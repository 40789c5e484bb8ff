/** A vote set refines a plain tally of who voted for what. */
module VoteTally {
  import opened Types
  import opened Power
  import opened VoteSets

  datatype Input = Cast(vote: Vote) | Claim(peer: Peer, block: BlockID)

  ghost function Apply(s: VoteSet, scheme: set<SigFact>, input: Input): (t: VoteSet)
    requires Valid(s)
    ensures Valid(t) && Grows(s, t)
  {
    match input
    case Cast(v) => AddVoteKeeps(s, scheme, v); AddVote(s, scheme, v).state
    case Claim(p, b) => SetPeerMaj23Keeps(s, p, b, scheme); SetPeerMaj23(s, p, b).0
  }

  /** The vote set after a whole sequence of votes and peer claims. */
  ghost function Run(s: VoteSet, scheme: set<SigFact>, inputs: seq<Input>): (t: VoteSet)
    requires Valid(s)
    ensures Valid(t) && Grows(s, t)
  {
    if inputs == [] then s
    else Apply(Run(s, scheme, inputs[..|inputs| - 1]), scheme, inputs[|inputs| - 1])
  }

  /** A vote the set has no reason to refuse. */
  predicate GoodCast(s: VoteSet, scheme: set<SigFact>, input: Input) {
    && input.Cast? && input.vote.address != [] && Fits(s, input.vote) && Signed(scheme, s, input.vote)
  }

  /** The plain tally: the distinct validators that voted for `b`. */
  function Casters(s: VoteSet, scheme: set<SigFact>, inputs: seq<Input>, b: BlockID): set<int> {
    set k | 0 <= k < |inputs| && GoodCast(s, scheme, inputs[k]) && inputs[k].vote.blockID == b ::
      inputs[k].vote.index
  }

  ghost predicate NonEquivocating(s: VoteSet, scheme: set<SigFact>, inputs: seq<Input>) {
    forall j, k | 0 <= j < |inputs| && 0 <= k < |inputs|
               && GoodCast(s, scheme, inputs[j]) && GoodCast(s, scheme, inputs[k])
               && inputs[j].vote.index == inputs[k].vote.index ::
      inputs[j].vote.blockID == inputs[k].vote.blockID
  }

  function Bits(s: VoteSet, b: BlockID): set<int> {
    if b in s.byBlock then s.byBlock[b].bits else {}
  }

  /** The set tracks exactly the plain tally, and canonical votes come from it. */
  ghost predicate Matches(s: VoteSet, scheme: set<SigFact>, inputs: seq<Input>, t: VoteSet) {
    && (forall b :: Bits(t, b) == Casters(s, scheme, inputs, b))
    && (forall i | 0 <= i < |t.votes| && t.votes[i].Some? ::
          i in Casters(s, scheme, inputs, t.votes[i].value.blockID))
  }

  function Contribution(s: VoteSet, scheme: set<SigFact>, input: Input, b: BlockID): set<int> {
    if GoodCast(s, scheme, input) && input.vote.blockID == b then {input.vote.index} else {}
  }

  lemma CastersLast(s: VoteSet, scheme: set<SigFact>, inputs: seq<Input>, b: BlockID)
    requires inputs != []
    ensures Casters(s, scheme, inputs, b)
         == Casters(s, scheme, inputs[..|inputs| - 1], b) + Contribution(s, scheme, inputs[|inputs| - 1], b)
  {
    var n := |inputs| - 1;
    var front := inputs[..n];
    assert forall k | 0 <= k < n :: front[k] == inputs[k];
    forall i | i in Casters(s, scheme, front, b) ensures i in Casters(s, scheme, inputs, b) {
      var k :| 0 <= k < |front| && GoodCast(s, scheme, front[k]) && front[k].vote.blockID == b
               && front[k].vote.index == i;
      assert inputs[k] == front[k];
    }
  }

  lemma ClaimBits(s: VoteSet, p: Peer, c: BlockID, b: BlockID)
    ensures Bits(SetPeerMaj23(s, p, c).0, b) == Bits(s, b)
  {
  }

  /** One new good vote from a validator that has not voted yet is tracked for its block alone. */
  lemma FreshVoteBits(s: VoteSet, scheme: set<SigFact>, v: Vote, b: BlockID)
    requires Valid(s) && Shaped(s) && GoodCast(s, scheme, Cast(v)) && s.votes[v.index].None?
    ensures var t := AddVote(s, scheme, v).state;
            && Bits(t, b) == Bits(s, b) + (if b == v.blockID then {v.index} else {})
            && t.votes[v.index] == Some(v)
  {
    if v.blockID in s.byBlock { assert TallyOk(s, v.blockID); }
  }

  lemma FreshVoteCanonical(s: VoteSet, scheme: set<SigFact>, v: Vote, i: int)
    requires Valid(s) && Shaped(s) && GoodCast(s, scheme, Cast(v)) && s.votes[v.index].None?
    requires 0 <= i < |s.votes| && i != v.index
    ensures var t := AddVote(s, scheme, v).state;
            0 <= i < |t.votes| && (t.votes[i] == s.votes[i] || (t.votes[i].Some? && t.votes[i].value.blockID == v.blockID
                                   && i in Bits(s, v.blockID)))
  {
    if v.blockID in s.byBlock { assert TallyOk(s, v.blockID); }
  }

  lemma GrownSlot(s: VoteSet, t: VoteSet, scheme: set<SigFact>, input: Input)
    requires SameSlot(s, t)
    ensures GoodCast(s, scheme, input) == GoodCast(t, scheme, input)
  {
  }

  lemma {:induction false} RunMatches(s: VoteSet, scheme: set<SigFact>, inputs: seq<Input>)
    requires s == NewVoteSet(s.chainID, s.height, s.round, s.kind, s.vals) && Valid(s)
    requires NonEquivocating(s, scheme, inputs)
    ensures Matches(s, scheme, inputs, Run(s, scheme, inputs))
  {
    if inputs != [] {
      var n := |inputs| - 1;
      var front, last := inputs[..n], inputs[n];
      assert forall k | 0 <= k < n :: front[k] == inputs[k];
      RunMatches(s, scheme, front);
      StepMatches(s, scheme, inputs, Run(s, scheme, front));
    }
  }

  lemma StepMatches(s: VoteSet, scheme: set<SigFact>, inputs: seq<Input>, u: VoteSet)
    requires inputs != [] && NonEquivocating(s, scheme, inputs)
    requires Valid(u) && SameSlot(s, u) && Matches(s, scheme, inputs[..|inputs| - 1], u)
    ensures Matches(s, scheme, inputs, Apply(u, scheme, inputs[|inputs| - 1]))
  {
    var n := |inputs| - 1;
    var front, last := inputs[..n], inputs[n];
    var t := Apply(u, scheme, last);
    GrownSlot(s, u, scheme, last);
    forall b ensures Bits(t, b) == Casters(s, scheme, inputs, b) {
      CastersLast(s, scheme, inputs, b);
      StepBits(s, scheme, inputs, u, b);
    }
    forall i | 0 <= i < |t.votes| && t.votes[i].Some?
      ensures i in Casters(s, scheme, inputs, t.votes[i].value.blockID)
    {
      CastersLast(s, scheme, inputs, t.votes[i].value.blockID);
      StepCanonical(s, scheme, inputs, u, i);
    }
  }

  /** A good vote from a validator that already voted repeats its block, so it changes nothing. */
  lemma RepeatIgnored(s: VoteSet, scheme: set<SigFact>, inputs: seq<Input>, u: VoteSet)
    requires inputs != [] && NonEquivocating(s, scheme, inputs)
    requires Valid(u) && SameSlot(s, u) && Matches(s, scheme, inputs[..|inputs| - 1], u)
    requires inputs[|inputs| - 1].Cast?
    ensures var v := inputs[|inputs| - 1].vote;
            && Shaped(u)
            && (!GoodCast(s, scheme, Cast(v)) ==> AddVote(u, scheme, v).state == u)
            && (GoodCast(s, scheme, Cast(v)) && u.votes[v.index].Some? ==>
                  AddVote(u, scheme, v).state == u && v.index in Bits(u, v.blockID))
  {
    var n := |inputs| - 1;
    var front, v := inputs[..n], inputs[n].vote;
    AddVoteKeeps(u, scheme, v);
    GrownSlot(s, u, scheme, inputs[n]);
    if GoodCast(s, scheme, Cast(v)) && u.votes[v.index].Some? {
      var w := u.votes[v.index].value;
      assert v.index in Casters(s, scheme, front, w.blockID);
      var k :| 0 <= k < n && GoodCast(s, scheme, front[k]) && front[k].vote.blockID == w.blockID
               && front[k].vote.index == v.index;
      assert inputs[k] == front[k];
    }
  }

  lemma StepBits(s: VoteSet, scheme: set<SigFact>, inputs: seq<Input>, u: VoteSet, b: BlockID)
    requires inputs != [] && NonEquivocating(s, scheme, inputs)
    requires Valid(u) && SameSlot(s, u) && Matches(s, scheme, inputs[..|inputs| - 1], u)
    ensures Bits(Apply(u, scheme, inputs[|inputs| - 1]), b)
         == Bits(u, b) + Contribution(s, scheme, inputs[|inputs| - 1], b)
  {
    var last := inputs[|inputs| - 1];
    GrownSlot(s, u, scheme, last);
    match last
    case Claim(p, c) => ClaimBits(u, p, c, b);
    case Cast(v) =>
      RepeatIgnored(s, scheme, inputs, u);
      if GoodCast(s, scheme, last) && u.votes[v.index].None? { FreshVoteBits(u, scheme, v, b); }
  }

  lemma StepCanonical(s: VoteSet, scheme: set<SigFact>, inputs: seq<Input>, u: VoteSet, i: int)
    requires inputs != [] && NonEquivocating(s, scheme, inputs)
    requires Valid(u) && SameSlot(s, u) && Matches(s, scheme, inputs[..|inputs| - 1], u)
    requires 0 <= i < |Apply(u, scheme, inputs[|inputs| - 1]).votes|
    requires Apply(u, scheme, inputs[|inputs| - 1]).votes[i].Some?
    ensures var last := inputs[|inputs| - 1];
            var b := Apply(u, scheme, last).votes[i].value.blockID;
            || i in Casters(s, scheme, inputs[..|inputs| - 1], b)
            || (GoodCast(s, scheme, last) && last.vote.blockID == b && last.vote.index == i)
  {
    var last := inputs[|inputs| - 1];
    GrownSlot(s, u, scheme, last);
    match last
    case Claim(p, c) =>
    case Cast(v) =>
      RepeatIgnored(s, scheme, inputs, u);
      if GoodCast(s, scheme, last) && u.votes[v.index].None? {
        FreshVoteBits(u, scheme, v, v.blockID);
        if i != v.index { FreshVoteCanonical(u, scheme, v, i); }
      }
  }

  lemma CastersDisjoint(s: VoteSet, scheme: set<SigFact>, inputs: seq<Input>, b: BlockID, c: BlockID)
    requires NonEquivocating(s, scheme, inputs) && b != c
    ensures Casters(s, scheme, inputs, b) * Casters(s, scheme, inputs, c) == {}
  {
  }

  /** With no equivocation and at most the nominal total power, the set reports `b` exactly when the
      distinct voters for `b` weigh at least 23/3, whatever the order of votes and claims. */
  lemma MajorityIsTally(s: VoteSet, scheme: set<SigFact>, inputs: seq<Input>, b: BlockID)
    requires s == NewVoteSet(s.chainID, s.height, s.round, s.kind, s.vals) && NonNegative(s.vals)
    requires Total(s.vals) <= TOTAL_VOTING_POWER
    requires NonEquivocating(s, scheme, inputs)
    ensures Valid(s)
    ensures Run(s, scheme, inputs).maj23 == Some(b) <==> Weight(s.vals, Casters(s, scheme, inputs, b)) >= QUORUM
  {
    NewVoteSetValid(s.chainID, s.height, s.round, s.kind, s.vals);
    RunMatches(s, scheme, inputs);
    var t := Run(s, scheme, inputs);
    assert Bits(t, b) == Casters(s, scheme, inputs, b);
    WeightEmpty(s.vals);
    if b in t.byBlock { assert TallyOk(t, b); }
    if t.maj23.Some? && t.maj23.value != b {
      var c := t.maj23.value;
      assert TallyOk(t, c) && Bits(t, c) == Casters(s, scheme, inputs, c);
      CastersDisjoint(s, scheme, inputs, b, c);
      Overlap(s.vals, Casters(s, scheme, inputs, b), Casters(s, scheme, inputs, c));
    }
  }

  /** Two deliveries of the same votes agree on the majority, whatever their order, repeats and claims. */
  lemma OrderIndependent(s: VoteSet, scheme: set<SigFact>, inputs: seq<Input>, others: seq<Input>)
    requires s == NewVoteSet(s.chainID, s.height, s.round, s.kind, s.vals) && NonNegative(s.vals)
    requires Total(s.vals) <= TOTAL_VOTING_POWER
    requires NonEquivocating(s, scheme, inputs)
    requires forall v :: Cast(v) in inputs <==> Cast(v) in others
    ensures Valid(s) && Run(s, scheme, inputs).maj23 == Run(s, scheme, others).maj23
  {
    NewVoteSetValid(s.chainID, s.height, s.round, s.kind, s.vals);
    forall j | 0 <= j < |others| && GoodCast(s, scheme, others[j]) ensures others[j] in inputs {
      assert Cast(others[j].vote) in others;
    }
    assert NonEquivocating(s, scheme, others);
    var t, u := Run(s, scheme, inputs), Run(s, scheme, others);
    forall b ensures Casters(s, scheme, inputs, b) == Casters(s, scheme, others, b) {
      SameCasts(s, scheme, inputs, others, b);
      SameCasts(s, scheme, others, inputs, b);
    }
    if t.maj23.Some? {
      MajorityIsTally(s, scheme, inputs, t.maj23.value);
      MajorityIsTally(s, scheme, others, t.maj23.value);
    } else if u.maj23.Some? {
      MajorityIsTally(s, scheme, inputs, u.maj23.value);
      MajorityIsTally(s, scheme, others, u.maj23.value);
    }
  }

  lemma SameCasts(s: VoteSet, scheme: set<SigFact>, inputs: seq<Input>, others: seq<Input>, b: BlockID)
    requires forall v :: Cast(v) in inputs ==> Cast(v) in others
    ensures Casters(s, scheme, inputs, b) <= Casters(s, scheme, others, b)
  {
    forall i | i in Casters(s, scheme, inputs, b) ensures i in Casters(s, scheme, others, b) {
      var k :| 0 <= k < |inputs| && GoodCast(s, scheme, inputs[k]) && inputs[k].vote.blockID == b
               && inputs[k].vote.index == i;
      assert Cast(inputs[k].vote) in inputs;
      var j :| 0 <= j < |others| && others[j] == Cast(inputs[k].vote);
      assert GoodCast(s, scheme, others[j]);
    }
  }

  ghost predicate AllTracked(s: VoteSet) {
    forall i | 0 <= i < |s.votes| && s.votes[i].Some? :: IsTracked(s, s.votes[i].value)
  }

  /** The source's comment promises that every canonical vote is also tracked for its block. Adding a vote
      keeps that promise exactly when it is not a conflicting vote for the majority that no peer claimed. */
  lemma CanonicalTrackedIff(s: VoteSet, scheme: set<SigFact>, v: Vote)
    requires Valid(s) && Shaped(s) && AllTracked(s) && Accepted(s, scheme, v)
    ensures AllTracked(AddVote(s, scheme, v).state)
       <==> !(s.votes[v.index].Some? && s.maj23 == Some(v.blockID) && !s.byBlock[v.blockID].peerMaj23)
  {
    FreeSlot(s, scheme, v);
    hide AddVote, AddVerified, AllTracked, CountForBlock, Record, CanonicalOk, MajorityOk, TallyOk;
    if s.votes[v.index].Some? && !(v.blockID in s.byBlock && s.byBlock[v.blockID].peerMaj23) {
      NotTracked(s, v);
      RecordTracked(s, v);
    } else {
      var bv := if v.blockID in s.byBlock then s.byBlock[v.blockID] else NewBlockVotes(false, |s.vals|);
      Counted(s, v, bv);
      CountTracked(s, v, bv);
    }
  }

  lemma FreeSlot(s: VoteSet, scheme: set<SigFact>, v: Vote)
    requires CountsOk(s) && Shaped(s) && Accepted(s, scheme, v)
    ensures AddVote(s, scheme, v) == AddVerified(s, v)
    ensures s.votes[v.index].Some? ==> s.votes[v.index].value.blockID != v.blockID
    ensures v.blockID in s.byBlock ==> s.byBlock[v.blockID].votes[v.index].None?
    ensures s.maj23 == Some(v.blockID) && MajorityOk(s) ==> v.blockID in s.byBlock
  {
    hide AddVerified, TallyOk;
  }

  /** A conflicting vote that is not tracked: it breaks the promise exactly when it becomes canonical. */
  lemma RecordTracked(s: VoteSet, v: Vote)
    requires Shaped(s) && AllTracked(s) && 0 <= v.index < |s.vals| && s.votes[v.index].Some?
    requires v.blockID in s.byBlock ==> s.byBlock[v.blockID].votes[v.index].None?
    ensures AllTracked(Record(s, v)) <==> s.maj23 != Some(v.blockID)
  {
    var t := Record(s, v);
    forall i | 0 <= i < |t.votes| && i != v.index && t.votes[i].Some? ensures IsTracked(t, t.votes[i].value) {
      assert IsTracked(s, s.votes[i].value);
    }
    if s.maj23 == Some(v.blockID) { assert t.votes[v.index] == Some(v) && !IsTracked(t, v); }
    else { assert IsTracked(s, s.votes[v.index].value); }
  }

  /** A vote that is tracked keeps the promise, also when its block wins. */
  lemma CountTracked(s: VoteSet, v: Vote, bv: BlockVotes)
    requires CountsOk(s) && Shaped(s) && AllTracked(s) && 0 <= v.index < |s.vals| && Fits(s, v)
    requires bv == if v.blockID in s.byBlock then s.byBlock[v.blockID] else NewBlockVotes(false, |s.vals|)
    requires |bv.votes| == |s.vals| && bv.votes[v.index].None?
    ensures AllTracked(CountForBlock(Record(s, v), v, bv))
  {
    hide CountsOk, Record, CountForBlock, IsTracked;
    TallyAtIndex(s, v.blockID, bv);
    RecordShape(s, v);
    var r := Record(s, v);
    var bv' := Track(bv, v, s.vals[v.index].power);
    var t := CountForBlock(r, v, bv);
    CountShape(r, v, bv);
    forall i | 0 <= i < |t.votes| && t.votes[i].Some? ensures IsTracked(t, t.votes[i].value) {
      TrackedNow(s, t, v, bv, bv', i);
    }
  }

  lemma RecordShape(s: VoteSet, v: Vote)
    requires Shaped(s) && 0 <= v.index < |s.vals|
    ensures var t := Record(s, v);
            && Shaped(t) && t.vals == s.vals && t.byBlock == s.byBlock && |t.votes| == |s.votes|
            && (forall i | 0 <= i < |s.votes| :: t.votes[i] == s.votes[i] || (i == v.index && t.votes[i] == Some(v)))
  {
  }

  lemma CountShape(r: VoteSet, v: Vote, bv: BlockVotes)
    requires Shaped(r) && 0 <= v.index < |r.vals| && |bv.votes| == |r.vals|
    ensures var t := CountForBlock(r, v, bv);
            var bv' := Track(bv, v, r.vals[v.index].power);
            && t.byBlock == r.byBlock[v.blockID := bv'] && |t.votes| == |r.votes|
            && (forall i | 0 <= i < |r.votes| :: t.votes[i] == r.votes[i] || (bv'.votes[i].Some? && t.votes[i] == bv'.votes[i]))
  {
  }

  lemma TrackedNow(s: VoteSet, t: VoteSet, v: Vote, bv: BlockVotes, bv': BlockVotes, i: int)
    requires Shaped(s) && AllTracked(s) && 0 <= v.index < |s.vals|
    requires bv == if v.blockID in s.byBlock then s.byBlock[v.blockID] else NewBlockVotes(false, |s.vals|)
    requires |bv.votes| == |s.vals| && bv.votes[v.index].None? && bv' == Track(bv, v, s.vals[v.index].power)
    requires forall k | 0 <= k < |bv.votes| && bv.votes[k].Some? :: bv.votes[k].value.blockID == v.blockID && bv.votes[k].value.index == k
    requires t.byBlock == s.byBlock[v.blockID := bv'] && |t.votes| == |s.votes| && 0 <= i < |t.votes| && t.votes[i].Some?
    requires t.votes[i] == s.votes[i] || (i == v.index && t.votes[i] == Some(v)) || (bv'.votes[i].Some? && t.votes[i] == bv'.votes[i])
    ensures IsTracked(t, t.votes[i].value)
  {
    if t.votes[i] == s.votes[i] { assert IsTracked(s, s.votes[i].value); }
  }

  lemma TallyAtIndex(s: VoteSet, b: BlockID, bv: BlockVotes)
    requires CountsOk(s) && bv == if b in s.byBlock then s.byBlock[b] else NewBlockVotes(false, |s.vals|)
    ensures forall i | 0 <= i < |bv.votes| && bv.votes[i].Some? :: bv.votes[i].value.blockID == b && bv.votes[i].value.index == i
  {
    if b in s.byBlock { assert TallyOk(s, b); }
  }

  /** The run that shows it: validator 1 (power 1) votes A, validator 0 (power 9) makes B the majority,
      then validator 1 votes B too. Its canonical vote is for B, yet B's tally does not list it. */
  lemma CanonicalVoteUntracked(s: VoteSet, scheme: set<SigFact>, a: Vote, b: Vote, b': Vote)
    requires s == NewVoteSet(s.chainID, s.height, s.round, s.kind, s.vals)
    requires |s.vals| == 2 && s.vals[0].power == 9.0 && s.vals[1].power == 1.0
    requires GoodCast(s, scheme, Cast(a)) && GoodCast(s, scheme, Cast(b)) && GoodCast(s, scheme, Cast(b'))
    requires a.index == 1 && b.index == 0 && b'.index == 1
    requires b.blockID == b'.blockID != a.blockID
    ensures Valid(s)
    ensures var t := Run(s, scheme, [Cast(a), Cast(b), Cast(b')]);
            && t.maj23 == Some(b.blockID) && t.votes[1] == Some(b') && !IsTracked(t, b')
  {
    NewVoteSetValid(s.chainID, s.height, s.round, s.kind, s.vals);
    var inputs := [Cast(a), Cast(b), Cast(b')];
    assert inputs[..2] == [Cast(a), Cast(b)] && inputs[..2][..1] == [Cast(a)] && inputs[..2][..1][..0] == [];
    var s1 := AddVote(s, scheme, a).state;
    assert s1 == Run(s, scheme, inputs[..2][..1]);
    var s2 := AddVote(s1, scheme, b).state;
    assert s2 == Run(s, scheme, inputs[..2]);
    SecondWins(s, scheme, a, b);
    ThirdReplaces(s2, scheme, b');
  }

  lemma SecondWins(s: VoteSet, scheme: set<SigFact>, a: Vote, b: Vote)
    requires s == NewVoteSet(s.chainID, s.height, s.round, s.kind, s.vals)
    requires |s.vals| == 2 && s.vals[0].power == 9.0 && s.vals[1].power == 1.0
    requires GoodCast(s, scheme, Cast(a)) && GoodCast(s, scheme, Cast(b)) && a.index == 1 && b.index == 0
    requires b.blockID != a.blockID
    ensures var t := AddVote(AddVote(s, scheme, a).state, scheme, b).state;
            && Shaped(t) && SameSlot(s, t) && t.maj23 == Some(b.blockID) && t.votes == [Some(b), Some(a)]
            && b.blockID in t.byBlock && t.byBlock[b.blockID] == BlockVotes(false, {0}, [Some(b), None], 9.0)
  {
    var s1 := AddVote(s, scheme, a).state;
    assert s1.votes == [None, Some(a)] && s1.maj23.None? && s1.byBlock.Keys == {a.blockID} && SameSlot(s, s1);
    assert Blank(2) == [None, None];
    var t := AddVote(s1, scheme, b).state;
    assert Overlay([Some(b), Some(a)], [Some(b), None]) == [Some(b), Some(a)];
  }

  lemma ThirdReplaces(t: VoteSet, scheme: set<SigFact>, v: Vote)
    requires Shaped(t) && |t.vals| == 2 && GoodCast(t, scheme, Cast(v)) && v.index == 1 && t.maj23 == Some(v.blockID)
    requires t.votes[1].Some? && t.votes[1].value.blockID != v.blockID
    requires v.blockID in t.byBlock && !t.byBlock[v.blockID].peerMaj23 && t.byBlock[v.blockID].votes[1].None?
    ensures var u := AddVote(t, scheme, v).state;
            u.maj23 == t.maj23 && |u.votes| == 2 && u.votes[1] == Some(v) && !IsTracked(u, v)
  {
  }
}
