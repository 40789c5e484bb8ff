/** Commit certificates: `VoteSet.MakeReply`, `ReplyToVoteSet` and `ValidatorSet.VerifyReply`. */
module Certificates {
  import opened Types
  import opened Power
  import opened VoteSets
  import opened VoteTally

  datatype BlockIDFlag = FlagAbsent | FlagCommit | FlagNil

  datatype ReplySig = ReplySig(flag: BlockIDFlag, address: Bytes, time: int, signature: Bytes) {
    function BlockID(commit: BlockID): BlockID {
      if flag == FlagCommit then commit else NIL_BLOCK
    }
  }

  const ABSENT := ReplySig(FlagAbsent, [], 0, [])

  datatype Reply = Reply(height: int, round: int, blockID: BlockID, signatures: seq<ReplySig>)

  predicate WellFormed(b: BlockID) { b.IsZero() || b.IsComplete() }

  /** `Vote.ReplySig`, for votes whose block identifier is empty or complete; it panics on any other. */
  function SigOf(v: Option<Vote>): ReplySig
    requires v.Some? ==> WellFormed(v.value.blockID)
  {
    if v.None? then ABSENT
    else ReplySig(if v.value.blockID.IsComplete() then FlagCommit else FlagNil,
                  v.value.address, v.value.time, v.value.signature)
  }

  /** The entry `MakeReply` puts at a slot: votes for other blocks count as absent. */
  function Entry(v: Option<Vote>, majority: BlockID): ReplySig
    requires v.Some? ==> WellFormed(v.value.blockID)
  {
    if v.Some? && v.value.blockID.IsComplete() && v.value.blockID != majority then ABSENT else SigOf(v)
  }

  predicate VotesWellFormed(s: VoteSet) {
    forall i | 0 <= i < |s.votes| && s.votes[i].Some? :: WellFormed(s.votes[i].value.blockID)
  }

  /** `VoteSet.MakeReply`; `None` stands for its panics. */
  function MakeReply(s: VoteSet): Option<Reply> {
    if s.kind != Commit || s.maj23.None? || !VotesWellFormed(s) then None
    else
      Some(Reply(s.height, s.round, s.maj23.value,
                 seq(|s.votes|, i requires 0 <= i < |s.votes| => Entry(s.votes[i], s.maj23.value))))
  }

  /** A certificate can be made exactly from a majority of commits all of whose votes are for nil or for a complete block
      identifier. It is the majority's; each entry is the vote's, and absent where there is no vote or one for another
      block. */
  lemma MakeReplyIff(s: VoteSet)
    ensures MakeReply(s).Some? <==>
              && s.kind == Commit && s.maj23.Some?
              && forall i | 0 <= i < |s.votes| && s.votes[i].Some? ::
                   s.votes[i].value.blockID == NIL_BLOCK || s.votes[i].value.blockID.IsComplete()
    ensures MakeReply(s).Some? ==>
              var r := MakeReply(s).value;
              && r.height == s.height && r.round == s.round && r.blockID == s.maj23.value && |r.signatures| == |s.votes|
              && forall i | 0 <= i < |s.votes| ::
                   var (sig, v) := (r.signatures[i], s.votes[i]);
                   && (sig.flag == FlagCommit <==> v.Some? && v.value.blockID == s.maj23.value && v.value.blockID.IsComplete())
                   && (sig.flag == FlagNil <==> v.Some? && v.value.blockID == NIL_BLOCK)
                   && (sig.flag != FlagAbsent ==> (sig.address, sig.time, sig.signature) == (v.value.address, v.value.time, v.value.signature))
                   && (sig.flag == FlagAbsent ==> sig == ReplySig(FlagAbsent, [], 0, []))
  {
  }

  function FindSig(sigs: seq<ReplySig>, address: Bytes, from: nat): (j: nat)
    requires from <= |sigs|
    ensures from <= j <= |sigs|
    ensures forall i | from <= i < j :: sigs[i].address != address
    ensures j < |sigs| ==> sigs[j].address == address
    decreases |sigs| - from
  {
    if from == |sigs| || sigs[from].address == address then from else FindSig(sigs, address, from + 1)
  }

  /** `Reply.GetVote`: the entry with the given address, or the one at the index when there is none. */
  function GetVote(reply: Reply, index: nat, address: Bytes): Vote
    requires index < |reply.signatures|
  {
    var j := FindSig(reply.signatures, address, 0);
    var sig := if address == [] then reply.signatures[index]
               else if j < |reply.signatures| then reply.signatures[j]
               else ReplySig(FlagAbsent, [], 0, []);
    Vote(Commit, reply.height, reply.round, sig.BlockID(reply.blockID), sig.time, sig.address, index, sig.signature)
  }

  // ---------------------------------------------------------------- VerifyReply

  datatype VerifyOutcome =
    | Verified
    | WrongSize
    | WrongHeight
    | WrongBlockID
    | WrongSignature(index: nat)
    | NotEnough(got: real)

  function SignBytesAt(chainID: string, reply: Reply, i: nat): SignBytes
    requires i < |reply.signatures|
  {
    GetVote(reply, i, []).SignBytes(chainID)
  }

  predicate GoodSig(scheme: set<SigFact>, chainID: string, vals: seq<Validator>, reply: Reply, i: nat)
    requires i < |reply.signatures| && i < |vals|
  {
    || reply.signatures[i].flag == FlagAbsent
    || Verify(scheme, vals[i].pubKey, SignBytesAt(chainID, reply, i), reply.signatures[i].signature)
  }

  function ForBlock(reply: Reply, n: nat): set<int>
    requires n <= |reply.signatures|
  {
    set i | 0 <= i < n && reply.signatures[i].flag == FlagCommit
  }

  /** What a certificate must be for `VerifyReply` to accept it. */
  ghost predicate Certifies(scheme: set<SigFact>, chainID: string, vals: seq<Validator>,
                            blockID: BlockID, height: int, reply: Reply)
  {
    && |vals| == |reply.signatures| && height == reply.height && blockID == reply.blockID
    && (forall i: nat | i < |vals| :: GoodSig(scheme, chainID, vals, reply, i))
    && Weight(vals, ForBlock(reply, |vals|)) > TWO_THIRDS
  }

  /** A certificate is accepted exactly if it is for this height and block, has one entry per validator, every entry that
      is not absent is a signature that validator made of a commit for the block or for nil, and those for the block
      weigh more than 20/3. */
  lemma CertifiesIff(scheme: set<SigFact>, chainID: string, vals: seq<Validator>, blockID: BlockID, height: int, reply: Reply)
    ensures Certifies(scheme, chainID, vals, blockID, height, reply) <==>
              && |vals| == |reply.signatures| && height == reply.height && blockID == reply.blockID
              && (forall i | 0 <= i < |vals| && reply.signatures[i].flag != FlagAbsent ::
                    var sig := reply.signatures[i];
                    var b := if sig.flag == FlagCommit then blockID else NIL_BLOCK;
                    SigFact(vals[i].pubKey, VoteBytes(chainID, Commit, height, reply.round, b, sig.time), sig.signature) in scheme)
              && 3.0 * Weight(vals, set i | 0 <= i < |vals| && reply.signatures[i].flag == FlagCommit) > 20.0
  {
    if |vals| == |reply.signatures| {
      assert ForBlock(reply, |vals|) == set i | 0 <= i < |vals| && reply.signatures[i].flag == FlagCommit;
      forall i: nat | i < |vals|
        ensures GoodSig(scheme, chainID, vals, reply, i) <==>
                  var sig := reply.signatures[i];
                  sig.flag == FlagAbsent
                  || SigFact(vals[i].pubKey, VoteBytes(chainID, Commit, reply.height, reply.round,
                                                       if sig.flag == FlagCommit then reply.blockID else NIL_BLOCK, sig.time),
                             sig.signature) in scheme
      {
      }
    }
  }

  lemma {:induction false} WeightCut(vals: seq<Validator>, s: set<int>, t: set<int>, n: nat)
    requires n <= |vals| && forall i | 0 <= i < n :: i in s <==> i in t
    ensures WeightBelow(vals, s, n) == WeightBelow(vals, t, n)
  {
    if n > 0 { WeightCut(vals, s, t, n - 1); }
  }

  /** `ValidatorSet.VerifyReply`: accepts exactly the certificates; the error says what is wrong first. */
  method VerifyReply(scheme: set<SigFact>, chainID: string, vals: seq<Validator>,
                     blockID: BlockID, height: int, reply: Reply) returns (r: VerifyOutcome)
    ensures r.Verified? <==> Certifies(scheme, chainID, vals, blockID, height, reply)
    ensures r.WrongSize? <==> |vals| != |reply.signatures|
    ensures r.WrongHeight? <==> |vals| == |reply.signatures| && height != reply.height
    ensures r.WrongBlockID? <==> |vals| == |reply.signatures| && height == reply.height && blockID != reply.blockID
    ensures r.WrongSignature? ==>
              && r.index < |vals| == |reply.signatures| && !GoodSig(scheme, chainID, vals, reply, r.index)
              && forall i: nat | i < r.index :: GoodSig(scheme, chainID, vals, reply, i)
    ensures r.NotEnough? ==>
              && |vals| == |reply.signatures| && r.got == Weight(vals, ForBlock(reply, |vals|)) <= TWO_THIRDS
              && forall i: nat | i < |vals| :: GoodSig(scheme, chainID, vals, reply, i)
  {
    if |vals| != |reply.signatures| { return WrongSize; }
    if height != reply.height { return WrongHeight; }
    if blockID != reply.blockID { return WrongBlockID; }
    var tallied := 0.0;
    var idx := 0;
    while idx < |reply.signatures|
      invariant 0 <= idx <= |vals|
      invariant forall i: nat | i < idx :: GoodSig(scheme, chainID, vals, reply, i)
      invariant tallied == WeightBelow(vals, ForBlock(reply, idx), idx)
    {
      var sig := reply.signatures[idx];
      WeightCut(vals, ForBlock(reply, idx), ForBlock(reply, idx + 1), idx);
      if sig.flag != FlagAbsent {
        if !Verify(scheme, vals[idx].pubKey, SignBytesAt(chainID, reply, idx), sig.signature) {
          assert !GoodSig(scheme, chainID, vals, reply, idx);
          return WrongSignature(idx);
        }
        if sig.flag == FlagCommit { tallied := tallied + vals[idx].power; }
      }
      idx := idx + 1;
    }
    if tallied <= TWO_THIRDS { return NotEnough(tallied); }
    r := Verified;
  }

  // ---------------------------------------------------------------- MakeReply passes VerifyReply

  lemma EntryVote(s: VoteSet, reply: Reply, i: nat)
    requires Valid(s) && MakeReply(s) == Some(reply) && i < |s.votes|
    requires reply.signatures[i].flag != FlagAbsent
    ensures s.votes[i].Some? && (s.votes[i].value.blockID == s.maj23.value || s.votes[i].value.blockID.IsZero())
    ensures var v := s.votes[i].value;
            GetVote(reply, i, []) == Vote(Commit, v.height, v.round, v.blockID, v.time, v.address, i, v.signature) == v
  {
  }

  lemma BackersOfMajority(s: VoteSet, reply: Reply)
    requires Valid(s) && MakeReply(s) == Some(reply)
    ensures s.maj23.value.IsComplete() ==> Weight(s.vals, ForBlock(reply, |s.vals|)) >= QUORUM
    ensures !s.maj23.value.IsComplete() ==> Weight(s.vals, ForBlock(reply, |s.vals|)) == 0.0
  {
    var b := s.maj23.value;
    assert TallyOk(s, b);
    if b.IsComplete() {
      forall i | 0 <= i < |s.vals| && i in s.byBlock[b].bits ensures i in ForBlock(reply, |s.vals|) {
        assert s.votes[i] == s.byBlock[b].votes[i];
      }
      WeightMonotone(s.vals, s.byBlock[b].bits, ForBlock(reply, |s.vals|));
    } else {
      assert ForBlock(reply, |s.vals|) == {};
      WeightEmpty(s.vals);
    }
  }

  /** A commit majority's certificate verifies against the same validators exactly when the majority is a
      real block; a certificate made from a majority for nil is refused for lack of power. */
  lemma MakeReplyVerifies(s: VoteSet, scheme: set<SigFact>)
    requires Valid(s) && AllSigned(s, scheme) && MakeReply(s).Some?
    ensures Certifies(scheme, s.chainID, s.vals, s.maj23.value, s.height, MakeReply(s).value)
       <==> s.maj23.value.IsComplete()
  {
    var reply := MakeReply(s).value;
    BackersOfMajority(s, reply);
    forall i: nat | i < |s.vals| ensures GoodSig(scheme, s.chainID, s.vals, reply, i) {
      if reply.signatures[i].flag != FlagAbsent {
        EntryVote(s, reply, i);
        assert Signed(scheme, s, s.votes[i].value);
      }
    }
  }

  // ---------------------------------------------------------------- ReplyToVoteSet

  /** The votes `ReplyToVoteSet` adds, in order. */
  function Inputs(reply: Reply, n: nat): seq<Input>
    requires n <= |reply.signatures|
  {
    if n == 0 then []
    else if reply.signatures[n - 1].flag == FlagAbsent then Inputs(reply, n - 1)
    else Inputs(reply, n - 1) + [Cast(GetVote(reply, n - 1, reply.signatures[n - 1].address))]
  }

  ghost function Rebuilt(scheme: set<SigFact>, chainID: string, reply: Reply, vals: seq<Validator>, n: nat): VoteSet
    requires n <= |reply.signatures| && NonNegative(vals)
  {
    NewVoteSetValid(chainID, reply.height, reply.round, Commit, vals);
    Run(NewVoteSet(chainID, reply.height, reply.round, Commit, vals), scheme, Inputs(reply, n))
  }

  lemma RebuiltNone(scheme: set<SigFact>, chainID: string, reply: Reply, vals: seq<Validator>)
    requires NonNegative(vals)
    ensures Rebuilt(scheme, chainID, reply, vals, 0) == NewVoteSet(chainID, reply.height, reply.round, Commit, vals)
  {
  }

  lemma RebuiltNext(scheme: set<SigFact>, chainID: string, reply: Reply, vals: seq<Validator>, n: nat)
    requires n < |reply.signatures| && NonNegative(vals)
    ensures var u := Rebuilt(scheme, chainID, reply, vals, n);
            var v := GetVote(reply, n, reply.signatures[n].address);
            && Valid(u) && Shaped(u)
            && Rebuilt(scheme, chainID, reply, vals, n + 1)
               == (if reply.signatures[n].flag == FlagAbsent then u else AddVote(u, scheme, v).state)
  {
    var u := Rebuilt(scheme, chainID, reply, vals, n);
    var v := GetVote(reply, n, reply.signatures[n].address);
    AddVoteKeeps(u, scheme, v);
    if reply.signatures[n].flag != FlagAbsent {
      assert Inputs(reply, n + 1)[..|Inputs(reply, n + 1)| - 1] == Inputs(reply, n);
    }
  }

  /** `ReplyToVoteSet`; `None` stands for its panics. On success the result is the vote set that the
      certificate's votes build, each of them added without an error. */
  method ReplyToVoteSet(scheme: set<SigFact>, chainID: string, reply: Reply, vals: seq<Validator>)
    returns (r: Option<VoteSet>)
    requires NonNegative(vals)
    ensures r.Some? ==> reply.height != 0 && r.value == Rebuilt(scheme, chainID, reply, vals, |reply.signatures|)
    ensures r.None? <==> reply.height == 0 || !AllAdded(scheme, chainID, reply, vals, |reply.signatures|)
  {
    hide AddVote, Valid, Rebuilt, GetVote;
    if reply.height == 0 { return None; }
    RebuiltNone(scheme, chainID, reply, vals);
    var voteSet := NewVoteSet(chainID, reply.height, reply.round, Commit, vals);
    var idx := 0;
    while idx < |reply.signatures|
      invariant 0 <= idx <= |reply.signatures|
      invariant voteSet == Rebuilt(scheme, chainID, reply, vals, idx)
      invariant AllAdded(scheme, chainID, reply, vals, idx)
    {
      var sig := reply.signatures[idx];
      RebuiltNext(scheme, chainID, reply, vals, idx);
      if sig.flag != FlagAbsent {
        var res := AddVote(voteSet, scheme, GetVote(reply, idx, sig.address));
        if !res.added || res.err != NoError {
          NotAllAdded(scheme, chainID, reply, vals, idx + 1, |reply.signatures|);
          return None;
        }
        voteSet := res.state;
      }
      idx := idx + 1;
    }
    r := Some(voteSet);
  }

  /** The first `n` entries are added one after the other, each accepted without an error. */
  ghost predicate AllAdded(scheme: set<SigFact>, chainID: string, reply: Reply, vals: seq<Validator>, n: nat)
    requires n <= |reply.signatures| && NonNegative(vals)
  {
    n == 0 ||
    (&& AllAdded(scheme, chainID, reply, vals, n - 1)
     && (reply.signatures[n - 1].flag != FlagAbsent ==>
           var s := Rebuilt(scheme, chainID, reply, vals, n - 1);
           var v := GetVote(reply, n - 1, reply.signatures[n - 1].address);
           Shaped(s) && AddVote(s, scheme, v).added && AddVote(s, scheme, v).err == NoError))
  }

  lemma {:induction false} NotAllAdded(scheme: set<SigFact>, chainID: string, reply: Reply, vals: seq<Validator>,
                                       m: nat, n: nat)
    requires m <= n <= |reply.signatures| && NonNegative(vals)
    requires !AllAdded(scheme, chainID, reply, vals, m)
    ensures !AllAdded(scheme, chainID, reply, vals, n)
  {
    if m < n { NotAllAdded(scheme, chainID, reply, vals, m, n - 1); }
  }

  // ---------------------------------------------------------------- the round trip

  predicate GoodAddresses(vals: seq<Validator>) {
    && (forall i | 0 <= i < |vals| :: vals[i].pubKey.address != [])
    && (forall i, j | 0 <= i < j < |vals| :: vals[i].pubKey.address != vals[j].pubKey.address)
  }

  /** The vote that survives the trip: the canonical one, unless it is for another block. */
  function Kept(s: VoteSet, i: nat): Option<Vote>
    requires s.maj23.Some? && i < |s.votes|
  {
    if s.votes[i].Some? && (s.votes[i].value.blockID == s.maj23.value || s.votes[i].value.blockID.IsZero())
    then s.votes[i] else None
  }

  lemma KeptEntry(s: VoteSet, scheme: set<SigFact>, reply: Reply, i: nat)
    requires Valid(s) && AllSigned(s, scheme) && MakeReply(s) == Some(reply) && GoodAddresses(s.vals)
    requires i < |s.votes|
    ensures Kept(s, i).None? <==> reply.signatures[i].flag == FlagAbsent
    ensures Kept(s, i).Some? ==>
              && GetVote(reply, i, reply.signatures[i].address) == Kept(s, i).value
              && Signed(scheme, s, Kept(s, i).value) && Kept(s, i).value.address != []
  {
    if Kept(s, i).Some? {
      var v := s.votes[i].value;
      EntryVote(s, reply, i);
      assert Signed(scheme, s, v);
      forall j: nat | j < i ensures reply.signatures[j].address != v.address {
        if reply.signatures[j].flag != FlagAbsent {
          EntryVote(s, reply, j);
          assert Signed(scheme, s, s.votes[j].value);
        }
      }
      assert FindSig(reply.signatures, v.address, 0) == i;
    }
  }

  /** Every tracked vote is the canonical vote of its voter. */
  ghost predicate TrackedCanonical(u: VoteSet) {
    forall b | b in u.byBlock :: TallyCanonical(u, u.byBlock[b])
  }

  ghost predicate TallyCanonical(u: VoteSet, bv: BlockVotes) {
    |bv.votes| == |u.votes| && forall i | 0 <= i < |bv.votes| && bv.votes[i].Some? :: bv.votes[i] == u.votes[i]
  }

  lemma CountCanonical(u: VoteSet, v: Vote, bv: BlockVotes)
    requires Shaped(u) && 0 <= v.index < |u.vals| && |bv.votes| == |u.vals|
    requires TrackedCanonical(u) && TallyCanonical(u, bv) && u.votes[v.index] == Some(v)
    ensures CountForBlock(u, v, bv).votes == u.votes && TrackedCanonical(CountForBlock(u, v, bv))
  {
    var bv' := Track(bv, v, u.vals[v.index].power);
    assert Overlay(u.votes, bv'.votes) == u.votes;
    var t := CountForBlock(u, v, bv);
    forall b | b in t.byBlock ensures TallyCanonical(t, t.byBlock[b]) {
      assert b != v.blockID ==> TallyCanonical(u, u.byBlock[b]);
    }
  }

  /** A first vote is added, is canonical, and disturbs no other vote. */
  lemma FirstVote(u: VoteSet, scheme: set<SigFact>, v: Vote)
    requires Valid(u) && Shaped(u) && TrackedCanonical(u)
    requires GoodCast(u, scheme, Cast(v)) && u.votes[v.index].None?
    ensures var r := AddVote(u, scheme, v);
            r.added && r.err == NoError && r.state.votes == u.votes[v.index := Some(v)] && TrackedCanonical(r.state)
  {
    if v.blockID in u.byBlock { assert TallyOk(u, v.blockID); }
    var s1 := Record(u, v);
    var bv := if v.blockID in u.byBlock then u.byBlock[v.blockID] else NewBlockVotes(false, |u.vals|);
    forall b | b in s1.byBlock ensures TallyCanonical(s1, s1.byBlock[b]) {
      assert TallyCanonical(u, u.byBlock[b]) && TallyOk(u, b);
    }
    assert TallyCanonical(s1, bv);
    CountCanonical(s1, v, bv);
  }

  /** After the first `n` entries, the rebuilt set holds exactly the kept votes below `n`. */
  ghost predicate HoldsKept(s: VoteSet, u: VoteSet, n: nat)
    requires s.maj23.Some? && n <= |s.votes|
  {
    |u.votes| == |s.votes| && forall i: nat | i < |s.votes| :: u.votes[i] == if i < n then Kept(s, i) else None
  }

  lemma {:induction false} RebuildPrefix(s: VoteSet, scheme: set<SigFact>, reply: Reply, n: nat)
    requires Valid(s) && AllSigned(s, scheme) && MakeReply(s) == Some(reply) && GoodAddresses(s.vals)
    requires n <= |s.votes|
    ensures AllAdded(scheme, s.chainID, reply, s.vals, n)
    ensures var u := Rebuilt(scheme, s.chainID, reply, s.vals, n); HoldsKept(s, u, n) && TrackedCanonical(u)
  {
    hide AddVote, TallyOk, CanonicalOk, MajorityOk, AllSigned, MakeReply, GoodAddresses;
    SameLength(s, reply);
    if n > 0 {
      RebuildPrefix(s, scheme, reply, n - 1);
      RebuildStep(s, scheme, reply, n - 1);
    }
  }

  lemma RebuildStep(s: VoteSet, scheme: set<SigFact>, reply: Reply, n: nat)
    requires Valid(s) && AllSigned(s, scheme) && MakeReply(s) == Some(reply) && GoodAddresses(s.vals)
    requires n < |s.votes| && AllAdded(scheme, s.chainID, reply, s.vals, n)
    requires var u := Rebuilt(scheme, s.chainID, reply, s.vals, n); HoldsKept(s, u, n) && TrackedCanonical(u)
    ensures AllAdded(scheme, s.chainID, reply, s.vals, n + 1)
    ensures var u := Rebuilt(scheme, s.chainID, reply, s.vals, n + 1); HoldsKept(s, u, n + 1) && TrackedCanonical(u)
  {
    hide AddVote, TallyOk, CanonicalOk, MajorityOk, AllSigned, MakeReply, GoodAddresses;
    SameLength(s, reply);
    KeptEntry(s, scheme, reply, n);
    RebuiltNext(scheme, s.chainID, reply, s.vals, n);
    var u := Rebuilt(scheme, s.chainID, reply, s.vals, n);
    if Kept(s, n).Some? {
      var v := Kept(s, n).value;
      assert SameSlot(NewVoteSet(s.chainID, reply.height, reply.round, Commit, s.vals), u);
      FirstVote(u, scheme, v);
    }
  }

  lemma SameLength(s: VoteSet, reply: Reply)
    requires MakeReply(s) == Some(reply)
    ensures |reply.signatures| == |s.votes| && s.maj23.Some?
  {
  }

  lemma KeptAtIndex(s: VoteSet, i: nat)
    requires Valid(s) && s.maj23.Some? && i < |s.votes|
    ensures Kept(s, i).Some? ==> Kept(s, i).value.index == i
  {
  }

  lemma {:induction false} InputsAre(s: VoteSet, scheme: set<SigFact>, reply: Reply, n: nat)
    requires Valid(s) && AllSigned(s, scheme) && MakeReply(s) == Some(reply) && GoodAddresses(s.vals)
    requires n <= |s.votes|
    ensures forall i: nat | i < n && Kept(s, i).Some? :: Cast(Kept(s, i).value) in Inputs(reply, n)
    ensures forall k: nat | k < |Inputs(reply, n)| ::
              && Inputs(reply, n)[k].Cast? && 0 <= Inputs(reply, n)[k].vote.index < n
              && Kept(s, Inputs(reply, n)[k].vote.index) == Some(Inputs(reply, n)[k].vote)
  {
    hide Valid, AllSigned, MakeReply, GoodAddresses, Kept, GetVote, Signed;
    SameLength(s, reply);
    if n > 0 {
      InputsAre(s, scheme, reply, n - 1);
      KeptEntry(s, scheme, reply, n - 1);
      KeptAtIndex(s, n - 1);
    }
  }

  /** `ReplyToVoteSet` is the inverse of `MakeReply` it claims to be: on a certificate made from a commit
      majority it adds every entry, finds the same majority, and holds the original votes minus those for
      other blocks. */
  lemma ReplyRoundTrip(s: VoteSet, scheme: set<SigFact>)
    requires Valid(s) && AllSigned(s, scheme) && MakeReply(s).Some? && GoodAddresses(s.vals)
    requires Total(s.vals) <= TOTAL_VOTING_POWER
    ensures var reply := MakeReply(s).value;
            var t := Rebuilt(scheme, s.chainID, reply, s.vals, |reply.signatures|);
            && AllAdded(scheme, s.chainID, reply, s.vals, |reply.signatures|)
            && t.maj23 == s.maj23
            && |t.votes| == |s.votes| && forall i: nat | i < |s.votes| :: t.votes[i] == Kept(s, i)
  {
    var reply := MakeReply(s).value;
    RebuildPrefix(s, scheme, reply, |reply.signatures|);
    RebuiltMajority(s, scheme);
  }

  /** A voter for the majority has its vote kept. */
  lemma BackerCasts(s: VoteSet, scheme: set<SigFact>, reply: Reply, i: nat)
    requires Valid(s) && AllSigned(s, scheme) && MakeReply(s) == Some(reply) && GoodAddresses(s.vals)
    requires i < |s.vals| && s.maj23.value in s.byBlock && i in s.byBlock[s.maj23.value].bits
    ensures Kept(s, i).Some? && Kept(s, i).value.blockID == s.maj23.value && Kept(s, i).value.index == i
    ensures Signed(scheme, s, Kept(s, i).value) && Kept(s, i).value.address != [] && Fits(s, Kept(s, i).value)
  {
    assert TallyOk(s, s.maj23.value) && s.votes[i] == s.byBlock[s.maj23.value].votes[i];
    KeptEntry(s, scheme, reply, i);
  }

  lemma RebuiltMajority(s: VoteSet, scheme: set<SigFact>)
    requires Valid(s) && AllSigned(s, scheme) && MakeReply(s).Some? && GoodAddresses(s.vals)
    requires Total(s.vals) <= TOTAL_VOTING_POWER
    ensures var reply := MakeReply(s).value;
            Rebuilt(scheme, s.chainID, reply, s.vals, |reply.signatures|).maj23 == s.maj23
  {
    hide Run, AddVote;
    var reply := MakeReply(s).value;
    var n, b := |reply.signatures|, s.maj23.value;
    InputsAre(s, scheme, reply, n);
    var empty := NewVoteSet(s.chainID, s.height, s.round, Commit, s.vals);
    var inputs := Inputs(reply, n);
    MajorityIsTally(empty, scheme, inputs, b);
    assert TallyOk(s, b);
    forall i | 0 <= i < |s.vals| && i in s.byBlock[b].bits ensures i in Casters(empty, scheme, inputs, b) {
      BackerCasts(s, scheme, reply, i);
      var k :| 0 <= k < |inputs| && inputs[k] == Cast(Kept(s, i).value);
      assert GoodCast(empty, scheme, inputs[k]);
    }
    WeightMonotone(s.vals, s.byBlock[b].bits, Casters(empty, scheme, inputs, b));
  }
}
