/** `types/vote.go` as it runs: the vote set is one object whose fields its methods update in place. */
module VoteSetObjects {
  import opened Types
  import opened Power
  import opened VoteSets
  import Certificates

  class VoteSetObject {
    const chainID: string
    const height: int
    const round: int
    const kind: VoteType
    const vals: seq<Validator>
    const votes: array<Option<Vote>>
    var bits: set<int>
    var sum: real
    var maj23: Option<BlockID>
    var byBlock: map<BlockID, BlockVotes>
    var peerMaj23s: map<Peer, BlockID>

    ghost function View(): VoteSet
      reads this, votes
    {
      VoteSet(chainID, height, round, kind, vals, bits, votes[..], sum, maj23, byBlock, peerMaj23s)
    }

    /** `NewVoteSet`; it panics at height 0. */
    constructor (chainID: string, height: int, round: int, kind: VoteType, vals: seq<Validator>)
      requires NonNegative(vals) && height != 0
      ensures fresh(votes)
      ensures View() == NewVoteSet(chainID, height, round, kind, vals) && Valid(View())
    {
      this.chainID, this.height, this.round, this.kind, this.vals := chainID, height, round, kind, vals;
      votes := new Option<Vote>[|vals|](_ => None);
      bits, sum, maj23, byBlock, peerMaj23s := {}, 0.0, None, map[], map[];
      new;
      assert votes[..] == Blank(|vals|);
      NewVoteSetValid(chainID, height, round, kind, vals);
    }

    /** `getVote`. */
    method FindVote(index: int, b: BlockID) returns (r: Option<Vote>)
      requires Valid(View()) && Shaped(View()) && 0 <= index < |vals|
      ensures r == GetVote(View(), index, b)
      ensures r.Some? ==> r.value.blockID == b && r.value.index == index
    {
      if votes[index].Some? && votes[index].value.blockID == b { return votes[index]; }
      if b in byBlock {
        assert TallyOk(View(), b);
        return byBlock[b].votes[index];
      }
      return None;
    }

    /** `VoteSet.addVote`; on a valid vote set neither of its panics is reached. */
    method Add(scheme: set<SigFact>, v: Vote) returns (added: bool, err: VoteError)
      requires Valid(View())
      modifies this, votes
      ensures Shaped(old(View())) && AddResult(View(), added, err) == AddVote(old(View()), scheme, v)
      ensures Valid(View()) && Grows(old(View()), View())
    {
      AddVoteKeeps(View(), scheme, v);
      if v.index < 0 { return false, InvalidIndex; }
      if v.address == [] { return false, InvalidAddress; }
      if v.height != height || v.round != round || v.kind != kind { return false, UnexpectedStep; }
      if v.index >= |vals| { return false, InvalidIndex; }
      var existing := FindVote(v.index, v.blockID);
      if existing.Some? {
        if existing.value.signature == v.signature { return false, NoError; }
        return false, NonDeterministicSignature;
      }
      if vals[v.index].pubKey.address != v.address { return false, InvalidAddress; }
      if !Verify(scheme, vals[v.index].pubKey, v.SignBytes(chainID), v.signature) { return false, InvalidSignature; }
      var conflict;
      added, conflict := AddVerifiedVote(v);
      if conflict.Some? { return added, Conflicting(conflict.value); }
      if !added { assert false; }
      return added, NoError;
    }

    /** `addVerifiedVote`. */
    method AddVerifiedVote(v: Vote) returns (added: bool, conflict: Option<Vote>)
      requires Valid(View()) && Shaped(View()) && 0 <= v.index < |vals| && Fits(View(), v)
      requires GetVote(View(), v.index, v.blockID).None?
      modifies this, votes
      ensures View() == AddVerified(old(View()), v).state && added == AddVerified(old(View()), v).added
      ensures AddVerified(old(View()), v).err == if conflict.Some? then Conflicting(conflict.value) else NoError
      ensures Valid(View()) && Grows(old(View()), View())
      ensures added || conflict.Some?
    {
      AddVerifiedKeeps(View(), v);
      ghost var s := View();
      ghost var s1 := Record(s, v);
      hide Valid, Grows, AddVerified;
      conflict := RecordVote(v);
      assert View() == s1;
      var tracked: BlockVotes;
      if v.blockID in byBlock {
        tracked := byBlock[v.blockID];
        if conflict.Some? && !tracked.peerMaj23 {
          NotTracked(s, v);
          return false, conflict;
        }
      } else {
        if conflict.Some? {
          NotTracked(s, v);
          return false, conflict;
        }
        tracked := NewBlockVotes(false, |vals|);
      }
      Counted(s, v, tracked);
      CountVote(v, tracked);
      added := true;
    }

    /** The first half of `addVerifiedVote`: the canonical vote and the overall sum. */
    method RecordVote(v: Vote) returns (conflict: Option<Vote>)
      requires Shaped(View()) && 0 <= v.index < |vals|
      requires GetVote(View(), v.index, v.blockID).None?
      modifies this`bits, this`sum, votes
      ensures View() == Record(old(View()), v) && conflict == old(votes[v.index])
    {
      conflict := None;
      var existing := votes[v.index];
      if existing.Some? {
        conflict := existing;
        if maj23.Some? && maj23.value == v.blockID {
          votes[v.index] := Some(v);
          bits := bits + {v.index};
        }
      } else {
        votes[v.index] := Some(v);
        bits := bits + {v.index};
        sum := sum + vals[v.index].power;
      }
    }

    /** The second half: the tally of the vote's block, and the copying of its votes when it wins. */
    method CountVote(v: Vote, tracked: BlockVotes)
      requires Shaped(View()) && 0 <= v.index < |vals| && |tracked.votes| == |vals|
      modifies this`byBlock, this`maj23, votes
      ensures View() == CountForBlock(old(View()), v, tracked)
    {
      var origSum := tracked.sum;
      var counted := tracked;
      if tracked.votes[v.index].None? {
        counted := BlockVotes(tracked.peerMaj23, tracked.bits + {v.index}, tracked.votes[v.index := Some(v)],
                              tracked.sum + vals[v.index].power);
      }
      byBlock := byBlock[v.blockID := counted];
      if origSum < QUORUM && QUORUM <= counted.sum && maj23.None? {
        maj23 := Some(v.blockID);
        CopyVotes(counted.votes);
      }
    }

    /** Copy the winner's votes over the canonical ones. */
    method CopyVotes(from: seq<Option<Vote>>)
      requires votes.Length == |from|
      modifies votes
      ensures votes[..] == Overlay(old(votes[..]), from)
    {
      var i := 0;
      while i < votes.Length
        invariant 0 <= i <= votes.Length
        invariant forall j | 0 <= j < i :: votes[j] == if from[j].Some? then from[j] else old(votes[j])
        invariant forall j | i <= j < votes.Length :: votes[j] == old(votes[j])
      {
        if from[i].Some? { votes[i] := from[i]; }
        i := i + 1;
      }
    }

    /** `SetPeerMaj23`. */
    method ClaimMaj23(peer: Peer, b: BlockID) returns (ok: bool)
      requires Valid(View())
      modifies this`byBlock, this`peerMaj23s
      ensures (View(), ok) == SetPeerMaj23(old(View()), peer, b)
      ensures Valid(View()) && Grows(old(View()), View()) && maj23 == old(maj23)
      ensures peer !in old(peerMaj23s) ==> ok && b in byBlock && byBlock[b].peerMaj23 && peerMaj23s == old(peerMaj23s)[peer := b]
      ensures peer in old(peerMaj23s) ==> byBlock == old(byBlock) && (ok <==> old(peerMaj23s)[peer] == b)
    {
      SetPeerMaj23Keeps(View(), peer, b, {});
      if peer in peerMaj23s { return peerMaj23s[peer] == b; }
      peerMaj23s := peerMaj23s[peer := b];
      if b in byBlock {
        if byBlock[b].peerMaj23 {
          assert byBlock == byBlock[b := byBlock[b].(peerMaj23 := true)];
          return true;
        }
        byBlock := byBlock[b := byBlock[b].(peerMaj23 := true)];
      } else {
        byBlock := byBlock[b := NewBlockVotes(true, |vals|)];
      }
      return true;
    }

    /** `TwoThirdsMajority`: the answer, if any, is a block whose distinct voters weigh a quorum. */
    method TwoThirdsMajority() returns (b: BlockID, ok: bool)
      requires Valid(View())
      ensures ok <==> maj23.Some?
      ensures ok ==> b == maj23.value && b in byBlock && Weight(vals, Voted(byBlock[b].votes)) >= QUORUM
      ensures !ok ==> b == NIL_BLOCK && forall c | c in byBlock :: Weight(vals, Voted(byBlock[c].votes)) < QUORUM
    {
      forall c | c in byBlock ensures byBlock[c].sum == Weight(vals, Voted(byBlock[c].votes)) {
        assert TallyOk(View(), c);
      }
      if maj23.Some? { return maj23.value, true; }
      return NIL_BLOCK, false;
    }

    /** `MakeReply`; `None` stands for its panics: not a commit set, no majority, or a malformed vote. */
    method MakeReply() returns (r: Option<Certificates.Reply>)
      requires Valid(View())
      ensures r == Certificates.MakeReply(View())
    {
      hide Valid;
      if kind != Commit || maj23.None? { return None; }
      var sigs := [];
      var i := 0;
      assert votes[..] == View().votes;
      while i < votes.Length
        invariant 0 <= i <= votes.Length && |sigs| == i
        invariant forall j | 0 <= j < i && votes[j].Some? :: Certificates.WellFormed(votes[j].value.blockID)
        invariant forall j | 0 <= j < i :: sigs[j] == Certificates.Entry(votes[j], maj23.value)
      {
        if votes[i].Some? && !Certificates.WellFormed(votes[i].value.blockID) {
          assert !Certificates.VotesWellFormed(View());
          return None;
        }
        var sig := Certificates.SigOf(votes[i]);
        if sig.flag == Certificates.FlagCommit && votes[i].value.blockID != maj23.value { sig := Certificates.ABSENT; }
        sigs := sigs + [sig];
        i := i + 1;
      }
      EntriesMakeReply(View(), sigs);
      r := Some(Certificates.Reply(height, round, maj23.value, sigs));
    }
  }

  lemma EntriesMakeReply(s: VoteSet, sigs: seq<Certificates.ReplySig>)
    requires s.kind == Commit && s.maj23.Some? && Certificates.VotesWellFormed(s) && |sigs| == |s.votes|
    requires forall j | 0 <= j < |sigs| :: sigs[j] == Certificates.Entry(s.votes[j], s.maj23.value)
    ensures Certificates.MakeReply(s) == Some(Certificates.Reply(s.height, s.round, s.maj23.value, sigs))
  {
    assert sigs == Certificates.MakeReply(s).value.signatures;
  }
}
