/** When replaying the log does not restore a node: peers' claims are not logged, and a majority that needed one is
    not found again. */
module Claims {
  import opened Types
  import opened Power
  import VS = VoteSets
  import HV = HeightVoteSets
  import opened RoundStates
  import opened Agreement
  import opened Quorums
  import opened Network
  import opened Replays
  import opened Resilience

  function LoggedOnly(entries: seq<Entry>): seq<Entry> {
    if entries == [] then []
    else
      var n := |entries| - 1;
      LoggedOnly(entries[..n]) + (if Logged(entries[n].event) then [entries[n]] else [])
  }

  /** Whatever a node has handled since it started, handling what it logged of that again leads to the same state. */
  ghost predicate ReplayRestores(unlogged: bool) {
    forall s, entries: seq<Entry>, again
         | (unlogged || LoggedOnly(entries) == entries) && Again(LoggedOnly(entries), again) ::
      Twin(After(s, entries), After(s, again))
  }

  // ---------------------------------------------------------------- a majority that rests on a claim

  /** Validator `i` voted for `x.b`; validator `z` voted for `c` first. */
  ghost function Split(x: Ballot, c: BlockID, i: int, z: int, claimed: bool): VS.VoteSet
    requires 0 <= i < |x.Vals()| && 0 <= z < |x.Vals()|
  {
    var y := x.(b := c);
    VS.VoteSet(x.w.chainID, x.height, 0, Prepare, x.Vals(), {i} + {z},
               x.Slots(Prepare, {i})[z := Some(y.VoteBy(Prepare, z))], x.Vals()[i].power + x.Vals()[z].power, None,
               map[x.b := VS.BlockVotes(claimed, {i}, x.Slots(Prepare, {i}), x.Vals()[i].power),
                   c := VS.BlockVotes(false, {z}, y.Slots(Prepare, {z}), x.Vals()[z].power)],
               if claimed then map["peer" := x.b] else map[])
  }

  /** The same before `z` voted. */
  ghost function One(x: Ballot, i: int, claimed: bool): VS.VoteSet
    requires 0 <= i < |x.Vals()|
  {
    VS.VoteSet(x.w.chainID, x.height, 0, Prepare, x.Vals(), {i}, x.Slots(Prepare, {i}), x.Vals()[i].power, None,
               map[x.b := VS.BlockVotes(claimed, {i}, x.Slots(Prepare, {i}), x.Vals()[i].power)],
               if claimed then map["peer" := x.b] else map[])
  }

  ghost predicate Setting(x: Ballot, c: BlockID, i: int, z: int, scheme: set<SigFact>) {
    && x.Ok() && 0 <= i < |x.Vals()| && 0 <= z < |x.Vals()| && i != z && c != x.b
    && x.Vals()[i].power < QUORUM && x.Vals()[z].power < QUORUM && x.Vals()[i].power + x.Vals()[z].power >= QUORUM
    && x.Fact(Prepare, i) in scheme && x.Fact(Prepare, z) in scheme && x.(b := c).Fact(Prepare, z) in scheme
  }

  lemma OneVote(x: Ballot, i: int)
    requires x.Ok() && 0 <= i < |x.Vals()| && x.Vals()[i].power < QUORUM
    ensures x.Tally(Prepare, {i}) == One(x, i, false)
    ensures VS.SetPeerMaj23(One(x, i, false), "peer", x.b).0 == One(x, i, true)
  {
    WeightEmpty(x.Vals());
    WeightAdd(x.Vals(), {}, i);
    assert {} + {i} == {i};
    var none: map<VS.Peer, BlockID> := map[];
    assert none["peer" := x.b] == map["peer" := x.b];
    var bv := VS.BlockVotes(false, {i}, x.Slots(Prepare, {i}), x.Vals()[i].power);
    assert map[x.b := bv][x.b := bv.(peerMaj23 := true)] == map[x.b := bv.(peerMaj23 := true)];
  }

  lemma OtherVote(x: Ballot, c: BlockID, i: int, z: int, claimed: bool, scheme: set<SigFact>)
    requires Setting(x, c, i, z, scheme)
    ensures VS.Shaped(One(x, i, claimed))
    ensures var r := VS.AddVote(One(x, i, claimed), scheme, x.(b := c).VoteBy(Prepare, z));
            r.added && r.state == Split(x, c, i, z, claimed)
  {
    var (s, y, n) := (One(x, i, claimed), x.(b := c), |x.Vals()|);
    var v := y.VoteBy(Prepare, z);
    var bv := VS.NewBlockVotes(false, n);
    var (s1, t) := (VS.Record(s, v), VS.Track(bv, v, x.Vals()[z].power));
    assert bv.votes[z := Some(v)] == y.Slots(Prepare, {z});
    assert t == VS.BlockVotes(false, {z}, y.Slots(Prepare, {z}), x.Vals()[z].power);
    assert s1.byBlock[c := t] == Split(x, c, i, z, claimed).byBlock;
    assert VS.CountForBlock(s1, v, bv) == Split(x, c, i, z, claimed);
  }

  /** The second vote of `z`, for the block that `i` prepared, counts exactly if a peer claimed that block. */
  lemma SecondVote(x: Ballot, c: BlockID, i: int, z: int, claimed: bool, scheme: set<SigFact>)
    requires Setting(x, c, i, z, scheme)
    ensures VS.Shaped(Split(x, c, i, z, claimed))
    ensures var r := VS.AddVote(Split(x, c, i, z, claimed), scheme, x.VoteBy(Prepare, z));
            && r.added == claimed
            && (!claimed ==> r.state == Split(x, c, i, z, claimed))
            && (claimed ==> r.state.maj23 == Some(x.b))
  {
    var (s, v) := (Split(x, c, i, z, claimed), x.VoteBy(Prepare, z));
    assert s.votes[z] == Some(x.(b := c).VoteBy(Prepare, z));
    assert s.byBlock[x.b].votes[z] == None;
  }

  // ---------------------------------------------------------------- the lock that rests on it

  ghost function Prepares(x: Ballot, prepares: VS.VoteSet): HV.HeightVotes {
    HV.HeightVotes(x.w.chainID, x.height, x.Vals(), 0, map[0 := HV.RoundVotes(prepares, x.Tally(Commit, {}))], map[])
  }

  /** Node `i` has its block, has signed its prepare and holds these prepares, without a majority. */
  ghost predicate Waiting(x: Ballot, s: RoundState, i: int, prepares: VS.VoteSet)
    requires 0 <= i < |x.Vals()|
  {
    && s == x.Ready(i).(votes := Prepares(x, prepares), step := s.step, scheduled := s.scheduled)
    && PREPARE <= s.step <= PREPARE_WAIT && prepares.maj23 == None
  }

  lemma WaitsOn(x: Ballot, i: int, prepares: VS.VoteSet, s: RoundState, log: seq<SigFact>)
    requires x.Ok() && 0 <= i < |x.Vals()| && Waiting(x, s, i, prepares)
    ensures Waiting(x, OnPrepare(s, Calm(x.w, x.height, log), x.height, 0), i, prepares)
  {
    hide Weight, PolRound, HasTwoThirdsAny, Ballot.Tally;
  }

  lemma LocksNow(x: Ballot, i: int, prepares: VS.VoteSet, s: RoundState, log: seq<SigFact>)
    requires x.Ok() && 0 <= i < |x.Vals()| && prepares.maj23 == Some(x.b)
    requires s == x.Ready(i).(votes := Prepares(x, prepares), step := s.step, scheduled := s.scheduled)
    requires PREPARE <= s.step <= PREPARE_WAIT
    ensures var t := OnPrepare(s, Calm(x.w, x.height, log), x.height, 0);
            && t.lockedBlock == Some(Block(x.b.hash)) && |t.attempts| == 2
            && t.attempts[1].ok && t.attempts[1].vote == x.VoteBy(Commit, i)
  {
    hide Weight, FindAddress, HasTwoThirdsAny, Ballot.Tally;
    FindSelf(x, i);
    var env := Calm(x.w, x.height, log);
    var whole := Some(Block(x.b.hash));
    var s1 := s.(validRound := 0, validBlock := whole, validParts := x.Whole());
    assert HV.Polka(s.votes, 0) == Some(x.b) && PolRound(s.votes, 0) == 0;
    assert OnPolka(s, 0, x.b) == s1;
    var s2 := s1.(lockedRound := 0, lockedBlock := whole, lockedParts := x.Whole());
    assert CommitChoice(s1, env, 0) == (s2, x.b);
  }

  /** A prepare that leaves the majority open. */
  lemma VoteWaits(x: Ballot, i: int, a: VS.VoteSet, b: VS.VoteSet, v: Vote, s: RoundState, log: seq<SigFact>)
    requires x.Ok() && 0 <= i < |x.Vals()| && Waiting(x, s, i, a) && VS.Shaped(a) && b.maj23 == None
    requires v.kind == Prepare && v.round == 0 && v.height == x.height && VS.AddVote(a, FactsOf(log), v).state == b
    requires VS.AddVote(a, FactsOf(log), v).added || b == a
    ensures Shaped(s) && Waiting(x, Handle(s, Calm(x.w, x.height, log), VoteMsg(v, "")), i, b)
  {
    hide Weight, OnPrepare, VS.AddVote, Ballot.Tally, VS.Shaped;
    PreparesShaped(x, a);
    var votes := Prepares(x, a);
    assert votes.sets[0 := HV.RoundVotes(b, x.Tally(Commit, {}))] == Prepares(x, b).sets;
    assert HV.AddVote(votes, FactsOf(log), v, "").0 == Prepares(x, b);
    WaitsOn(x, i, b, s.(votes := Prepares(x, b)), log);
  }

  lemma PreparesShaped(x: Ballot, a: VS.VoteSet)
    requires VS.Shaped(a)
    ensures HV.AllShaped(Prepares(x, a)) && VS.Shaped(x.Tally(Commit, {}))
  {
  }

  lemma VoteLocks(x: Ballot, i: int, a: VS.VoteSet, v: Vote, s: RoundState, log: seq<SigFact>)
    requires x.Ok() && 0 <= i < |x.Vals()| && Waiting(x, s, i, a) && VS.Shaped(a)
    requires v.kind == Prepare && v.round == 0 && v.height == x.height
    requires VS.AddVote(a, FactsOf(log), v).added && VS.AddVote(a, FactsOf(log), v).state.maj23 == Some(x.b)
    ensures Shaped(s)
    ensures var t := Handle(s, Calm(x.w, x.height, log), VoteMsg(v, ""));
            && t.lockedBlock == Some(Block(x.b.hash)) && |t.attempts| == 2
            && t.attempts[1].ok && t.attempts[1].vote == x.VoteBy(Commit, i)
  {
    hide Weight, OnPrepare, VS.AddVote, Ballot.Tally, VS.Shaped;
    PreparesShaped(x, a);
    var (votes, b) := (Prepares(x, a), VS.AddVote(a, FactsOf(log), v).state);
    assert votes.sets[0 := HV.RoundVotes(b, x.Tally(Commit, {}))] == Prepares(x, b).sets;
    assert HV.AddVote(votes, FactsOf(log), v, "").0 == Prepares(x, b);
    LocksNow(x, i, b, s.(votes := Prepares(x, b)), log);
  }

  lemma ClaimHandled(x: Ballot, i: int, s: RoundState, log: seq<SigFact>)
    requires x.Ok() && 0 <= i < |x.Vals()| && x.Vals()[i].power < QUORUM && Waiting(x, s, i, One(x, i, false))
    ensures Shaped(s)
    ensures Waiting(x, Handle(s, Calm(x.w, x.height, log), PeerMaj23(0, Prepare, "peer", x.b)), i, One(x, i, true))
  {
    hide Weight, VS.SetPeerMaj23, Ballot.Tally;
    PreparesShaped(x, One(x, i, false));
    OneVote(x, i);
    var votes := Prepares(x, One(x, i, false));
    assert votes.sets[0 := HV.RoundVotes(One(x, i, true), x.Tally(Commit, {}))] == Prepares(x, One(x, i, true)).sets;
  }

  // ---------------------------------------------------------------- the whole history

  ghost function Step(x: Ballot, log: seq<SigFact>, event: Event): Entry { Entry(Calm(x.w, x.height, log), event) }

  /** Proposal, block and the node's own prepare. */
  ghost function Opening(x: Ballot, i: int, log: seq<SigFact>): seq<Entry>
    requires 0 <= i < |x.Vals()|
  {
    [Step(x, log, PrePrepareMsg(x.Proposal(), true))]
    + [Step(x, log, BlockPartMsg(x.height, Completed(false, Some(Block(x.b.hash)))))]
    + [Step(x, log, VoteMsg(x.VoteBy(Prepare, i), ""))]
  }

  ghost function Claim(x: Ballot, log: seq<SigFact>): seq<Entry> { [Step(x, log, PeerMaj23(0, Prepare, "peer", x.b))] }

  /** Both votes of `z`. */
  ghost function Equivocation(x: Ballot, c: BlockID, z: int, log: seq<SigFact>): seq<Entry>
    requires 0 <= z < |x.Vals()|
  {
    [Step(x, log, VoteMsg(x.(b := c).VoteBy(Prepare, z), ""))] + [Step(x, log, VoteMsg(x.VoteBy(Prepare, z), ""))]
  }

  lemma Opened(x: Ballot, i: int, log: seq<SigFact>)
    requires x.Ok() && 0 <= i < |x.Vals()| && x.Vals()[i].power < QUORUM && x.Fact(Prepare, i) in FactsOf(log)
    ensures Waiting(x, After(x.Start(i), Opening(x, i, log)), i, One(x, i, false))
  {
    hide Handle, Ballot.Start, Ballot.Ready, Ballot.Proposed, Shaped, Calm, Weight, Ballot.Locked, Ballot.Collecting;
    var env := Calm(x.w, x.height, log);
    var a := [Step(x, log, PrePrepareMsg(x.Proposal(), true))];
    var b := a + [Step(x, log, BlockPartMsg(x.height, Completed(false, Some(Block(x.b.hash)))))];
    ProposalArrives(x, i, env);
    AfterOne(x.Start(i), [], a[0]);
    assert [] + [a[0]] == a;
    BlockArrives(x, i, log);
    AfterOne(x.Start(i), a, b[1]);
    ReadyCollects(x, i);
    OnePrepare(x, i, {}, i, x.Ready(i), log);
    AfterOne(x.Start(i), b, Step(x, log, VoteMsg(x.VoteBy(Prepare, i), "")));
    assert {} + {i} == {i};
    OneWeight(x, i);
    OneVote(x, i);
    CollectingWaits(x, After(x.Start(i), Opening(x, i, log)), i);
  }

  lemma OneWeight(x: Ballot, i: int)
    requires 0 <= i < |x.Vals()|
    ensures Weight(x.Vals(), {i}) == x.Vals()[i].power
  {
    WeightEmpty(x.Vals());
    WeightAdd(x.Vals(), {}, i);
    assert {} + {i} == {i};
  }

  lemma CollectingWaits(x: Ballot, s: RoundState, i: int)
    requires x.Ok() && 0 <= i < |x.Vals()| && x.Vals()[i].power < QUORUM && x.Collecting(s, i, {i})
    ensures Waiting(x, s, i, One(x, i, false))
  {
    hide Weight, Ballot.Tally;
    OneVote(x, i);
  }

  /** With the claim, the second vote of `z` makes the node lock and sign a commit. Without, it does not count. */
  lemma Equivocated(x: Ballot, c: BlockID, i: int, z: int, claimed: bool, log: seq<SigFact>, before: seq<Entry>)
    requires Setting(x, c, i, z, FactsOf(log)) && Waiting(x, After(x.Start(i), before), i, One(x, i, claimed))
    ensures var t := After(x.Start(i), before + Equivocation(x, c, z, log));
            if claimed
            then t.lockedBlock == Some(Block(x.b.hash)) && |t.attempts| == 2 && t.attempts[1].ok
                 && t.attempts[1].vote == x.VoteBy(Commit, i)
            else t.lockedBlock == None && |t.attempts| == 1
  {
    hide Handle, Ballot.Start, Shaped, Calm, Weight, VS.AddVote, VS.Shaped;
    var (s, e) := (x.Start(i), Equivocation(x, c, z, log));
    OtherVote(x, c, i, z, claimed, FactsOf(log));
    VoteWaits(x, i, One(x, i, claimed), Split(x, c, i, z, claimed), x.(b := c).VoteBy(Prepare, z), After(s, before), log);
    AfterOne(s, before, e[0]);
    SecondVote(x, c, i, z, claimed, FactsOf(log));
    var mid := before + [e[0]];
    if claimed {
      VoteLocks(x, i, Split(x, c, i, z, claimed), x.VoteBy(Prepare, z), After(s, mid), log);
    } else {
      VoteWaits(x, i, Split(x, c, i, z, claimed), Split(x, c, i, z, claimed), x.VoteBy(Prepare, z), After(s, mid), log);
    }
    AfterOne(s, mid, e[1]);
    assert mid + [e[1]] == before + e;
    if !claimed { WaitingUnlocked(x, After(s, before + e), i, Split(x, c, i, z, claimed)); }
  }

  lemma WaitingUnlocked(x: Ballot, s: RoundState, i: int, prepares: VS.VoteSet)
    requires 0 <= i < |x.Vals()| && Waiting(x, s, i, prepares)
    ensures s.lockedBlock == None && |s.attempts| == 1
  {
  }

  ghost function History(x: Ballot, c: BlockID, i: int, z: int, log: seq<SigFact>): seq<Entry>
    requires 0 <= i < |x.Vals()| && 0 <= z < |x.Vals()|
  {
    Opening(x, i, log) + Claim(x, log) + Equivocation(x, c, z, log)
  }

  /** A validator that signs for two blocks and a peer that claims one of them lead a correct node to lock that block
      and sign a commit for it. The claim is not logged: after the replay the node holds no lock and does not know
      that it has committed, so in the next round it is free to prepare another block. */
  lemma LockForgotten(x: Ballot, c: BlockID, i: int, z: int, log: seq<SigFact>)
    requires Setting(x, c, i, z, FactsOf(log))
    ensures var t := After(x.Start(i), History(x, c, i, z, log));
            && t.lockedBlock == Some(Block(x.b.hash)) && |t.attempts| == 2 && t.attempts[1].ok
            && t.attempts[1].vote == x.VoteBy(Commit, i)
    ensures var t := After(x.Start(i), LoggedOnly(History(x, c, i, z, log)));
            t.lockedBlock == None && |t.attempts| == 1
  {
    hide After, Setting, Waiting, Ballot.Start, Calm, One;
    SettingOpens(x, c, i, z, log);
    var (o, k) := (Opening(x, i, log), Claim(x, log));
    Opened(x, i, log);
    Equivocated(x, c, i, z, false, log, o);
    WithClaim(x, i, log, o);
    Equivocated(x, c, i, z, true, log, o + k);
    LoggedHistory(x, c, i, z, log);
  }

  lemma SettingOpens(x: Ballot, c: BlockID, i: int, z: int, log: seq<SigFact>)
    requires Setting(x, c, i, z, FactsOf(log))
    ensures x.Ok() && 0 <= i < |x.Vals()| && 0 <= z < |x.Vals()| && x.Vals()[i].power < QUORUM
    ensures x.Fact(Prepare, i) in FactsOf(log)
  {
  }

  lemma WithClaim(x: Ballot, i: int, log: seq<SigFact>, before: seq<Entry>)
    requires x.Ok() && 0 <= i < |x.Vals()| && x.Vals()[i].power < QUORUM
    requires Waiting(x, After(x.Start(i), before), i, One(x, i, false))
    ensures Waiting(x, After(x.Start(i), before + Claim(x, log)), i, One(x, i, true))
  {
    hide Handle, Waiting, Ballot.Start, Shaped, Calm, One;
    ClaimHandled(x, i, After(x.Start(i), before), log);
    AfterOne(x.Start(i), before, Claim(x, log)[0]);
  }

  lemma {:induction false} LoggedJoin(a: seq<Entry>, b: seq<Entry>)
    ensures LoggedOnly(a + b) == LoggedOnly(a) + LoggedOnly(b)
    decreases |b|
  {
    if b == [] { assert a + b == a; }
    else {
      var n := |b| - 1;
      assert (a + b)[..|a| + n] == a + b[..n];
      LoggedJoin(a, b[..n]);
    }
  }

  lemma LoggedOne(e: Entry)
    ensures LoggedOnly([e]) == if Logged(e.event) then [e] else []
  {
    assert [e][..0] == [];
    assert LoggedOnly([e][..0]) == [];
  }

  lemma LoggedHistory(x: Ballot, c: BlockID, i: int, z: int, log: seq<SigFact>)
    requires 0 <= i < |x.Vals()| && 0 <= z < |x.Vals()|
    ensures LoggedOnly(History(x, c, i, z, log)) == Opening(x, i, log) + Equivocation(x, c, z, log)
  {
    hide LoggedOnly, Calm;
    var (o, k, e) := (Opening(x, i, log), Claim(x, log), Equivocation(x, c, z, log));
    LoggedJoin(o + k, e);
    LoggedJoin(o, k);
    LoggedOne(k[0]);
    LoggedOne(e[0]);
    LoggedOne(e[1]);
    LoggedJoin([e[0]], [e[1]]);
    LoggedOne(o[0]);
    LoggedOne(o[1]);
    LoggedOne(o[2]);
    LoggedJoin([o[0]], [o[1]]);
    LoggedJoin([o[0]] + [o[1]], [o[2]]);
    assert o + [] == o;
  }

  /** Replaying the log restores every node from every history exactly when everything that is handled is logged. */
  lemma ReplayRestoresIff(unlogged: bool)
    ensures ReplayRestores(unlogged) <==> !unlogged
  {
    hide After, Twin, LoggedOnly;
    if unlogged {
      var x, c, log := Example();
      LockForgotten(x, c, 0, 1, log);
      var h := History(x, c, 0, 1, log);
      AgainSelf(LoggedOnly(h));
      TwinLock(After(x.Start(0), h), After(x.Start(0), LoggedOnly(h)));
    } else {
      forall s, entries: seq<Entry>, again | LoggedOnly(entries) == entries && Again(LoggedOnly(entries), again)
        ensures Twin(After(s, entries), After(s, again))
      {
        AfterTwin(s, entries, again);
      }
    }
  }

  lemma AgainSelf(entries: seq<Entry>)
    ensures Again(entries, entries)
  {
  }

  lemma TwinLock(s: RoundState, t: RoundState)
    ensures Twin(s, t) ==> s.lockedBlock == t.lockedBlock
  {
  }

  function KeyOf(x: byte): PubKey { PubKey(seq(20, _ => x), []) }

  function Two(): seq<Validator> {
    [Validator(KeyOf(1).address, KeyOf(1), 5.0), Validator(KeyOf(2).address, KeyOf(2), 5.0)]
  }

  /** Two validators of power 5. */
  lemma Example() returns (x: Ballot, c: BlockID, log: seq<SigFact>)
    ensures Setting(x, c, 0, 1, FactsOf(log))
  {
    x := Ballot(World("", _ => Two()), 1, Sample(1));
    c := Sample(2);
    assert KeyOf(1).address[0] != KeyOf(2).address[0] && Sample(1).hash[0] != Sample(2).hash[0];
    log := [x.Fact(Prepare, 0), x.Fact(Prepare, 1), x.(b := c).Fact(Prepare, 1)];
    assert log[0] in log && log[1] in log && log[2] in log;
  }
}
