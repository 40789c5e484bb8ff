/** `catchupReplay` in `consensus/replay.go`: a restarted node handles the logged messages and timeouts again. */
module Replays {
  import opened Types
  import opened Power
  import VS = VoteSets
  import HV = HeightVoteSets
  import opened RoundStates

  /** The same outside except for clock, signer and the contents of new blocks. */
  ghost predicate Alike(env: Env, env': Env) {
    env' == env.(voteTime := env'.voteTime, sign := env'.sign, signProposal := env'.signProposal, newBlock := env'.newBlock)
  }

  /** The same request to the signer, up to the time and the signature it came back with. */
  predicate SameRequest(a: Attempt, a': Attempt) {
    && a'.vote == a.vote.(time := a'.vote.time, signature := a'.vote.signature)
    && a'.enteredFor == a.enteredFor && a'.known == a.known
  }

  /** States that differ in their outputs only, and have asked their signers for the same votes. */
  ghost predicate Twin(s: RoundState, s': RoundState) {
    && s' == s.(attempts := s'.attempts, proposals := s'.proposals)
    && |s'.attempts| == |s.attempts|
    && forall k | 0 <= k < |s.attempts| :: SameRequest(s.attempts[k], s'.attempts[k])
  }

  // ---------------------------------------------------------------- clock and signer decide nothing

  lemma SignAddVoteTwin(s: RoundState, s': RoundState, env: Env, env': Env, kind: VoteType, b: BlockID, enteredFor: int)
    requires Twin(s, s') && Alike(env, env')
    ensures Twin(SignAddVote(s, env, kind, b, enteredFor), SignAddVote(s', env', kind, b, enteredFor))
  {
    hide FindAddress;
  }

  lemma EnterPrepareTwin(s: RoundState, s': RoundState, env: Env, env': Env, height: int, round: int)
    requires Twin(s, s') && Alike(env, env')
    ensures Twin(EnterPrepare(s, env, height, round), EnterPrepare(s', env', height, round))
  {
    hide SignAddVote;
    SignAddVoteTwin(s, s', env, env', Prepare, PrepareChoice(s, env), round);
  }

  lemma DecideTwin(s: RoundState, s': RoundState, env: Env, env': Env, round: int)
    requires Twin(s, s') && Alike(env, env')
    ensures Twin(DecidePrePrepare(s, env, round), DecidePrePrepare(s', env', round))
  {
    hide Header;
  }

  lemma EnterPrePrepareTwin(s: RoundState, s': RoundState, env: Env, env': Env, height: int, round: int)
    requires Twin(s, s') && Alike(env, env')
    ensures Twin(EnterPrePrepare(s, env, height, round), EnterPrePrepare(s', env', height, round))
  {
    hide DecidePrePrepare, EnterPrepare, HV.Polka, FindAddress;
    var s1, s1' := Schedule(s, round, PRE_PREPARE), Schedule(s', round, PRE_PREPARE);
    DecideTwin(s1, s1', env, env', round);
    var mine := s.key.Some? && FindAddress(s.vals, s.key.value.address) != -1 && env.primary;
    var s2 := (if mine then DecidePrePrepare(s1, env, round) else s1).(round := round, step := PRE_PREPARE);
    var s2' := (if mine then DecidePrePrepare(s1', env', round) else s1').(round := round, step := PRE_PREPARE);
    assert Twin(s2, s2');
    EnterPrepareTwin(s2, s2', env, env', height, s2.round);
  }

  lemma EnterNewRoundTwin(s: RoundState, s': RoundState, env: Env, env': Env, height: int, round: int)
    requires Twin(s, s') && Alike(env, env')
    ensures Twin(EnterNewRound(s, env, height, round), EnterNewRound(s', env', height, round))
  {
    hide EnterPrePrepare, HV.SetRound, HV.SetRoundPanics;
    var s1, s1' := StartRound(s, round), StartRound(s', round);
    assert Twin(s1, s1');
    EnterPrePrepareTwin(s1, s1', env, env', height, round);
  }

  lemma EnterPrepareWaitTwin(s: RoundState, s': RoundState, height: int, round: int)
    requires Twin(s, s')
    ensures Twin(EnterPrepareWait(s, height, round), EnterPrepareWait(s', height, round))
  {
  }

  lemma CommitChoiceTwin(s: RoundState, s': RoundState, env: Env, env': Env, round: int)
    requires Twin(s, s') && Alike(env, env')
    ensures Twin(CommitChoice(s, env, round).0, CommitChoice(s', env', round).0)
    ensures CommitChoice(s, env, round).1 == CommitChoice(s', env', round).1
  {
    hide Twin, HV.Polka, PolRound, EqualsTo, Unlock, LockBlock, FetchBlock, Halt;
    LockTwins(s, s', round);
    if HV.Polka(s.votes, round).Some? { FetchTwin(s, s', HV.Polka(s.votes, round).value); }
  }

  lemma LockTwins(s: RoundState, s': RoundState, round: int)
    requires Twin(s, s')
    ensures s'.votes == s.votes && s'.lockedBlock == s.lockedBlock && s'.block == s.block
    ensures Twin(Halt(s), Halt(s')) && Twin(Unlock(s), Unlock(s'))
    ensures Twin(s.(lockedRound := round), s'.(lockedRound := round)) && Twin(LockBlock(s, round), LockBlock(s', round))
  {
  }

  lemma FetchTwin(s: RoundState, s': RoundState, b: BlockID)
    requires Twin(s, s')
    ensures Twin(FetchBlock(s, b), FetchBlock(s', b))
  {
    hide HeaderEqualsTo, PartsFromHeader;
  }

  lemma EnterCommitTwin(s: RoundState, s': RoundState, env: Env, env': Env, height: int, round: int)
    requires Twin(s, s') && Alike(env, env')
    ensures Twin(EnterCommit(s, env, height, round), EnterCommit(s', env', height, round))
  {
    hide SignAddVote, CommitChoice;
    CommitChoiceTwin(s, s', env, env', round);
    SignAddVoteTwin(CommitChoice(s, env, round).0, CommitChoice(s', env', round).0, env, env', Commit,
                    CommitChoice(s, env, round).1, round);
  }

  lemma EnterCommitWaitTwin(s: RoundState, s': RoundState, height: int, round: int)
    requires Twin(s, s')
    ensures Twin(EnterCommitWait(s, height, round), EnterCommitWait(s', height, round))
  {
    hide HasTwoThirdsAny;
  }

  lemma ClearHeightTwin(s: RoundState, s': RoundState)
    requires Twin(s, s')
    ensures Twin(ClearHeight(s), ClearHeight(s'))
  {
  }

  lemma UpdateToStateTwin(s: RoundState, s': RoundState, env: Env, env': Env)
    requires Twin(s, s') && Alike(env, env')
    ensures Twin(UpdateToState(s, env), UpdateToState(s', env'))
  {
    hide HV.CommitMajority, HV.Get, HV.NewHeightVotes, ClearHeight;
    ClearHeightTwin(s, s');
  }

  lemma TryFinalizeTwin(s: RoundState, s': RoundState, env: Env, env': Env, height: int)
    requires Twin(s, s') && Alike(env, env')
    ensures Twin(TryFinalizeAppend(s, env, height), TryFinalizeAppend(s', env', height))
  {
    hide UpdateToState, HV.CommitMajority, Certifiable, HeaderEqualsTo;
    if s.block.Some? {
      var e := Appended(height, s.block.value.hash);
      UpdateToStateTwin(s.(appended := s.appended + [e]), s'.(appended := s'.appended + [e]), env, env');
    }
  }

  lemma AwaitingTwin(s: RoundState, s': RoundState, b: BlockID)
    requires Twin(s, s')
    ensures Twin(Awaiting(s, b), Awaiting(s', b))
  {
    hide EqualsTo, HeaderEqualsTo, PartsFromHeader;
  }

  lemma EnterReplyTwin(s: RoundState, s': RoundState, env: Env, env': Env, height: int, commitRound: int)
    requires Twin(s, s') && Alike(env, env')
    ensures Twin(EnterReply(s, env, height, commitRound), EnterReply(s', env', height, commitRound))
  {
    hide TryFinalizeAppend, HV.CommitMajority, Awaiting;
    var maj := HV.CommitMajority(s.votes, commitRound);
    var b := if maj.Some? then maj.value else NIL_BLOCK;
    var u := Awaiting(s, b).(step := REPLY, replyRound := commitRound);
    var u' := Awaiting(s', b).(step := REPLY, replyRound := commitRound);
    AwaitingTwin(s, s', b);
    TryFinalizeTwin(u, u', env, env', height);
  }

  lemma OnBlockTwin(s: RoundState, s': RoundState, env: Env, env': Env, height: int)
    requires Twin(s, s') && Alike(env, env')
    ensures Twin(OnBlock(s, env, height), OnBlock(s', env', height))
  {
    hide EnterPrepare, EnterCommit, TryFinalizeAppend, HV.Polka;
    EnterPrepareTwin(s, s', env, env', height, s.round);
    var s1, s1' := EnterPrepare(s, env, height, s.round), EnterPrepare(s', env', height, s.round);
    EnterCommitTwin(s1, s1', env, env', height, s1.round);
    TryFinalizeTwin(s, s', env, env', height);
  }

  lemma AddBlockPartTwin(s: RoundState, s': RoundState, env: Env, env': Env, height: int, outcome: PartOutcome)
    requires Twin(s, s') && Alike(env, env')
    ensures Twin(AddBlockPart(s, env, height, outcome), AddBlockPart(s', env', height, outcome))
  {
    hide OnBlock, HV.Polka, EqualsTo;
    if outcome.Completed? && s.parts.Some? {
      var u := s.(parts := Some(s.parts.value.(complete := true)));
      var u' := s'.(parts := Some(s'.parts.value.(complete := true)));
      var n, n' := NoteValid(u.(block := outcome.decoded)), NoteValid(u'.(block := outcome.decoded));
      assert Twin(n, n');
      OnBlockTwin(n, n', env, env', height);
    }
  }

  lemma OnPolkaTwin(s: RoundState, s': RoundState, round: int, b: BlockID)
    requires Twin(s, s')
    ensures Twin(OnPolka(s, round, b), OnPolka(s', round, b))
  {
    hide EqualsTo, HeaderEqualsTo, PartsFromHeader;
    assert Twin(ReleaseOnPolka(s, round, b), ReleaseOnPolka(s', round, b));
  }

  lemma OnPrepareTwin(s: RoundState, s': RoundState, env: Env, env': Env, height: int, round: int)
    requires Twin(s, s') && Alike(env, env')
    ensures Twin(OnPrepare(s, env, height, round), OnPrepare(s', env', height, round))
  {
    hide EnterPrepare, EnterCommit, EnterNewRound, EnterPrepareWait, OnPolka, HV.Polka, HasTwoThirdsAny;
    var polka := HV.Polka(s.votes, round);
    if polka.Some? { OnPolkaTwin(s, s', round, polka.value); }
    var s1 := if polka.Some? then OnPolka(s, round, polka.value) else s;
    var s1' := if polka.Some? then OnPolka(s', round, polka.value) else s';
    EnterNewRoundTwin(s1, s1', env, env', height, round);
    EnterCommitTwin(s1, s1', env, env', height, round);
    EnterPrepareWaitTwin(s1, s1', height, round);
    EnterPrepareTwin(s1, s1', env, env', height, s1.round);
  }

  lemma OnCommitTwin(s: RoundState, s': RoundState, env: Env, env': Env, height: int, round: int)
    requires Twin(s, s') && Alike(env, env')
    ensures Twin(OnCommit(s, env, height, round), OnCommit(s', env', height, round))
  {
    hide EnterCommit, EnterNewRound, EnterReply, EnterCommitWait, HV.CommitMajority, HasTwoThirdsAny, HV.Get, VS.HasAll;
    EnterNewRoundTwin(s, s', env, env', height, round);
    var n, n' := EnterNewRound(s, env, height, round), EnterNewRound(s', env', height, round);
    EnterCommitWaitTwin(n, n', height, round);
    EnterCommitTwin(n, n', env, env', height, round);
    var c, c' := EnterCommit(n, env, height, round), EnterCommit(n', env', height, round);
    EnterCommitWaitTwin(c, c', height, round);
    EnterReplyTwin(c, c', env, env', height, round);
    var r, r' := EnterReply(c, env, height, round), EnterReply(c', env', height, round);
    EnterNewRoundTwin(r, r', env, env', r.height, 0);
  }

  lemma AddVoteTwin(s: RoundState, s': RoundState, env: Env, env': Env, v: Vote, peer: VS.Peer)
    requires Twin(s, s') && Alike(env, env') && Shaped(s) && Shaped(s')
    ensures Twin(AddVote(s, env, v, peer), AddVote(s', env', v, peer))
  {
    hide OnPrepare, OnCommit, EnterNewRound, HV.AddVote, VS.AddVote, VS.HasAll, HV.AllShaped, VS.Shaped;
    if v.height + 1 == s.height && v.kind == Commit {
      if s.lastCommits.Some? {
        var res := VS.AddVote(s.lastCommits.value, env.scheme, v);
        var u, u' := s.(lastCommits := Some(res.state)), s'.(lastCommits := Some(res.state));
        EnterNewRoundTwin(u, u', env, env', u.height, 0);
      }
    } else {
      var votes := HV.AddVote(s.votes, env.scheme, v, peer).0;
      var u, u' := s.(votes := votes), s'.(votes := votes);
      OnPrepareTwin(u, u', env, env', s.height, v.round);
      OnCommitTwin(u, u', env, env', s.height, v.round);
    }
  }

  lemma HandleTimeoutTwin(s: RoundState, s': RoundState, env: Env, env': Env, ti: TimeoutInfo)
    requires Twin(s, s') && Alike(env, env')
    ensures Twin(HandleTimeout(s, env, ti), HandleTimeout(s', env', ti))
  {
    hide EnterNewRound, EnterPrePrepare, EnterPrepare, EnterCommit;
    EnterNewRoundTwin(s, s', env, env', ti.height, 0);
    EnterPrePrepareTwin(s, s', env, env', ti.height, 0);
    EnterPrepareTwin(s, s', env, env', ti.height, ti.round);
    EnterCommitTwin(s, s', env, env', ti.height, ti.round);
    EnterNewRoundTwin(EnterCommit(s, env, ti.height, ti.round), EnterCommit(s', env', ti.height, ti.round),
                      env, env', ti.height, ti.round + 1);
  }

  lemma HandleTxsTwin(s: RoundState, s': RoundState, env: Env, env': Env)
    requires Twin(s, s') && Alike(env, env')
    ensures Twin(HandleTxsAvailable(s, env), HandleTxsAvailable(s', env'))
  {
    hide EnterPrePrepare;
    EnterPrePrepareTwin(s, s', env, env', s.height, 0);
  }

  /** Whatever clock and signer answer, an event leads to the same state and the same requests to sign. */
  lemma HandleTwin(s: RoundState, s': RoundState, env: Env, env': Env, event: Event)
    requires Twin(s, s') && Alike(env, env') && Shaped(s) && Shaped(s')
    ensures Twin(Handle(s, env, event), Handle(s', env', event))
  {
    hide HandleTxsAvailable, AddBlockPart, AddVote, HandleTimeout, HV.SetPeerMaj23, HV.AllShaped, VS.Shaped, PartsFromHeader;
    match event
    case TxsAvailable => HandleTxsTwin(s, s', env, env');
    case PrePrepareMsg(p, ok) =>
    case BlockPartMsg(h, outcome) => AddBlockPartTwin(s, s', env, env', h, outcome);
    case VoteMsg(v, peer) => AddVoteTwin(s, s', env, env', v, peer);
    case PeerMaj23(r, kind, peer, b) =>
    case Timeout(ti) => HandleTimeoutTwin(s, s', env, env', ti);
  }

  // ---------------------------------------------------------------- the log

  datatype Entry = Entry(env: Env, event: Event)

  /** What the receive routine writes to the log before it handles it. The arrival of transactions and peers'
      claims are handled without. */
  predicate Logged(event: Event) {
    event.PrePrepareMsg? || event.BlockPartMsg? || event.VoteMsg? || event.Timeout?
  }

  /** The state after the entries were handled one after the other. */
  ghost function After(s: RoundState, entries: seq<Entry>): RoundState {
    if entries == [] then s
    else
      var u := After(s, entries[..|entries| - 1]);
      var e := entries[|entries| - 1];
      if Shaped(u) then Handle(u, e.env, e.event) else u
  }

  /** The same events, seen again with another clock and another signer. */
  ghost predicate Again(entries: seq<Entry>, again: seq<Entry>) {
    && |again| == |entries|
    && forall i | 0 <= i < |entries| :: Alike(entries[i].env, again[i].env) && again[i].event == entries[i].event
  }

  /** Handling the same events again leads to the same state and asks the signer for the same votes. */
  lemma {:induction false} AfterTwin(s: RoundState, entries: seq<Entry>, again: seq<Entry>)
    requires Again(entries, again)
    ensures Twin(After(s, entries), After(s, again))
    decreases |entries|
  {
    hide Handle, Alike, Shaped;
    if entries != [] {
      var n := |entries| - 1;
      AfterTwin(s, entries[..n], again[..n]);
      var u, u' := After(s, entries[..n]), After(s, again[..n]);
      TwinShaped(u, u');
      if Shaped(u) { HandleTwin(u, u', entries[n].env, again[n].env, entries[n].event); }
    }
  }

  lemma TwinShaped(s: RoundState, s': RoundState)
    requires Twin(s, s')
    ensures Shaped(s) <==> Shaped(s')
  {
  }

  lemma AfterOne(s: RoundState, entries: seq<Entry>, e: Entry)
    requires Shaped(After(s, entries))
    ensures After(s, entries + [e]) == Handle(After(s, entries), e.env, e.event)
  {
    hide Handle, Shaped;
    assert (entries + [e])[..|entries|] == entries;
  }
}
