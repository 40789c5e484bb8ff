/** `consensus/consensus_state.go` as it runs: the node is one object, and its methods update the round
    state field by field. A field `panicked` records that the process has stopped; deferred updates of
    round and step happen where the source's deferred calls run. */
module ConsensusObjects {
  import opened Types
  import opened Power
  import VS = VoteSets
  import HV = HeightVoteSets
  import opened Quorums
  import opened Invariants
  import P = Progress
  import RS = RoundStates
  import opened RoundStates

  /** What a step may make of a node: the invariant holds again, position has not gone back, and everything
      emitted since was allowed. */
  ghost predicate Kept(s: RoundState, t: RoundState, w: World, facts: set<SigFact>) {
    Inv(t, w, facts) && Follows(s, t, w, facts)
  }

  /** The attempt is the node's own, a validator's, for its present height and round, and if it succeeded it
      carries the signer's signature of exactly its sign-bytes. */
  ghost predicate Speaks(a: Attempt, s: RoundState, env: Env) {
    && s.key.Some? && a.vote.address == s.key.value.address
    && 0 <= a.vote.index < |s.vals| && s.vals[a.vote.index].address == a.vote.address
    && a.vote.height == s.height && a.vote.round == s.round
    && (a.ok <==> env.sign(a.vote.SignBytes(s.chainID)).Some?)
    && (a.ok ==> env.sign(a.vote.SignBytes(s.chainID)) == Some(a.vote.signature))
  }

  /** A proposal that names a POL round names one in which a quorum prepared its block. */
  ghost predicate ProposalBacked(p: PrePrepare, w: World, facts: set<SigFact>) {
    p.polRound >= 0 ==>
      exists b :: HasQuorum(facts, w, Prepare, p.height, p.polRound, b) && b.hash == p.blockID.hash
  }

  ghost predicate Running(s: RoundState, w: World, facts: set<SigFact>) { !s.panicked && Inv(s, w, facts) }

  /** The application's answer on the next validators is the chain's. */
  ghost predicate NextOk(s: RoundState, env: Env, w: World) {
    env.nextVals == w.valsAt(s.height + 1) && NonNegative(env.nextVals)
  }

  class ConsensusState {
    const chainID: string
    const key: Option<PubKey>
    var height: int
    var round: int
    var step: int
    var vals: seq<Validator>
    var prePrepare: Option<PrePrepare>
    var block: Option<Block>
    var parts: Option<Parts>
    var lockedRound: int
    var lockedBlock: Option<Block>
    var lockedParts: Option<Parts>
    var validRound: int
    var validBlock: Option<Block>
    var validParts: Option<Parts>
    var votes: HV.HeightVotes
    var replyRound: int
    var lastCommits: Option<VS.VoteSet>
    var triggeredCommitWait: bool
    var attempts: seq<Attempt>
    var proposals: seq<PrePrepare>
    var scheduled: seq<TimeoutInfo>
    var appended: seq<Appended>
    var panicked: bool

    function View(): RoundState
      reads this
    {
      RoundState(chainID, key, height, round, step, vals, prePrepare, block, parts,
                 lockedRound, lockedBlock, lockedParts, validRound, validBlock, validParts,
                 votes, replyRound, lastCommits, triggeredCommitWait,
                 attempts, proposals, scheduled, appended, panicked)
    }

    constructor (chainID: string, key: Option<PubKey>, height: int, vals: seq<Validator>,
                 lastCommits: Option<VS.VoteSet>)
      ensures View() == Fresh(chainID, key, height, vals, lastCommits)
    {
      this.chainID, this.key, this.height, this.vals, this.lastCommits := chainID, key, height, vals, lastCommits;
      round, step := 0, NEW_HEIGHT;
      prePrepare, block, parts := None, None, None;
      lockedRound, lockedBlock, lockedParts := -1, None, None;
      validRound, validBlock, validParts := -1, None, None;
      votes := HV.NewHeightVotes(chainID, height, vals);
      replyRound, triggeredCommitWait, panicked := -1, false, false;
      attempts, proposals, scheduled, appended := [], [], [TimeoutInfo(height, 0, NEW_HEIGHT)], [];
    }

    method ScheduleTimeout(r: int, st: int)
      modifies this`scheduled
      ensures View() == Schedule(old(View()), r, st)
    {
      scheduled := scheduled + [TimeoutInfo(height, r, st)];
    }

    method UpdateRoundStep(r: int, st: int)
      modifies this`round, this`step
      ensures View() == old(View()).(round := r, step := st)
    {
      round := r;
      step := st;
    }

    method SetBlock(b: Option<Block>, p: Option<Parts>)
      modifies this`block, this`parts
      ensures View() == old(View()).(block := b, parts := p)
    {
      block := b;
      parts := p;
    }

    method SetValid(r: int, b: Option<Block>, p: Option<Parts>)
      modifies this`validRound, this`validBlock, this`validParts
      ensures View() == old(View()).(validRound := r, validBlock := b, validParts := p)
    {
      validRound := r;
      validBlock := b;
      validParts := p;
    }

    method SetLocked(r: int, b: Option<Block>, p: Option<Parts>)
      modifies this`lockedRound, this`lockedBlock, this`lockedParts
      ensures View() == old(View()).(lockedRound := r, lockedBlock := b, lockedParts := p)
    {
      lockedRound := r;
      lockedBlock := b;
      lockedParts := p;
    }

    method DropPrePrepare()
      modifies this`prePrepare, this`block, this`parts
      ensures View() == old(View()).(prePrepare := None, block := None, parts := None)
    {
      prePrepare := None;
      block := None;
      parts := None;
    }

    /** `signVote` and `signAddVote`: the vote is made from `this.round`. */
    method SignAdd(env: Env, kind: VoteType, blockID: BlockID, enteredFor: int)
      modifies this`attempts
      ensures View() == SignAddVote(old(View()), env, kind, blockID, enteredFor)
      ensures attempts == old(attempts) <==> key.None? || FindAddress(vals, key.value.address) == -1
      ensures attempts != old(attempts) ==>
                && |attempts| == |old(attempts)| + 1 && old(attempts) <= attempts
                && Speaks(attempts[|old(attempts)|], View(), env) && attempts[|old(attempts)|].enteredFor == enteredFor
                && attempts[|old(attempts)|].vote.kind == kind && attempts[|old(attempts)|].vote.blockID == blockID
    {
      if key.None? { return; }
      var index := FindAddress(vals, key.value.address);
      if index == -1 { return; }
      var sig := env.sign(VoteBytes(chainID, kind, height, round, blockID, env.voteTime));
      var vote := Vote(kind, height, round, blockID, env.voteTime, key.value.address, index,
                       if sig.Some? then sig.value else []);
      attempts := attempts + [Attempt(vote, enteredFor, sig.Some?, votes)];
    }

    // ------------------------------------------------------------ entering steps

    /** `doPrepare`. */
    method DoPrepare(env: Env, enteredFor: int)
      modifies this`attempts
      ensures View() == SignAddVote(old(View()), env, Prepare, PrepareChoice(old(View()), env), enteredFor)
      ensures attempts != old(attempts) ==>
                var b := attempts[|old(attempts)|].vote.blockID;
                && (lockedBlock.Some? ==> b.hash == lockedBlock.value.hash)
                && (lockedBlock.None? && b != NIL_BLOCK ==> block.Some? && env.blockOk(block.value) && b.hash == block.value.hash)
    {
      if lockedBlock.Some? {
        SignAdd(env, Prepare, BlockID(lockedBlock.value.hash, Header(lockedParts)), enteredFor);
        return;
      }
      if block.None? {
        SignAdd(env, Prepare, NIL_BLOCK, enteredFor);
        return;
      }
      if !env.blockOk(block.value) {
        SignAdd(env, Prepare, NIL_BLOCK, enteredFor);
        return;
      }
      SignAdd(env, Prepare, BlockID(block.value.hash, Header(parts)), enteredFor);
    }

    method EnterPrepare(env: Env, h: int, r: int, ghost w: World)
      modifies this
      ensures View() == RS.EnterPrepare(old(View()), env, h, r)
      ensures old(Running(View(), w, env.scheme) && r <= round) ==> Kept(old(View()), View(), w, env.scheme)
    {
      hide Inv, Follows;
      if Running(View(), w, env.scheme) && r <= round { EnterPrepareKeeps(View(), env, h, r, w); }
      if panicked || height != h || r < round || (round == r && PREPARE <= step) { return; }
      DoPrepare(env, r);
      UpdateRoundStep(r, PREPARE);
    }

    /** `isPrePrepareComplete`. */
    method PrePrepareComplete(ghost w: World, ghost facts: set<SigFact>) returns (ok: bool)
      ensures ok == IsPrePrepareComplete(View())
      ensures ok && Running(View(), w, facts) && prePrepare.value.polRound >= 0 ==>
                exists b :: HasQuorum(facts, w, Prepare, height, prePrepare.value.polRound, b)
    {
      hide HasQuorum;
      if Running(View(), w, facts) { PolHasQuorum(View(), w, facts); }
      if prePrepare.None? || block.None? { return false; }
      if prePrepare.value.polRound < 0 { return true; }
      return HV.Polka(votes, prePrepare.value.polRound).Some?;
    }

    /** `decidePrePrepare`. */
    method Decide(env: Env, r: int, ghost w: World)
      modifies this`proposals
      ensures View() == DecidePrePrepare(old(View()), env, r)
      ensures proposals == old(proposals) || (|proposals| == |old(proposals)| + 1 && old(proposals) <= proposals)
      ensures proposals != old(proposals) && Running(old(View()), w, env.scheme) ==>
                ProposalBacked(proposals[|old(proposals)|], w, env.scheme)
      ensures P.Proposes(old(View()), View(), env, r)
      ensures proposals != old(proposals) && Running(old(View()), w, env.scheme) && validBlock.None? ==>
                proposals[|old(proposals)|].polRound == -1
    {
      hide HasQuorum, P.Proposes;
      P.ProposalMade(View(), env, r);
      if Running(View(), w, env.scheme) { ValidHasQuorum(View(), w, env.scheme); }
      var choice := env.newBlock;
      if validBlock.Some? { choice := Some((validBlock.value, Header(validParts))); }
      if choice.None? { return; }
      if env.signProposal {
        proposals := proposals + [PrePrepare(height, r, validRound, BlockID(choice.value.0.hash, choice.value.1))];
      }
    }

    method DecideIfPrimary(env: Env, r: int, ghost w: World)
      modifies this`proposals
      ensures View() == if key.Some? && FindAddress(vals, key.value.address) != -1 && env.primary
                        then DecidePrePrepare(old(View()), env, r) else old(View())
    {
      hide DecidePrePrepare, ProposalBacked, Inv, P.Proposes;
      if key.Some? && FindAddress(vals, key.value.address) != -1 && env.primary { Decide(env, r, w); }
    }

    method EnterPrePrepare(env: Env, h: int, r: int, ghost w: World)
      modifies this
      ensures View() == RS.EnterPrePrepare(old(View()), env, h, r)
      ensures old(Running(View(), w, env.scheme) && r <= round) ==> Kept(old(View()), View(), w, env.scheme)
    {
      hide Inv, Follows, RS.EnterPrepare, DecidePrePrepare, IsPrePrepareComplete, ProposalBacked, HasQuorum, FindAddress;
      if Running(View(), w, env.scheme) && r <= round { EnterPrePrepareKeeps(View(), env, h, r, w); }
      if panicked || height != h || r < round || (round == r && PRE_PREPARE <= step) { return; }
      ScheduleTimeout(r, PRE_PREPARE);
      DecideIfPrimary(env, r, w);
      UpdateRoundStep(r, PRE_PREPARE);
      var complete := PrePrepareComplete(w, env.scheme);
      if complete { EnterPrepare(env, h, round, w); }
    }

    /** The first half of `enterNewRound`: move to the round and make room for its votes and the next one's. */
    method BeginRound(r: int)
      modifies this`round, this`step, this`prePrepare, this`block, this`parts, this`triggeredCommitWait,
               this`panicked, this`votes
      ensures View() == StartRound(old(View()), r)
    {
      hide HV.SetRoundPanics, HV.SetRound;
      UpdateRoundStep(r, NEW_ROUND);
      if r != 0 { DropPrePrepare(); }
      triggeredCommitWait := false;
      if r >= MAX_INT32 || HV.SetRoundPanics(votes, r + 1) {
        panicked := true;
      } else {
        votes := HV.SetRound(votes, r + 1);
      }
    }

    method EnterNewRound(env: Env, h: int, r: int, ghost w: World)
      modifies this
      ensures View() == RS.EnterNewRound(old(View()), env, h, r)
      ensures old(Running(View(), w, env.scheme)) ==> Kept(old(View()), View(), w, env.scheme)
    {
      hide Inv, Follows;
      if Running(View(), w, env.scheme) { EnterNewRoundKeeps(View(), env, h, r, w); }
      hide StartRound, RS.EnterPrePrepare;
      if panicked || height != h || r < round || (round == r && step != NEW_HEIGHT) { return; }
      BeginRound(r);
      if panicked { return; }
      if env.waitForTxs && r == 0 && !env.needProofBlock {
        if env.emptyBlockInterval { ScheduleTimeout(r, NEW_ROUND); }
      } else {
        EnterPrePrepare(env, h, r, w);
      }
    }

    method EnterPrepareWait(h: int, r: int, ghost w: World, ghost facts: set<SigFact>)
      modifies this
      ensures View() == RS.EnterPrepareWait(old(View()), h, r)
      ensures old(Running(View(), w, facts) && r <= round) ==> Kept(old(View()), View(), w, facts)
    {
      hide Inv, Follows;
      if Running(View(), w, facts) && r <= round { EnterPrepareWaitKeeps(View(), h, r, w, facts); }
      if panicked || height != h || r < round || (round == r && PREPARE_WAIT <= step) { return; }
      ScheduleTimeout(r, PREPARE_WAIT);
      UpdateRoundStep(r, PREPARE_WAIT);
    }

    /** The body of `enterCommit`: change the lock and choose what to vote for. */
    method ChooseCommit(env: Env, r: int, ghost w: World) returns (blockID: BlockID)
      requires !panicked
      modifies this`lockedRound, this`lockedBlock, this`lockedParts, this`block, this`parts, this`panicked
      ensures (View(), blockID) == CommitChoice(old(View()), env, r)
      ensures old(Running(View(), w, env.scheme) && r == round && step < COMMIT) ==> Kept(old(View()), View(), w, env.scheme)
    {
      hide Inv, Follows;
      if Running(View(), w, env.scheme) && r == round && step < COMMIT { CommitChoiceKeeps(View(), env, r, w); }
      hide HV.Polka, PolRound, PartsFromHeader, HeaderEqualsTo;
      var polka := HV.Polka(votes, r);
      if polka.None? { return NIL_BLOCK; }
      if PolRound(votes, votes.round) < r {
        panicked := true;
        return NIL_BLOCK;
      }
      if polka.value.hash == [] {
        if lockedBlock.Some? { SetLocked(-1, None, None); }
        return NIL_BLOCK;
      }
      if EqualsTo(lockedBlock, polka.value.hash) {
        lockedRound := r;
        return polka.value;
      }
      if EqualsTo(block, polka.value.hash) {
        if !env.blockOk(block.value) {
          panicked := true;
          return NIL_BLOCK;
        }
        SetLocked(r, block, parts);
        return polka.value;
      }
      SetLocked(-1, None, None);
      if !HeaderEqualsTo(parts, polka.value.parts) {
        SetBlock(None, PartsFromHeader(polka.value.parts));
      }
      return NIL_BLOCK;
    }

    method EnterCommit(env: Env, h: int, r: int, ghost w: World)
      modifies this
      ensures View() == RS.EnterCommit(old(View()), env, h, r)
      ensures old(Running(View(), w, env.scheme) && r <= round) ==> Kept(old(View()), View(), w, env.scheme)
    {
      hide Inv, Follows;
      if Running(View(), w, env.scheme) && r <= round { EnterCommitKeeps(View(), env, h, r, w); }
      if panicked || height != h || r < round || (round == r && COMMIT <= step) { return; }
      var blockID := ChooseCommit(env, r, w);
      if panicked { return; }
      SignAdd(env, Commit, blockID, r);
      UpdateRoundStep(r, COMMIT);
    }

    method EnterCommitWait(h: int, r: int, ghost w: World, ghost facts: set<SigFact>)
      modifies this
      ensures View() == RS.EnterCommitWait(old(View()), h, r)
      ensures old(Running(View(), w, facts) && r <= round && HasTwoThirdsAny(votes, r, Commit)) ==> Kept(old(View()), View(), w, facts)
    {
      hide Inv, Follows;
      if Running(View(), w, facts) && r <= round && HasTwoThirdsAny(votes, r, Commit) { EnterCommitWaitKeeps(View(), h, r, w, facts); }
      if panicked || height != h || r < round || (round == r && triggeredCommitWait) { return; }
      if !HasTwoThirdsAny(votes, r, Commit) {
        panicked := true;
        return;
      }
      ScheduleTimeout(r, COMMIT_WAIT);
      triggeredCommitWait := true;
    }

    // ------------------------------------------------------------ appending a block

    method Forget()
      modifies this
      ensures View() == ClearHeight(old(View()))
    {
      UpdateRoundStep(0, NEW_HEIGHT);
      DropPrePrepare();
      SetLocked(-1, None, None);
      SetValid(-1, None, None);
      replyRound := -1;
      triggeredCommitWait := false;
    }

    method MoveTo(h: int, newVals: seq<Validator>, commits: Option<VS.VoteSet>)
      modifies this
      ensures View() == old(View()).(lastCommits := commits, height := h, vals := newVals,
                                     votes := HV.NewHeightVotes(chainID, h, newVals))
    {
      hide HV.NewHeightVotes;
      lastCommits := commits;
      height := h;
      SetValidators(newVals, HV.NewHeightVotes(chainID, h, newVals));
    }

    method SetValidators(newVals: seq<Validator>, newVotes: HV.HeightVotes)
      modifies this`vals, this`votes
      ensures View() == old(View()).(vals := newVals, votes := newVotes)
    {
      vals := newVals;
      votes := newVotes;
    }

    /** `updateToState` and `scheduleRound0` after a block was applied. */
    method UpdateToState(env: Env, ghost w: World)
      modifies this
      ensures View() == RS.UpdateToState(old(View()), env)
      ensures old(Running(View(), w, env.scheme) && NextOk(View(), env, w) && HV.CommitMajority(votes, replyRound).Some?) ==> Kept(old(View()), View(), w, env.scheme)
    {
      hide Inv, Follows;
      if Running(View(), w, env.scheme) && NextOk(View(), env, w) && HV.CommitMajority(votes, replyRound).Some? { UpdateToStateKeeps(View(), env, w); }
      hide HV.CommitMajority, HV.Get, HV.NewHeightVotes;
      if HV.CommitMajority(votes, replyRound).None? {
        panicked := true;
        return;
      }
      var commits := HV.Get(votes, replyRound, Commit);
      Forget();
      MoveTo(height + 1, env.nextVals, commits);
      ScheduleTimeout(0, NEW_HEIGHT);
    }

    method FinalizeAppend(env: Env, h: int, ghost w: World)
      modifies this
      ensures View() == RS.FinalizeAppend(old(View()), env, h)
      ensures old(Running(View(), w, env.scheme) && NextOk(View(), env, w)) ==> Kept(old(View()), View(), w, env.scheme)
    {
      hide Inv, Follows;
      if Running(View(), w, env.scheme) && NextOk(View(), env, w) { FinalizeKeeps(View(), env, h, w); }
      if panicked || height != h || step != REPLY { return; }
      var maj := HV.CommitMajority(votes, replyRound);
      if maj.None? || !HeaderEqualsTo(parts, maj.value.parts) || !EqualsTo(block, maj.value.hash)
         || !env.blockOk(block.value) {
        panicked := true;
        return;
      }
      if !env.stored && !Certifiable(votes, replyRound) {
        panicked := true;
        return;
      }
      appended := appended + [Appended(h, block.value.hash)];
      if !env.applyOk { return; }
      UpdateToState(env, w);
    }

    method TryFinalizeAppend(env: Env, h: int, ghost w: World)
      modifies this
      ensures View() == RS.TryFinalizeAppend(old(View()), env, h)
      ensures old(Running(View(), w, env.scheme) && NextOk(View(), env, w) && height == h) ==> Kept(old(View()), View(), w, env.scheme)
    {
      hide Inv, Follows;
      if Running(View(), w, env.scheme) && NextOk(View(), env, w) && height == h { TryFinalizeKeeps(View(), env, h, w); }
      if panicked { return; }
      if height != h {
        panicked := true;
        return;
      }
      var maj := HV.CommitMajority(votes, replyRound);
      if maj.None? || maj.value.hash == [] { return; }
      if !EqualsTo(block, maj.value.hash) { return; }
      FinalizeAppend(env, h, w);
    }

    method EnterReply(env: Env, h: int, commitRound: int, ghost w: World)
      modifies this
      ensures View() == RS.EnterReply(old(View()), env, h, commitRound)
      ensures old(Running(View(), w, env.scheme) && NextOk(View(), env, w)) ==> Kept(old(View()), View(), w, env.scheme)
    {
      hide Inv, Follows;
      if Running(View(), w, env.scheme) && NextOk(View(), env, w) { EnterReplyKeeps(View(), env, h, commitRound, w); }
      if panicked || height != h || REPLY <= step { return; }
      hide HV.CommitMajority, PartsFromHeader, EqualsTo, HeaderEqualsTo, RS.TryFinalizeAppend;
      var maj := HV.CommitMajority(votes, commitRound);
      var b := if maj.Some? then maj.value else NIL_BLOCK;
      if EqualsTo(lockedBlock, b.hash) { SetBlock(lockedBlock, lockedParts); }
      if !EqualsTo(block, b.hash) {
        if !HeaderEqualsTo(parts, b.parts) { SetBlock(None, PartsFromHeader(b.parts)); }
      }
      UpdateRoundStep(round, REPLY);
      replyRound := commitRound;
      TryFinalizeAppend(env, h, w);
    }

    // ------------------------------------------------------------ messages

    /** `setPrePrepare`. */
    method ReceivePrePrepare(p: PrePrepare, signatureOk: bool, ghost w: World, ghost facts: set<SigFact>)
      modifies this`prePrepare, this`parts
      ensures View() == SetPrePrepare(old(View()), p, signatureOk)
      ensures prePrepare != old(prePrepare) ==>
                && old(prePrepare).None? && prePrepare == Some(p) && signatureOk
                && p.height == height && p.round == round && -1 <= p.polRound && (p.polRound < p.round || p.polRound == -1)
      ensures old(Running(View(), w, facts)) ==> Kept(old(View()), View(), w, facts)
    {
      hide Inv, Follows;
      if Running(View(), w, facts) { QuietKeeps(View(), SetPrePrepare(View(), p, signatureOk), w, facts); }
      if prePrepare.Some? { return; }
      if p.height != height || p.round != round { return; }
      if p.polRound < -1 || (p.polRound >= 0 && p.polRound >= p.round) { return; }
      if !signatureOk { return; }
      prePrepare := Some(p);
      if parts.None? { parts := PartsFromHeader(p.blockID.parts); }
    }

    method UpdateValid()
      modifies this`validRound, this`validBlock, this`validParts
      ensures View() == NoteValid(old(View()))
    {
      var polka := HV.Polka(votes, round);
      if polka.Some? && !polka.value.IsZero() && validRound < round {
        if EqualsTo(block, polka.value.hash) { SetValid(round, block, parts); }
      }
    }

    /** `addPrePrepareBlockPart`. */
    method ReceiveBlockPart(env: Env, h: int, outcome: PartOutcome, ghost w: World)
      requires !panicked
      modifies this
      ensures View() == AddBlockPart(old(View()), env, h, outcome)
      ensures old(Running(View(), w, env.scheme) && NextOk(View(), env, w)) ==> Kept(old(View()), View(), w, env.scheme)
    {
      hide Inv, Follows, OnBlock, NoteValid;
      if Running(View(), w, env.scheme) && NextOk(View(), env, w) { AddBlockPartKeeps(View(), env, h, outcome, w); }
      if height != h { return; }
      if parts.None? || parts.value.complete { return; }
      if !outcome.Completed? { return; }
      parts := Some(parts.value.(complete := true));
      if outcome.tooLarge || outcome.decoded.None? { return; }
      block := outcome.decoded;
      UpdateValid();
      AfterBlock(env, h, w);
    }

    /** The second half of `addPrePrepareBlockPart`: where a completed block leads. */
    method AfterBlock(env: Env, h: int, ghost w: World)
      modifies this
      ensures View() == OnBlock(old(View()), env, h)
    {
      hide RS.EnterPrepare, RS.EnterCommit, RS.TryFinalizeAppend, IsPrePrepareComplete, HV.Polka, Inv, Follows, HasQuorum;
      var hasTwoThirds := HV.Polka(votes, round).Some?;
      var complete := PrePrepareComplete(w, env.scheme);
      if step <= PRE_PREPARE && complete {
        EnterPrepare(env, h, round, w);
        if hasTwoThirds { EnterCommit(env, h, round, w); }
      } else if step == REPLY {
        TryFinalizeAppend(env, h, w);
      }
    }

    /** What a majority found in `addVote` does before any step is entered. */
    method NotePolka(r: int, b: BlockID, ghost w: World, ghost facts: set<SigFact>)
      modifies this
      ensures View() == OnPolka(old(View()), r, b)
      ensures old(Running(View(), w, facts) && HV.Polka(votes, r) == Some(b)) ==> Kept(old(View()), View(), w, facts)
    {
      hide Inv, Follows;
      if Running(View(), w, facts) && HV.Polka(votes, r) == Some(b) { OnPolkaKeeps(View(), r, b, w, facts); }
      hide PartsFromHeader, EqualsTo, HeaderEqualsTo;
      if lockedBlock.Some? && lockedRound < r && r <= round && !EqualsTo(lockedBlock, b.hash) { SetLocked(-1, None, None); }
      if b.hash != [] && validRound < r && r == round {
        if EqualsTo(block, b.hash) {
          SetValid(r, block, parts);
        } else {
          block := None;
        }
        if !HeaderEqualsTo(parts, b.parts) { parts := PartsFromHeader(b.parts); }
      }
    }

    method AfterPrepare(env: Env, h: int, r: int, ghost w: World)
      requires !panicked
      modifies this
      ensures View() == OnPrepare(old(View()), env, h, r)
      ensures old(Running(View(), w, env.scheme) && h == height) ==> Kept(old(View()), View(), w, env.scheme)
    {
      hide Inv, Follows;
      if Running(View(), w, env.scheme) && h == height { OnPrepareKeeps(View(), env, h, r, w); }
      var polka := HV.Polka(votes, r);
      var any := HasTwoThirdsAny(votes, r, Prepare);
      if polka.Some? { NotePolka(r, polka.value, w, env.scheme); }
      var complete := PrePrepareComplete(w, env.scheme);
      if round < r && any {
        EnterNewRound(env, h, r, w);
      } else if round == r && PREPARE <= step {
        if polka.Some? && (complete || polka.value.hash == []) {
          EnterCommit(env, h, r, w);
        } else if any {
          EnterPrepareWait(h, r, w, env.scheme);
        }
      } else if prePrepare.Some? && 0 <= prePrepare.value.polRound && prePrepare.value.polRound == r {
        if complete { EnterPrepare(env, h, round, w); }
      }
    }

    method AfterCommit(env: Env, h: int, r: int, ghost w: World)
      requires !panicked
      modifies this
      ensures View() == OnCommit(old(View()), env, h, r)
      ensures old(Running(View(), w, env.scheme) && NextOk(View(), env, w) && h == height) ==> Kept(old(View()), View(), w, env.scheme)
    {
      hide Inv, Follows;
      if Running(View(), w, env.scheme) && NextOk(View(), env, w) && h == height { OnCommitKeeps(View(), env, h, r, w); }
      var maj := HV.CommitMajority(votes, r);
      var commits := HV.Get(votes, r, Commit);
      if maj.Some? {
        EnterNewRound(env, h, r, w);
        EnterCommit(env, h, r, w);
        if maj.value.hash != [] {
          EnterReply(env, h, r, w);
          if env.skipTimeoutReply && commits.Some? && VS.HasAll(commits.value) { EnterNewRound(env, height, 0, w); }
        } else {
          EnterCommitWait(h, r, w, env.scheme);
        }
      } else if round <= r && HasTwoThirdsAny(votes, r, Commit) {
        EnterNewRound(env, h, r, w);
        EnterCommitWait(h, r, w, env.scheme);
      }
    }

    /** `addVote`. */
    method ReceiveVote(env: Env, v: Vote, peer: VS.Peer, ghost w: World)
      requires !panicked && Shaped(View())
      modifies this
      ensures View() == AddVote(old(View()), env, v, peer)
      ensures old(Running(View(), w, env.scheme) && NextOk(View(), env, w)) ==> Kept(old(View()), View(), w, env.scheme)
    {
      hide Inv, Follows, RS.EnterNewRound, OnPrepare, OnCommit, VS.AddVote, HV.AddVote, VS.HasAll;
      if Running(View(), w, env.scheme) && NextOk(View(), env, w) { AddVoteKeeps(View(), env, v, peer, w); }
      if v.height + 1 == height && v.kind == Commit {
        if step != NEW_HEIGHT { return; }
        if lastCommits.None? {
          panicked := true;
          return;
        }
        var res := VS.AddVote(lastCommits.value, env.scheme, v);
        lastCommits := Some(res.state);
        if !res.added { return; }
        if env.skipTimeoutReply && VS.HasAll(res.state) { EnterNewRound(env, height, 0, w); }
        return;
      }
      if v.height != height { return; }
      var res := HV.AddVote(votes, env.scheme, v, peer);
      votes := res.0;
      if !res.1 { return; }
      if v.kind == Prepare { AfterPrepare(env, height, v.round, w); } else { AfterCommit(env, height, v.round, w); }
    }

    method ReceiveTimeout(env: Env, ti: TimeoutInfo, ghost w: World)
      requires !panicked
      modifies this
      ensures View() == HandleTimeout(old(View()), env, ti)
      ensures old(Running(View(), w, env.scheme) && ti in scheduled) ==>
                Kept(old(View()), View(), w, env.scheme) && P.ToTimeout(old(View()), View(), env, ti)
    {
      hide Inv, Follows, RS.EnterPrepare, RS.EnterCommit, RS.EnterNewRound, RS.EnterPrePrepare, P.ToTimeout;
      if Running(View(), w, env.scheme) && ti in scheduled {
        HandleTimeoutKeeps(View(), env, ti, w);
        P.TimeoutHandled(View(), env, ti, w);
      }
      if ti.height != height || ti.round < round || (ti.round == round && ti.step < step) { return; }
      if ti.step == NEW_HEIGHT {
        EnterNewRound(env, ti.height, 0, w);
      } else if ti.step == NEW_ROUND {
        EnterPrePrepare(env, ti.height, 0, w);
      } else if ti.step == PRE_PREPARE {
        EnterPrepare(env, ti.height, ti.round, w);
      } else if ti.step == PREPARE_WAIT {
        EnterCommit(env, ti.height, ti.round, w);
      } else if ti.step == COMMIT_WAIT {
        EnterCommit(env, ti.height, ti.round, w);
        EnterNewRound(env, ti.height, ti.round + 1, w);
      } else {
        panicked := true;
      }
    }

    method TxsAvailable(env: Env, ghost w: World)
      requires !panicked
      modifies this
      ensures View() == HandleTxsAvailable(old(View()), env)
      ensures old(Running(View(), w, env.scheme)) ==> Kept(old(View()), View(), w, env.scheme)
    {
      hide Inv, Follows;
      if Running(View(), w, env.scheme) { HandleTxsKeeps(View(), env, w); }
      if round != 0 { return; }
      if step == NEW_HEIGHT {
        if env.needProofBlock { return; }
        ScheduleTimeout(0, NEW_ROUND);
      } else if step == NEW_ROUND {
        EnterPrePrepare(env, height, 0, w);
      }
    }

    /** One turn of the receive routine. From any state the invariant allows, the invariant holds again,
        position in (height, round, step) has not gone back, and everything emitted was allowed. */
    method Receive(env: Env, event: Event, ghost w: Quorums.World)
      requires !panicked && Invariants.Inv(View(), w, env.scheme) && Invariants.EnvOk(View(), env, event, w)
      modifies this
      ensures Shaped(old(View())) && View() == Handle(old(View()), env, event)
      ensures Invariants.Inv(View(), w, env.scheme)
      ensures Invariants.Follows(old(View()), View(), w, env.scheme)
      ensures P.Achieves(old(View()), View(), env, event)
    {
      hide Invariants.Inv, Invariants.Follows, Invariants.EnvOk, Shaped, AddVote, AddBlockPart, HandleTimeout,
           HandleTxsAvailable, P.Achieves, P.ToTimeout;
      Invariants.HandleKeeps(View(), env, event, w);
      P.EventAchieves(View(), env, event, w);
      match event {
        case TxsAvailable => TxsAvailable(env, w);
        case PrePrepareMsg(p, ok) => ReceivePrePrepare(p, ok, w, env.scheme);
        case BlockPartMsg(h, outcome) => ReceiveBlockPart(env, h, outcome, w);
        case VoteMsg(v, peer) => ReceiveVote(env, v, peer, w);
        case PeerMaj23(r, kind, peer, b) => votes := HV.SetPeerMaj23(votes, r, kind, peer, b);
        case Timeout(ti) => ReceiveTimeout(env, ti, w);
      }
    }
  }

  lemma PolHasQuorum(s: RoundState, w: World, facts: set<SigFact>)
    requires Running(s, w, facts)
    ensures forall r | HV.Polka(s.votes, r).Some? :: HasQuorum(facts, w, Prepare, s.height, r, HV.Polka(s.votes, r).value)
  {
    hide HV.AllSigned, HasQuorum;
    forall r | HV.Polka(s.votes, r).Some?
      ensures HasQuorum(facts, w, Prepare, s.height, r, HV.Polka(s.votes, r).value)
    {
      PolkaHasQuorum(s.votes, r, facts, w);
    }
  }

  lemma ValidHasQuorum(s: RoundState, w: World, facts: set<SigFact>)
    requires Running(s, w, facts)
    ensures s.validBlock.None? ==> s.validRound == -1
    ensures s.validBlock.Some? ==>
              exists b :: HasQuorum(facts, w, Prepare, s.height, s.validRound, b) && b.hash == s.validBlock.value.hash
  {
    hide HasQuorum, HV.Valid, HV.AllSigned;
    PolHasQuorum(s, w, facts);
    if s.validBlock.Some? {
      assert HasQuorum(facts, w, Prepare, s.height, s.validRound, HV.Polka(s.votes, s.validRound).value);
    }
  }
}
