/** What each step of a node achieves: where it leaves position, lock and proposal, and what it asks for. */
module Progress {
  import opened Types
  import opened Power
  import VS = VoteSets
  import HV = HeightVoteSets
  import Certificates
  import opened Quorums
  import opened RoundStates
  import opened Invariants

  ghost predicate IsValidator(s: RoundState) {
    s.key.Some? && exists i | 0 <= i < |s.vals| :: s.vals[i].address == s.key.value.address
  }

  /** A validator asks its signer for exactly one vote, for this block in the round it was in; others for none. */
  ghost predicate Asks(s: RoundState, t: RoundState, env: Env, kind: VoteType, b: BlockID) {
    if !IsValidator(s) then t.attempts == s.attempts
    else
      && |t.attempts| == |s.attempts| + 1 && s.attempts <= t.attempts
      && var a := t.attempts[|s.attempts|];
      && a.vote.kind == kind && a.vote.height == s.height && a.vote.round == s.round && a.vote.blockID == b
      && a.vote.time == env.voteTime && a.vote.address == s.key.value.address
      && 0 <= a.vote.index < |s.vals| && s.vals[a.vote.index].address == a.vote.address
      && (a.ok <==> env.sign(a.vote.SignBytes(s.chainID)).Some?)
      && (a.ok ==> env.sign(a.vote.SignBytes(s.chainID)) == Some(a.vote.signature))
  }

  /** The step lies ahead of the node. */
  predicate Ahead(s: RoundState, height: int, round: int, step: int) {
    !s.panicked && s.height == height && (s.round < round || (s.round == round && s.step < step))
  }

  predicate Holds(block: Option<Block>, hash: Bytes) { hash != [] && block == Some(Block(hash)) }

  predicate Names(b: BlockID, parts: Option<Parts>) {
    b.parts == if parts.Some? then parts.value.header else ZERO_PARTS
  }

  predicate HasHeader(parts: Option<Parts>, header: PartSetHeader) { parts.Some? && parts.value.header == header }

  // ---------------------------------------------------------------- proposing and preparing

  /** The locked block, else a proposal block that is here and valid, else nil. */
  predicate PrepareFor(s: RoundState, env: Env, b: BlockID) {
    if s.lockedBlock.Some? then b.hash == s.lockedBlock.value.hash && Names(b, s.lockedParts)
    else if s.block.Some? && env.blockOk(s.block.value) then b.hash == s.block.value.hash && Names(b, s.parts)
    else b.IsZero()
  }

  /** Entering prepare asks for one prepare; otherwise nothing happens. */
  ghost predicate ToPrepare(s: RoundState, t: RoundState, env: Env, height: int, round: int) {
    if !Ahead(s, height, round, PREPARE) then t == s
    else
      && t == s.(round := round, step := PREPARE, attempts := t.attempts)
      && exists b :: PrepareFor(s, env, b) && Asks(s, t, env, Prepare, b)
  }

  lemma PrepareAsked(s: RoundState, env: Env, height: int, round: int)
    ensures ToPrepare(s, EnterPrepare(s, env, height, round), env, height, round)
  {
    hide PrepareFor, PrepareChoice, Asks, SignAddVote;
    var b := PrepareChoice(s, env);
    ChoiceMade(s, env);
    Asked(s, env, Prepare, b, round);
    AsksSame(s, s, SignAddVote(s, env, Prepare, b, round), env, Prepare, b);
  }

  lemma ChoiceMade(s: RoundState, env: Env)
    ensures PrepareFor(s, env, PrepareChoice(s, env))
  {
  }

  /** A primary proposes its valid block again, with the round that made it valid; only without one does it propose
      a new block, without a round. Nothing is proposed if there is no block or the signer refuses. */
  ghost predicate Proposes(s: RoundState, t: RoundState, env: Env, round: int) {
    if !env.signProposal || (s.validBlock.None? && env.newBlock.None?) then t.proposals == s.proposals
    else
      && |t.proposals| == |s.proposals| + 1 && s.proposals <= t.proposals
      && var p := t.proposals[|s.proposals|];
      && p.height == s.height && p.round == round
      && (s.validBlock.Some? ==>
            p.blockID.hash == s.validBlock.value.hash && Names(p.blockID, s.validParts) && p.polRound == s.validRound)
      && (s.validBlock.None? ==>
            && p.blockID.hash == env.newBlock.value.0.hash && p.blockID.parts == env.newBlock.value.1
            && p.polRound == s.validRound)
  }

  lemma ProposalMade(s: RoundState, env: Env, round: int)
    ensures var t := DecidePrePrepare(s, env, round);
            Proposes(s, t, env, round) && t == s.(proposals := t.proposals)
  {
  }

  /** Without a valid block there is no POL round. */
  lemma NewBlockHasNoRound(s: RoundState, w: World, facts: set<SigFact>)
    requires !s.panicked && Inv(s, w, facts) && s.validBlock.None?
    ensures s.validRound == -1
  {
  }

  /** Proposal and block are here, and the POL round it names has a majority. */
  predicate Complete(s: RoundState) {
    && s.prePrepare.Some? && s.block.Some?
    && (s.prePrepare.value.polRound >= 0 ==> HV.Polka(s.votes, s.prePrepare.value.polRound).Some?)
  }

  /** Entering pre-prepare starts the clock, makes the primary propose, and goes straight on to prepare exactly when
      the proposal is complete already. */
  ghost predicate ToPrePrepare(s: RoundState, t: RoundState, env: Env, height: int, round: int) {
    if !Ahead(s, height, round, PRE_PREPARE) then t == s
    else
      && t == s.(round := round, step := if Complete(s) then PREPARE else PRE_PREPARE,
                 scheduled := s.scheduled + [TimeoutInfo(height, round, PRE_PREPARE)],
                 proposals := t.proposals, attempts := t.attempts)
      && (if IsValidator(s) && env.primary then Proposes(s, t, env, round) else t.proposals == s.proposals)
      && (if !Complete(s) then t.attempts == s.attempts
          else exists b :: PrepareFor(s, env, b) && Asks(s.(round := round), t, env, Prepare, b))
  }

  lemma PrePrepareEntered(s: RoundState, env: Env, height: int, round: int)
    ensures ToPrePrepare(s, EnterPrePrepare(s, env, height, round), env, height, round)
  {
    hide DecidePrePrepare, EnterPrepare, HV.Polka, PrepareFor, FindAddress;
    var s1 := Schedule(s, round, PRE_PREPARE);
    ProposalMade(s1, env, round);
    var mine := s.key.Some? && FindAddress(s.vals, s.key.value.address) != -1 && env.primary;
    var s2 := (if mine then DecidePrePrepare(s1, env, round) else s1).(round := round, step := PRE_PREPARE);
    PrepareAsked(s2, env, height, round);
    if Ahead(s2, height, round, PREPARE) {
      var b :| PrepareFor(s2, env, b) && Asks(s2, EnterPrepare(s2, env, height, round), env, Prepare, b);
      SameChoice(s, s2, env, b);
    }
  }

  lemma SameChoice(s: RoundState, t: RoundState, env: Env, b: BlockID)
    requires t.lockedBlock == s.lockedBlock && t.lockedParts == s.lockedParts && t.block == s.block && t.parts == s.parts
    ensures PrepareFor(t, env, b) <==> PrepareFor(s, env, b)
  {
  }

  // ---------------------------------------------------------------- rounds

  /** Nothing of an earlier round's proposal is left in a later round; lock, valid block and votes stay. */
  ghost predicate AtRound(s: RoundState, t: RoundState, round: int) {
    && t.round == round && t.height == s.height && !t.triggeredCommitWait && !t.panicked
    && t.lockedRound == s.lockedRound && t.lockedBlock == s.lockedBlock && t.lockedParts == s.lockedParts
    && t.validRound == s.validRound && t.validBlock == s.validBlock && t.validParts == s.validParts
    && (if round == 0 then t.prePrepare == s.prePrepare && t.block == s.block && t.parts == s.parts
        else t.prePrepare == None && t.block == None && t.parts == None)
    && round in t.votes.sets && round + 1 in t.votes.sets && t.votes.round == round + 1
    && (forall r :: HV.Polka(t.votes, r) == HV.Polka(s.votes, r))
    && (forall r | r in s.votes.sets :: r in t.votes.sets && t.votes.sets[r] == s.votes.sets[r])
    && t.appended == s.appended && t.vals == s.vals && t.lastCommits == s.lastCommits && t.replyRound == s.replyRound
    && t.chainID == s.chainID && t.key == s.key
  }

  /** A later round, or round 0 at the start of a height, is entered unless rounds are used up. The node waits for
      transactions only in round 0, if so configured and no proof block is due; otherwise it goes on to
      pre-prepare with its clock started. */
  ghost predicate ToRound(s: RoundState, t: RoundState, env: Env, height: int, round: int) {
    if s.panicked || s.height != height || round < s.round || (round == s.round && s.step != NEW_HEIGHT) then t == s
    else if round >= MAX_INT32 then t.panicked && SameOutputs(s, t)
    else
      && AtRound(s, t, round)
      && if env.waitForTxs && round == 0 && !env.needProofBlock then
           && t.step == NEW_ROUND && t.attempts == s.attempts && t.proposals == s.proposals
           && t.scheduled == s.scheduled + if env.emptyBlockInterval then [TimeoutInfo(height, 0, NEW_ROUND)] else []
         else
           && t.scheduled == s.scheduled + [TimeoutInfo(height, round, PRE_PREPARE)]
           && t.step == (if round == 0 && Complete(s) then PREPARE else PRE_PREPARE)
           && (if IsValidator(s) && env.primary then Proposes(s, t, env, round) else t.proposals == s.proposals)
           && (t.step == PRE_PREPARE ==> t.attempts == s.attempts)
           && (t.step == PREPARE ==> exists b :: PrepareFor(s, env, b) && Asks(s, t, env, Prepare, b))
  }

  predicate SameOutputs(s: RoundState, t: RoundState) {
    && t.attempts == s.attempts && t.proposals == s.proposals && t.appended == s.appended && t.scheduled == s.scheduled
    && t.height == s.height
  }

  lemma RoundEntered(s: RoundState, env: Env, height: int, round: int, w: World)
    requires Inv(s, w, env.scheme)
    ensures ToRound(s, EnterNewRound(s, env, height, round), env, height, round)
  {
    hide HV.SetRound, HV.Valid, HV.AllSigned, VS.Valid, EnterPrePrepare, Proposes, PrepareFor, Asks, LocksOk, TimersOk,
         PositionsOk, LockDiscipline, StartRound, IsValidator, HV.Polka, Inv;
    if !s.panicked && s.height == height && s.round <= round && (round == s.round ==> s.step == NEW_HEIGHT) {
      RoundStarted(s, round, w, env.scheme);
      InvLocks(s, w, env.scheme);
      var s1 := StartRound(s, round);
      if !s1.panicked {
        assert s1.(round := round) == s1;
        CompleteStarted(s, s1, round);
        ProposesStarted(s, s1, env, round);
        PrePrepareEntered(s1, env, height, round);
      }
    }
  }

  lemma RoundStarted(s: RoundState, round: int, w: World, facts: set<SigFact>)
    requires Inv(s, w, facts) && !s.panicked && s.round <= round
    ensures var t := StartRound(s, round);
            && (t.panicked <==> round >= MAX_INT32)
            && (t.panicked ==> SameOutputs(s, t))
            && (!t.panicked ==>
                  && AtRound(s, t, round) && t.step == NEW_ROUND && t.chainID == s.chainID && t.key == s.key && t.vals == s.vals
                  && t.attempts == s.attempts && t.proposals == s.proposals && t.scheduled == s.scheduled)
  {
    hide HV.AllSigned, VS.Valid, LocksOk, TimersOk, PositionsOk, LockDiscipline, HV.SetRound, HV.Polka;
    if round < MAX_INT32 {
      HV.SetRoundKeeps(s.votes, round + 1, facts);
      HV.SetRoundAdds(s.votes, round + 1);
    }
  }

  lemma CompleteStarted(s: RoundState, t: RoundState, round: int)
    requires AtRound(s, t, round)
    ensures Complete(t) <==> round == 0 && Complete(s)
  {
  }

  lemma ProposesStarted(s: RoundState, s1: RoundState, env: Env, round: int)
    requires AtRound(s, s1, round) && s1.proposals == s.proposals
    requires s1.attempts == s.attempts && s1.chainID == s.chainID && s1.key == s.key && round == s1.round
    ensures forall t :: Proposes(s1, t, env, round) <==> Proposes(s, t, env, round)
    ensures IsValidator(s1) <==> IsValidator(s)
    ensures round == 0 ==> forall b :: PrepareFor(s1, env, b) <==> PrepareFor(s, env, b)
    ensures round == s.round ==> forall t, b :: Asks(s1, t, env, Prepare, b) <==> Asks(s, t, env, Prepare, b)
  {
  }

  /** Waiting for more prepares starts one clock. */
  predicate ToPrepareWait(s: RoundState, t: RoundState, height: int, round: int) {
    t == if !Ahead(s, height, round, PREPARE_WAIT) then s
         else s.(round := round, step := PREPARE_WAIT, scheduled := s.scheduled + [TimeoutInfo(height, round, PREPARE_WAIT)])
  }

  lemma PrepareWaitEntered(s: RoundState, height: int, round: int)
    ensures ToPrepareWait(s, EnterPrepareWait(s, height, round), height, round)
  {
  }

  // ---------------------------------------------------------------- committing

  /** Where the lock goes when commit is entered, and the block to vote for: with a majority for a block that is
      locked or here, that block, locked at this round; with a majority for anything else, nil, and no lock, the
      block being fetched if it is unknown; without a majority, nil, and the lock stays. */
  ghost predicate CommitsFor(s: RoundState, t: RoundState, round: int, b: BlockID) {
    match HV.Polka(s.votes, round)
    case None => b.IsZero() && SameLock(s, t) && t.block == s.block && t.parts == s.parts
    case Some(polka) =>
      if Holds(s.lockedBlock, polka.hash) then
        && b == polka && t.lockedRound == round && t.lockedBlock == s.lockedBlock && t.lockedParts == s.lockedParts
        && t.block == s.block && t.parts == s.parts
      else if Holds(s.block, polka.hash) then
        && b == polka && t.lockedRound == round && t.lockedBlock == s.block && t.lockedParts == s.parts
        && t.block == s.block && t.parts == s.parts
      else
        && b.IsZero() && t.lockedRound == -1 && t.lockedBlock == None && (s.lockedBlock.Some? ==> t.lockedParts == None)
        && (if polka.hash == [] || HasHeader(s.parts, polka.parts) then t.block == s.block && t.parts == s.parts
            else t.block == None && HasHeader(t.parts, polka.parts))
  }

  predicate SameLock(s: RoundState, t: RoundState) {
    t.lockedRound == s.lockedRound && t.lockedBlock == s.lockedBlock && t.lockedParts == s.lockedParts
  }

  /** The node stops on a majority for a block it holds, is not locked on and finds invalid. */
  ghost predicate InvalidWon(s: RoundState, env: Env, round: int) {
    && HV.Polka(s.votes, round).Some? && s.block.Some? && Holds(s.block, HV.Polka(s.votes, round).value.hash)
    && !Holds(s.lockedBlock, HV.Polka(s.votes, round).value.hash) && !env.blockOk(s.block.value)
  }

  ghost predicate ToCommit(s: RoundState, t: RoundState, env: Env, height: int, round: int) {
    if !Ahead(s, height, round, COMMIT) then t == s
    else if InvalidWon(s, env, round) then t == s.(panicked := true)
    else
      && t == s.(step := COMMIT, attempts := t.attempts, lockedRound := t.lockedRound, lockedBlock := t.lockedBlock,
                 lockedParts := t.lockedParts, block := t.block, parts := t.parts)
      && exists b :: CommitsFor(s, t, round, b) && Asks(s, t, env, Commit, b)
  }

  lemma CommitAsked(s: RoundState, env: Env, height: int, round: int, w: World)
    requires Inv(s, w, env.scheme) && (!s.panicked ==> round <= s.round)
    ensures ToCommit(s, EnterCommit(s, env, height, round), env, height, round)
  {
    hide HV.Polka, PolRound, SignAddVote, Inv, Asks, CommitChoice, InvalidWon;
    if Ahead(s, height, round, COMMIT) {
      InvLocks(s, w, env.scheme);
      if HV.Polka(s.votes, round).Some? { PolPanicUnreachable(s, round, w, env.scheme); }
      LockChosen(s, env, round);
      var (s1, b) := CommitChoice(s, env, round);
      if !s1.panicked {
        Asked(s1, env, Commit, b, round);
        AsksSame(s, s1, SignAddVote(s1, env, Commit, b, round), env, Commit, b);
      }
    }
  }

  lemma LockChosen(s: RoundState, env: Env, round: int)
    requires !s.panicked && LocksOk(s) && (HV.Polka(s.votes, round).Some? ==> round <= PolRound(s.votes, s.votes.round))
    ensures var (t, b) := CommitChoice(s, env, round);
            if InvalidWon(s, env, round) then t == s.(panicked := true)
            else
              && t == s.(lockedRound := t.lockedRound, lockedBlock := t.lockedBlock, lockedParts := t.lockedParts,
                         block := t.block, parts := t.parts)
              && CommitsFor(s, t, round, b)
  {
    hide HV.Polka, PolRound, FetchBlock, LockBlock;
    if HV.Polka(s.votes, round).Some? { BlockFetched(s, HV.Polka(s.votes, round).value); }
    BlockLocked(s, round);
  }

  lemma BlockFetched(s: RoundState, b: BlockID)
    ensures var t := FetchBlock(s, b);
            && t == s.(lockedRound := -1, lockedBlock := None, lockedParts := None, block := t.block, parts := t.parts)
            && (if HasHeader(s.parts, b.parts) then t.block == s.block && t.parts == s.parts
                else t.block == None && HasHeader(t.parts, b.parts))
  {
  }

  lemma BlockLocked(s: RoundState, round: int)
    ensures LockBlock(s, round) == s.(lockedRound := round, lockedBlock := s.block, lockedParts := s.parts)
  {
  }

  lemma Asked(s: RoundState, env: Env, kind: VoteType, b: BlockID, enteredFor: int)
    ensures var t := SignAddVote(s, env, kind, b, enteredFor); Asks(s, t, env, kind, b) && t == s.(attempts := t.attempts)
  {
  }

  lemma AsksSame(s: RoundState, s1: RoundState, t: RoundState, env: Env, kind: VoteType, b: BlockID)
    requires s1.chainID == s.chainID && s1.key == s.key && s1.vals == s.vals && s1.height == s.height && s1.round == s.round
    requires s1.attempts == s.attempts && Asks(s1, t, env, kind, b)
    ensures forall u: RoundState | u.attempts == t.attempts :: Asks(s, u, env, kind, b)
  {
  }

  /** With two thirds of commits, one clock is started per round. */
  predicate ToCommitWait(s: RoundState, t: RoundState, height: int, round: int) {
    t == if s.panicked || s.height != height || round < s.round || (s.round == round && s.triggeredCommitWait) then s
         else s.(triggeredCommitWait := true, scheduled := s.scheduled + [TimeoutInfo(height, round, COMMIT_WAIT)])
  }

  lemma CommitWaitEntered(s: RoundState, height: int, round: int)
    requires HasTwoThirdsAny(s.votes, round, Commit)
    ensures ToCommitWait(s, EnterCommitWait(s, height, round), height, round)
  {
    hide HasTwoThirdsAny;
  }

  // ---------------------------------------------------------------- finishing a height

  /** The next height starts from nothing but the commits that finished this one. */
  ghost predicate NextHeight(s: RoundState, t: RoundState, env: Env) {
    && t.height == s.height + 1 && t.round == 0 && t.step == NEW_HEIGHT && t.vals == env.nextVals && !t.panicked
    && t.prePrepare == None && t.block == None && t.parts == None
    && t.lockedRound == -1 && t.lockedBlock == None && t.lockedParts == None
    && t.validRound == -1 && t.validBlock == None && t.validParts == None
    && t.replyRound == -1 && !t.triggeredCommitWait
    && s.replyRound in s.votes.sets && t.lastCommits == Some(s.votes.sets[s.replyRound].commits)
    && t.votes.chainID == s.chainID && t.votes.height == t.height && t.votes.vals == t.vals && t.votes.round == 0
    && t.votes.sets.Keys == {0} && t.votes.catchup == map[]
    && t.votes.sets[0].prepares.bits == t.votes.sets[0].commits.bits == {}
    && t.scheduled == s.scheduled + [TimeoutInfo(t.height, 0, NEW_HEIGHT)]
    && t.attempts == s.attempts && t.proposals == s.proposals && t.appended == s.appended
    && t.chainID == s.chainID && t.key == s.key
  }

  lemma HeightFinished(s: RoundState, env: Env)
    requires !s.panicked
    ensures var t := UpdateToState(s, env);
            if HV.CommitMajority(s.votes, s.replyRound).Some? then NextHeight(s, t, env) else t == s.(panicked := true)
  {
  }

  /** Everything that appending the winner `b` needs. */
  ghost predicate Appendable(s: RoundState, env: Env, round: int, b: BlockID) {
    && Holds(s.block, b.hash) && HasHeader(s.parts, b.parts) && env.blockOk(s.block.value)
    && (env.stored || Certifiable(s.votes, round))
  }

  /** The winner is appended and, if the application takes it, the node moves to the next height. */
  ghost predicate Appends(s: RoundState, t: RoundState, env: Env, hash: Bytes) {
    var s1 := s.(appended := s.appended + [Appended(s.height, hash)]);
    if env.applyOk then NextHeight(s1, t, env) else t == s1
  }

  /** In reply, the winner is appended if it is here and awaited if not; a winner that cannot be appended stops the
      node. */
  ghost predicate ToAppend(s: RoundState, t: RoundState, env: Env) {
    match HV.CommitMajority(s.votes, s.replyRound)
    case None => t == s
    case Some(b) =>
      if !Holds(s.block, b.hash) then t == s
      else if !Appendable(s, env, s.replyRound, b) then t == s.(panicked := true)
      else Appends(s, t, env, b.hash)
  }

  lemma AppendTried(s: RoundState, env: Env, height: int)
    requires !s.panicked && s.height == height && s.step == REPLY
    ensures ToAppend(s, TryFinalizeAppend(s, env, height), env)
  {
    hide UpdateToState, Certifiable, NextHeight, HV.CommitMajority;
    var maj := HV.CommitMajority(s.votes, s.replyRound);
    if maj.Some? && Holds(s.block, maj.value.hash) {
      HeightFinished(s.(appended := s.appended + [Appended(height, maj.value.hash)]), env);
    }
  }

  /** A block with a commit majority is looked for in the lock, then in the proposal. */
  ghost predicate Found(s: RoundState, u: RoundState, round: int, b: BlockID) {
    && u == s.(step := REPLY, replyRound := round, block := u.block, parts := u.parts)
    && (if Holds(s.lockedBlock, b.hash) then u.block == s.lockedBlock && u.parts == s.lockedParts
        else if Holds(s.block, b.hash) || HasHeader(s.parts, b.parts) then u.block == s.block && u.parts == s.parts
        else u.block == None && HasHeader(u.parts, b.parts))
  }

  /** Entering reply with a majority for a block: it is appended if it is here, and awaited otherwise. */
  ghost predicate ToReply(s: RoundState, t: RoundState, env: Env, height: int, round: int, b: BlockID) {
    if s.panicked || s.height != height || REPLY <= s.step then t == s
    else exists u :: Found(s, u, round, b) && ToAppend(u, t, env)
  }

  lemma ReplyEntered(s: RoundState, env: Env, height: int, round: int, b: BlockID)
    requires HV.CommitMajority(s.votes, round) == Some(b)
    ensures ToReply(s, EnterReply(s, env, height, round), env, height, round, b)
  {
    hide TryFinalizeAppend, Certifiable, HV.CommitMajority, ToAppend;
    if !s.panicked && s.height == height && s.step < REPLY {
      var u := Awaiting(s, b).(step := REPLY, replyRound := round);
      AppendTried(u, env, height);
      assert Found(s, u, round, b);
    }
  }

  // ---------------------------------------------------------------- proposals and blocks

  /** The first proposal for the present height and round is taken, if its POL round is before it and its signature
      is good; its part header is what the block is collected for unless parts are being collected already. */
  predicate Takes(s: RoundState, p: PrePrepare, signatureOk: bool) {
    && s.prePrepare.None? && p.height == s.height && p.round == s.round
    && (p.polRound == -1 || 0 <= p.polRound < p.round) && signatureOk
  }

  predicate Collecting(parts: Option<Parts>, header: PartSetHeader) {
    HasHeader(parts, header) && (parts.value.complete <==> header.total == 0)
  }

  ghost predicate ToProposal(s: RoundState, t: RoundState, p: PrePrepare, signatureOk: bool) {
    if !Takes(s, p, signatureOk) then t == s
    else
      && t == s.(prePrepare := Some(p), parts := t.parts)
      && (if s.parts.Some? then t.parts == s.parts else Collecting(t.parts, p.blockID.parts))
  }

  lemma ProposalTaken(s: RoundState, p: PrePrepare, signatureOk: bool)
    ensures ToProposal(s, SetPrePrepare(s, p, signatureOk), p, signatureOk)
  {
  }

  /** A majority of prepares releases the lock if it is later than the lock and for something else; one of the present
      round makes its block the valid one if it is here, and the one to collect if it is not. */
  ghost predicate Notes(s: RoundState, t: RoundState, round: int, b: BlockID) {
    && t == s.(lockedRound := t.lockedRound, lockedBlock := t.lockedBlock, lockedParts := t.lockedParts,
               validRound := t.validRound, validBlock := t.validBlock, validParts := t.validParts,
               block := t.block, parts := t.parts)
    && (if s.lockedBlock.Some? && s.lockedRound < round <= s.round && !Holds(s.lockedBlock, b.hash)
        then t.lockedRound == -1 && t.lockedBlock == None && t.lockedParts == None
        else SameLock(s, t))
    && (if b.hash == [] || round != s.round || round <= s.validRound then
          SameValid(s, t) && t.block == s.block && t.parts == s.parts
        else if Holds(s.block, b.hash) then
          && t.validRound == round && t.validBlock == s.block && t.validParts == s.parts && t.block == s.block
          && (if HasHeader(s.parts, b.parts) then t.parts == s.parts else Collecting(t.parts, b.parts))
        else
          && SameValid(s, t) && t.block == None
          && (if HasHeader(s.parts, b.parts) then t.parts == s.parts else Collecting(t.parts, b.parts)))
  }

  predicate SameValid(s: RoundState, t: RoundState) {
    t.validRound == s.validRound && t.validBlock == s.validBlock && t.validParts == s.validParts
  }

  lemma MajorityNoted(s: RoundState, round: int, b: BlockID)
    ensures Notes(s, OnPolka(s, round, b), round, b)
  {
    hide ReleaseOnPolka, ValidOnPolka;
    LockReleased(s, round, b);
    ValidNoted(ReleaseOnPolka(s, round, b), round, b);
  }

  lemma LockReleased(s: RoundState, round: int, b: BlockID)
    ensures var t := ReleaseOnPolka(s, round, b);
            if s.lockedBlock.Some? && s.lockedRound < round <= s.round && !Holds(s.lockedBlock, b.hash)
            then t == s.(lockedRound := -1, lockedBlock := None, lockedParts := None)
            else t == s
  {
  }

  lemma ValidNoted(s: RoundState, round: int, b: BlockID)
    ensures var t := ValidOnPolka(s, round, b);
            if b.hash == [] || round != s.round || round <= s.validRound then t == s
            else
              && (if HasHeader(s.parts, b.parts) then t.parts == s.parts else Collecting(t.parts, b.parts))
              && (if Holds(s.block, b.hash)
                  then t == s.(validRound := round, validBlock := s.block, validParts := s.parts, parts := t.parts)
                  else t == s.(block := None, parts := t.parts))
  {
  }

  /** The block is here, and is valid if the present round's prepares have a majority for it. */
  ghost predicate Received(s: RoundState, t: RoundState, b: Block) {
    && t == s.(block := Some(b), parts := t.parts, validRound := t.validRound, validBlock := t.validBlock,
               validParts := t.validParts)
    && s.parts.Some? && t.parts == Some(s.parts.value.(complete := true))
    && var polka := HV.Polka(s.votes, s.round);
    if polka.Some? && Holds(Some(b), polka.value.hash) && s.validRound < s.round
    then t.validRound == s.round && t.validBlock == Some(b) && t.validParts == t.parts
    else SameValid(s, t)
  }

  /** A completed block leads a node that waits for its proposal into prepare, and on into commit if the majority is
      there already; a node in reply appends it if it won. */
  ghost predicate ToBlock(s: RoundState, t: RoundState, env: Env, height: int) {
    if s.step <= PRE_PREPARE && Complete(s) then
      exists u :: ToPrepare(s, u, env, height, s.round)
                  && if HV.Polka(s.votes, s.round).Some? then ToCommit(u, t, env, height, s.round) else t == u
    else if s.step == REPLY then ToAppend(s, t, env)
    else t == s
  }

  lemma BlockActsOn(s: RoundState, env: Env, height: int, w: World)
    requires !s.panicked && Inv(s, w, env.scheme) && s.height == height
    ensures ToBlock(s, OnBlock(s, env, height), env, height)
  {
    hide Inv, EnterPrepare, EnterCommit, TryFinalizeAppend, HV.Polka, ToPrepare, ToCommit, ToAppend, Follows;
    if s.step <= PRE_PREPARE && Complete(s) {
      PrepareAsked(s, env, height, s.round);
      EnterPrepareKeeps(s, env, height, s.round, w);
      var u := EnterPrepare(s, env, height, s.round);
      CommitAsked(u, env, height, u.round, w);
    } else if s.step == REPLY {
      AppendTried(s, env, height);
    }
  }

  ghost predicate ToPart(s: RoundState, t: RoundState, env: Env, height: int, outcome: PartOutcome) {
    if s.height != height || s.parts.None? || s.parts.value.complete || !outcome.Completed? then t == s
    else if outcome.tooLarge || outcome.decoded.None? then t == s.(parts := Some(s.parts.value.(complete := true)))
    else exists u :: Received(s, u, outcome.decoded.value) && ToBlock(u, t, env, height)
  }

  lemma PartReceived(s: RoundState, env: Env, height: int, outcome: PartOutcome, w: World)
    requires !s.panicked && Inv(s, w, env.scheme)
    ensures ToPart(s, AddBlockPart(s, env, height, outcome), env, height, outcome)
  {
    hide Inv, OnBlock, HV.Polka, ToBlock, Follows;
    if s.height == height && s.parts.Some? && !s.parts.value.complete && outcome.Completed? && !outcome.tooLarge
       && outcome.decoded.Some? {
      var s1 := s.(parts := Some(s.parts.value.(complete := true)), block := outcome.decoded);
      var u := NoteValid(s1);
      QuietKeeps(s, s1, w, env.scheme);
      NoteValidKeeps(s1, w, env.scheme);
      BlockActsOn(u, env, height, w);
      assert Received(s, u, outcome.decoded.value);
    }
  }

  // ---------------------------------------------------------------- votes

  ghost predicate NotesMajority(s: RoundState, t: RoundState, round: int) {
    match HV.Polka(s.votes, round)
    case None => t == s
    case Some(b) => Notes(s, t, round, b)
  }

  /** Where a prepare that was added leads: two thirds of a later round take the node there; in the present round a
      majority leads to commit once the proposal is complete or the majority is for nil, and two thirds of anything
      start the wait; a majority that a proposal names as its POL round leads to prepare. */
  ghost predicate ToPrepares(s: RoundState, t: RoundState, env: Env, round: int) {
    exists u :: NotesMajority(s, u, round) &&
      var polka := HV.Polka(s.votes, round);
      var any := HasTwoThirdsAny(s.votes, round, Prepare);
      if s.round < round then if any then ToRound(u, t, env, s.height, round) else AwaitsPol(u, t, env, round)
      else if s.round == round && PREPARE <= s.step then
        if polka.Some? && (Complete(u) || polka.value.hash == []) then ToCommit(u, t, env, s.height, round)
        else if any then ToPrepareWait(u, t, s.height, round)
        else t == u
      else AwaitsPol(u, t, env, round)
  }

  ghost predicate AwaitsPol(s: RoundState, t: RoundState, env: Env, round: int) {
    if 0 <= round && s.prePrepare.Some? && s.prePrepare.value.polRound == round && Complete(s)
    then ToPrepare(s, t, env, s.height, s.round)
    else t == s
  }

  lemma PrepareCounted(s: RoundState, env: Env, round: int, w: World)
    requires !s.panicked && Inv(s, w, env.scheme)
    ensures ToPrepares(s, OnPrepare(s, env, s.height, round), env, round)
  {
    hide Inv, Follows, OnPolka, EnterNewRound, EnterCommit, EnterPrepare, EnterPrepareWait, HV.Polka, HasTwoThirdsAny,
         ToRound, ToCommit, ToPrepare, ToPrepareWait;
    var polka := HV.Polka(s.votes, round);
    var u := if polka.Some? then OnPolka(s, round, polka.value) else s;
    if polka.Some? {
      MajorityNoted(s, round, polka.value);
      OnPolkaKeeps(s, round, polka.value, w, env.scheme);
    }
    RoundEntered(u, env, s.height, round, w);
    if round <= u.round { CommitAsked(u, env, s.height, round, w); }
    PrepareWaitEntered(u, s.height, round);
    PrepareAsked(u, env, s.height, u.round);
    assert NotesMajority(s, u, round);
  }

  /** Where a commit that was added leads: a majority takes the node through the steps it has not reached to reply, or
      for nil to the wait for the next round; two thirds of anything in this or a later round start that wait. */
  ghost predicate ToCommits(s: RoundState, t: RoundState, env: Env, round: int) {
    match HV.CommitMajority(s.votes, round)
    case Some(b) =>
      exists r, c :: (&& ToRound(s, r, env, s.height, round) && ToCommit(r, c, env, s.height, round)
                      && if b.hash == [] then ToCommitWait(c, t, s.height, round) else ToWon(s, c, t, env, round, b))
    case None =>
      if s.round <= round && HasTwoThirdsAny(s.votes, round, Commit)
      then exists r :: ToRound(s, r, env, s.height, round) && ToCommitWait(r, t, s.height, round)
      else t == s
  }

  /** The winner is appended or awaited; with all commits in hand and no pause configured, the next round 0 starts. */
  ghost predicate ToWon(s: RoundState, c: RoundState, t: RoundState, env: Env, round: int, b: BlockID) {
    exists e :: (&& ToReply(c, e, env, s.height, round, b)
                 && if env.skipTimeoutReply && round in s.votes.sets && VS.HasAll(s.votes.sets[round].commits)
                    then ToRound(e, t, env, e.height, 0) else t == e)
  }

  lemma CommitCounted(s: RoundState, env: Env, round: int, w: World)
    requires !s.panicked && Inv(s, w, env.scheme)
    requires env.nextVals == w.valsAt(s.height + 1) && NonNegative(env.nextVals)
    ensures ToCommits(s, OnCommit(s, env, s.height, round), env, round)
  {
    hide Inv, Follows, EnterNewRound, EnterCommit, EnterReply, EnterCommitWait, HV.CommitMajority, HasTwoThirdsAny,
         ToRound, ToCommit, ToReply, ToCommitWait, VS.HasAll, HV.Valid, ToWon;
    var maj := HV.CommitMajority(s.votes, round);
    RoundEntered(s, env, s.height, round, w);
    EnterNewRoundKeeps(s, env, s.height, round, w);
    var r := EnterNewRound(s, env, s.height, round);
    CommitsStay(s, r, env, round);
    if maj.Some? {
      RoundReached(s, r, env, s.height, round, w);
      InvVotes(s, w, env.scheme);
      CommitMajorityAny(s.votes, round);
      MajorityLeads(s, r, env, round, w);
    } else if s.round <= round && HasTwoThirdsAny(s.votes, round, Commit) {
      CommitWaitAny(s, r, s.height, round);
      assert ToRound(s, r, env, s.height, round) && ToCommitWait(r, OnCommit(s, env, s.height, round), s.height, round);
    }
  }

  lemma CommitsStay(s: RoundState, r: RoundState, env: Env, round: int)
    requires ToRound(s, r, env, s.height, round) && !s.panicked
    ensures !r.panicked ==>
              && (HV.CommitMajority(s.votes, round).Some? ==> HV.CommitMajority(r.votes, round) == HV.CommitMajority(s.votes, round))
              && (HasTwoThirdsAny(s.votes, round, Commit) ==> HasTwoThirdsAny(r.votes, round, Commit))
  {
    hide Proposes, PrepareFor, Asks, IsValidator, Complete, HV.Polka;
  }

  lemma CommitWaitAny(s: RoundState, r: RoundState, height: int, round: int)
    requires HasTwoThirdsAny(s.votes, round, Commit) && (!r.panicked ==> HasTwoThirdsAny(r.votes, round, Commit))
    ensures ToCommitWait(r, EnterCommitWait(r, height, round), height, round)
  {
    hide HasTwoThirdsAny;
    if !r.panicked { CommitWaitEntered(r, height, round); }
  }

  lemma MajorityLeads(s: RoundState, r: RoundState, env: Env, round: int, w: World)
    requires !s.panicked && Inv(s, w, env.scheme) && Inv(r, w, env.scheme) && r == EnterNewRound(s, env, s.height, round)
    requires env.nextVals == w.valsAt(s.height + 1) && NonNegative(env.nextVals)
    requires HV.CommitMajority(s.votes, round).Some? && (!r.panicked ==> round <= r.round) && r.height == s.height
    requires ToRound(s, r, env, s.height, round)
    requires !r.panicked ==>
               HV.CommitMajority(r.votes, round) == HV.CommitMajority(s.votes, round) && HasTwoThirdsAny(r.votes, round, Commit)
    ensures ToCommits(s, OnCommit(s, env, s.height, round), env, round)
  {
    hide Inv, Follows, EnterNewRound, EnterCommit, EnterReply, EnterCommitWait, HV.CommitMajority, HasTwoThirdsAny,
         ToRound, ToCommit, ToReply, ToCommitWait, VS.HasAll, HV.Valid;
    var b := HV.CommitMajority(s.votes, round).value;
    CommitAsked(r, env, s.height, round, w);
    EnterCommitKeeps(r, env, s.height, round, w);
    CommitAfterPanic(r, env, s.height, round);
    var c := EnterCommit(r, env, s.height, round);
    if b.hash == [] {
      if !c.panicked { CommitWaitEntered(c, s.height, round); }
      else { WaitAfterPanic(c, s.height, round); }
    } else {
      if !c.panicked { ReplyEntered(c, env, s.height, round, b); }
      else { ReplyAfterPanic(c, env, s.height, round, b); }
      EnterReplyKeeps(c, env, s.height, round, w);
      var e := EnterReply(c, env, s.height, round);
      RoundEntered(e, env, e.height, 0, w);
      SetsOf(s, round);
      assert ToReply(c, e, env, s.height, round, b);
    }
  }

  lemma SetsOf(s: RoundState, round: int)
    requires HV.CommitMajority(s.votes, round).Some?
    ensures round in s.votes.sets && HV.Get(s.votes, round, Commit) == Some(s.votes.sets[round].commits)
  {
  }

  lemma WaitAfterPanic(s: RoundState, height: int, round: int)
    requires s.panicked
    ensures ToCommitWait(s, EnterCommitWait(s, height, round), height, round)
  {
  }

  lemma ReplyAfterPanic(s: RoundState, env: Env, height: int, round: int, b: BlockID)
    requires s.panicked
    ensures ToReply(s, EnterReply(s, env, height, round), env, height, round, b)
  {
  }

  /** A vote of this height joins the round's votes; a commit of the last height joins that height's, as long as this one
      has not begun, and with all of them in hand and no pause configured round 0 starts; all other votes do
      nothing. A vote that is not added leads nowhere. */
  ghost predicate ToVote(s: RoundState, t: RoundState, env: Env, v: Vote, peer: VS.Peer)
    requires Shaped(s)
  {
    if v.height == s.height then
      var (votes, added, _) := HV.AddVote(s.votes, env.scheme, v, peer);
      var u := s.(votes := votes);
      if !added then t == u
      else if v.kind == Prepare then ToPrepares(u, t, env, v.round)
      else ToCommits(u, t, env, v.round)
    else if v.height + 1 == s.height && v.kind == Commit && s.step == NEW_HEIGHT then
      if s.lastCommits.None? then t == s.(panicked := true)
      else
        var res := VS.AddVote(s.lastCommits.value, env.scheme, v);
        var u := s.(lastCommits := Some(res.state));
        if res.added && env.skipTimeoutReply && VS.HasAll(res.state) then ToRound(u, t, env, s.height, 0) else t == u
    else t == s
  }

  lemma VoteHandled(s: RoundState, env: Env, v: Vote, peer: VS.Peer, w: World)
    requires !s.panicked && Inv(s, w, env.scheme) && Shaped(s)
    requires env.nextVals == w.valsAt(s.height + 1) && NonNegative(env.nextVals)
    ensures ToVote(s, AddVote(s, env, v, peer), env, v, peer)
  {
    hide Inv, Follows, HV.AddVote, VS.AddVote, OnPrepare, OnCommit, EnterNewRound, ToPrepares, ToCommits, ToRound, HV.Valid,
         HV.AllSigned, VS.Valid, VS.HasAll;
    InvVotes(s, w, env.scheme);
    if v.height == s.height {
      HV.AddVoteKeeps(s.votes, env.scheme, v, peer);
      var (votes, added, _) := HV.AddVote(s.votes, env.scheme, v, peer);
      VotesGrow(s, votes, w, env.scheme);
      PrepareCounted(s.(votes := votes), env, v.round, w);
      CommitCounted(s.(votes := votes), env, v.round, w);
    } else if v.height + 1 == s.height && v.kind == Commit && s.step == NEW_HEIGHT && s.lastCommits.Some? {
      VS.AddVoteKeeps(s.lastCommits.value, env.scheme, v);
      var u := s.(lastCommits := Some(VS.AddVote(s.lastCommits.value, env.scheme, v).state));
      LastCommitsKeep(s, u, w, env.scheme);
      RoundEntered(u, env, s.height, 0, w);
    }
  }

  // ---------------------------------------------------------------- timeouts and transactions

  /** Each timeout that is not behind the node takes it into the step that was waited for. */
  ghost predicate ToTimeout(s: RoundState, t: RoundState, env: Env, ti: TimeoutInfo) {
    if ti.height != s.height || !LexLe(0, s.round, s.step, 0, ti.round, ti.step) then t == s
    else if ti.step == NEW_HEIGHT then ToRound(s, t, env, ti.height, 0)
    else if ti.step == NEW_ROUND then ToPrePrepare(s, t, env, ti.height, 0)
    else if ti.step == PRE_PREPARE then ToPrepare(s, t, env, ti.height, ti.round)
    else if ti.step == PREPARE_WAIT then ToCommit(s, t, env, ti.height, ti.round)
    else if ti.step == COMMIT_WAIT then
      exists c :: ToCommit(s, c, env, ti.height, ti.round) && ToRound(c, t, env, ti.height, ti.round + 1)
    else t == s.(panicked := true)
  }

  lemma TimeoutHandled(s: RoundState, env: Env, ti: TimeoutInfo, w: World)
    requires !s.panicked && Inv(s, w, env.scheme) && ti in s.scheduled
    ensures ToTimeout(s, HandleTimeout(s, env, ti), env, ti)
  {
    hide Inv, Follows, EnterNewRound, EnterPrePrepare, EnterPrepare, EnterCommit, ToRound, ToPrePrepare, ToPrepare, ToCommit;
    if ti.height == s.height {
      DeliveredRound(s, ti, w, env.scheme);
      RoundEntered(s, env, ti.height, 0, w);
      PrePrepareEntered(s, env, ti.height, 0);
      PrepareAsked(s, env, ti.height, ti.round);
      CommitAsked(s, env, ti.height, ti.round, w);
      EnterCommitKeeps(s, env, ti.height, ti.round, w);
      RoundEntered(EnterCommit(s, env, ti.height, ti.round), env, ti.height, ti.round + 1, w);
    }
  }

  /** No timeout is lost on a running node: whatever step of the present round it was set for, the node is past that
      step afterwards, and has asked for the vote that goes with it; the last one takes it to the next round. */
  lemma TimeoutMovesOn(s: RoundState, env: Env, ti: TimeoutInfo, w: World)
    requires !s.panicked && Inv(s, w, env.scheme) && ti in s.scheduled && Shaped(s)
    requires ti.height == s.height && ti.round == s.round && s.step <= ti.step
    ensures var t := Handle(s, env, Timeout(ti));
            || t.panicked
            || (ti.step == NEW_HEIGHT && t.round == s.round && t.step > NEW_HEIGHT)
            || (ti.step == NEW_ROUND && (s.round == 0 ==> t.round == 0 && t.step >= PRE_PREPARE))
            || (ti.step == PRE_PREPARE && t.round == s.round && t.step == PREPARE && exists b :: Asks(s, t, env, Prepare, b))
            || (ti.step == PREPARE_WAIT && t.round == s.round && t.step == COMMIT && exists b :: Asks(s, t, env, Commit, b))
            || (ti.step == COMMIT_WAIT && t.round == s.round + 1)
  {
    hide Inv, HandleTimeout, Shaped, Asks, PrepareFor, CommitsFor, InvalidWon, HV.Polka, Proposes, Complete, IsValidator;
    InvRound(s, w, env.scheme);
    RoundZero(s, w, env.scheme);
    TimeoutHandled(s, env, ti, w);
  }

  lemma RoundZero(s: RoundState, w: World, facts: set<SigFact>)
    requires !s.panicked && Inv(s, w, facts)
    ensures NEW_HEIGHT <= s.step && (s.step == NEW_HEIGHT ==> s.round == 0)
  {
  }

  /** New transactions make a node that waits for them in round 0 propose; before round 0 has begun they set a timeout
      for it, unless a proof block is due anyway. */
  ghost predicate ToTransactions(s: RoundState, t: RoundState, env: Env) {
    if s.round == 0 && s.step == NEW_ROUND then ToPrePrepare(s, t, env, s.height, 0)
    else if s.round == 0 && s.step == NEW_HEIGHT && !env.needProofBlock
    then t == s.(scheduled := s.scheduled + [TimeoutInfo(s.height, 0, NEW_ROUND)])
    else t == s
  }

  lemma TransactionsHandled(s: RoundState, env: Env)
    ensures ToTransactions(s, HandleTxsAvailable(s, env), env)
  {
    hide EnterPrePrepare, ToPrePrepare;
    PrePrepareEntered(s, env, s.height, 0);
  }

  /** Two thirds of anything is measured by the sum of the round's votes of that type. */
  lemma AnyMeasured(votes: HV.HeightVotes, round: int, kind: VoteType)
    ensures HasTwoThirdsAny(votes, round, kind) <==>
              round in votes.sets
              && 3.0 * (if kind == Prepare then votes.sets[round].prepares.sum else votes.sets[round].commits.sum) > 20.0
  {
  }

  /** A certificate can be made in any round with a commit majority whose votes are all for nil or for a complete block
      identifier. */
  lemma CertifiableIff(votes: HV.HeightVotes, round: int)
    requires HV.Valid(votes)
    ensures Certifiable(votes, round) <==>
              && round in votes.sets && votes.sets[round].commits.maj23.Some?
              && var held := votes.sets[round].commits.votes;
              forall i | 0 <= i < |held| && held[i].Some? ::
                held[i].value.blockID == NIL_BLOCK || held[i].value.blockID.IsComplete()
  {
    hide Certificates.MakeReply;
    if round in votes.sets {
      assert HV.RoundOk(votes, round);
      Certificates.MakeReplyIff(votes.sets[round].commits);
    }
  }

  /** Two thirds of the votes of a later round, prepares or commits, take the node to that round. */
  lemma LaterRoundJoined(s: RoundState, env: Env, round: int, w: World)
    requires !s.panicked && Inv(s, w, env.scheme) && s.round < round < MAX_INT32
    requires env.nextVals == w.valsAt(s.height + 1) && NonNegative(env.nextVals)
    ensures HasTwoThirdsAny(s.votes, round, Prepare) ==> OnPrepare(s, env, s.height, round).round == round
    ensures HasTwoThirdsAny(s.votes, round, Commit) && HV.CommitMajority(s.votes, round).None? ==>
              var t := OnCommit(s, env, s.height, round);
              t.round == round && TimeoutInfo(s.height, round, COMMIT_WAIT) in t.scheduled
  {
    hide Inv, OnPrepare, OnCommit, Proposes, PrepareFor, Asks, IsValidator, Complete, HV.Polka, HasTwoThirdsAny,
         HV.CommitMajority, ToCommit, ToPrepare, ToWon;
    PrepareCounted(s, env, round, w);
    CommitCounted(s, env, round, w);
  }

  /** A commit majority of the present round for a block that is locked or here, valid and certifiable, appends it. */
  lemma WinnerAppended(s: RoundState, env: Env, b: BlockID, w: World)
    requires !s.panicked && Inv(s, w, env.scheme) && COMMIT <= s.step < REPLY
    requires env.nextVals == w.valsAt(s.height + 1) && NonNegative(env.nextVals)
    requires HV.CommitMajority(s.votes, s.round) == Some(b) && Holds(s.block, b.hash) && HasHeader(s.parts, b.parts)
    requires s.lockedBlock == s.block && s.lockedParts == s.parts
    requires env.blockOk(s.block.value) && Certifiable(s.votes, s.round) && env.applyOk
    ensures var t := OnCommit(s, env, s.height, s.round);
            Appended(s.height, b.hash) in t.appended && t.height == s.height + 1
  {
    hide Inv, OnCommit, Proposes, PrepareFor, Asks, IsValidator, Complete, HV.Polka, HasTwoThirdsAny, CommitsFor, Certifiable;
    CommitCounted(s, env, s.round, w);
  }

  /** What one event achieves. */
  ghost predicate Achieves(s: RoundState, t: RoundState, env: Env, event: Event)
    requires Shaped(s)
  {
    match event
    case TxsAvailable => ToTransactions(s, t, env)
    case PrePrepareMsg(p, ok) => ToProposal(s, t, p, ok)
    case BlockPartMsg(h, outcome) => ToPart(s, t, env, h, outcome)
    case VoteMsg(v, peer) => ToVote(s, t, env, v, peer)
    case PeerMaj23(r, kind, peer, b) => t == s.(votes := HV.SetPeerMaj23(s.votes, r, kind, peer, b))
    case Timeout(ti) => ToTimeout(s, t, env, ti)
  }

  lemma EventAchieves(s: RoundState, env: Env, event: Event, w: World)
    requires !s.panicked && Inv(s, w, env.scheme) && EnvOk(s, env, event, w) && Shaped(s)
    ensures Achieves(s, Handle(s, env, event), env, event)
  {
    hide Inv, Shaped, HandleTxsAvailable, SetPrePrepare, AddBlockPart, AddVote, HandleTimeout, HV.SetPeerMaj23,
         ToTransactions, ToProposal, ToPart, ToVote, ToTimeout;
    match event
    case TxsAvailable => TransactionsHandled(s, env);
    case PrePrepareMsg(p, ok) => ProposalTaken(s, p, ok);
    case BlockPartMsg(h, outcome) => PartReceived(s, env, h, outcome, w);
    case VoteMsg(v, peer) => VoteHandled(s, env, v, peer, w);
    case PeerMaj23(r, kind, peer, b) =>
    case Timeout(ti) => TimeoutHandled(s, env, ti, w);
  }
}
