/** What every step of the consensus state machine keeps. */
module Invariants {
  import opened Types
  import opened Power
  import VS = VoteSets
  import HV = HeightVoteSets
  import opened Quorums
  import opened RoundStates

  // ---------------------------------------------------------------- positions

  function StepOf(kind: VoteType): int { if kind == Prepare then PREPARE else COMMIT }

  predicate VoteBefore(u: Vote, v: Vote) {
    LexLt(u.height, u.round, StepOf(u.kind), v.height, v.round, StepOf(v.kind))
  }

  // ---------------------------------------------------------------- the invariant of a node

  ghost predicate Core(s: RoundState, w: World) {
    && s.chainID == w.chainID && s.vals == w.valsAt(s.height)
    && HV.Valid(s.votes)
    && s.votes.height == s.height && s.votes.chainID == s.chainID && s.votes.vals == s.vals
    && 0 <= s.round <= s.votes.round <= s.round + 1 && s.round < MAX_INT32
    && NEW_HEIGHT <= s.step <= REPLY
    && (s.step == NEW_HEIGHT ==> s.round == 0)
    && (s.lastCommits.Some? ==> VS.Valid(s.lastCommits.value))
  }

  /** A locked (valid) block is the block that the prepares of the locked (valid) round have a majority for. */
  ghost predicate LocksOk(s: RoundState) {
    Backed(s.votes, s.lockedBlock, s.lockedRound, s.round) && Backed(s.votes, s.validBlock, s.validRound, s.round)
  }

  /** A block is held with a round of at most `last` whose prepares have a majority for it. */
  ghost predicate Backed(votes: HV.HeightVotes, block: Option<Block>, at: int, last: int) {
    && (block.None? ==> at == -1)
    && (block.Some? ==>
          && 0 <= at <= last
          && HV.Polka(votes, at).Some? && EqualsTo(block, HV.Polka(votes, at).value.hash))
  }

  /** Timeouts were scheduled for rounds the node had reached. */
  ghost predicate TimersOk(s: RoundState) {
    forall k | 0 <= k < |s.scheduled| ::
      s.scheduled[k].height < s.height || (s.scheduled[k].height == s.height && s.scheduled[k].round <= s.round)
  }

  /** Everything signed so far lies at or before the current height, round and step. */
  ghost predicate PositionsOk(s: RoundState) {
    forall k | 0 <= k < |s.attempts| ::
      LexLe(s.attempts[k].vote.height, s.attempts[k].vote.round, StepOf(s.attempts[k].vote.kind),
            s.height, s.round, s.step)
  }

  /** A recorded prepare majority for something else, in a round after `r` and up to `last`. */
  ghost predicate Superseded(votes: HV.HeightVotes, hash: Bytes, r: int, last: int) {
    exists q | r < q <= last :: HV.Polka(votes, q).Some? && HV.Polka(votes, q).value.hash != hash
  }

  /** The node is still locked on a block it voted to commit, unless a later majority was for something else. */
  ghost predicate Guarded(s: RoundState, hash: Bytes, r: int) {
    || (s.lockedBlock.Some? && s.lockedBlock.value.hash == hash && r <= s.lockedRound)
    || Superseded(s.votes, hash, r, s.round)
  }

  predicate CommittedAt(a: Attempt, height: int) {
    a.vote.kind == Commit && a.vote.height == height && a.vote.blockID.hash != []
  }

  ghost predicate LockDiscipline(s: RoundState) {
    forall k | 0 <= k < |s.attempts| && CommittedAt(s.attempts[k], s.height) ::
      Guarded(s, s.attempts[k].vote.blockID.hash, s.attempts[k].vote.round)
  }

  ghost predicate Inv(s: RoundState, w: World, facts: set<SigFact>) {
    !s.panicked ==>
      && Core(s, w) && LocksOk(s) && TimersOk(s) && PositionsOk(s) && LockDiscipline(s)
      && HV.AllSigned(s.votes, facts)
  }

  // ---------------------------------------------------------------- what one event may emit

  /** A quorum of prepares for a block other than `hash`, in a round after `r` and up to `last`. */
  ghost predicate Overruled(facts: set<SigFact>, w: World, height: int, hash: Bytes, r: int, last: int) {
    exists q, b | r < q <= last :: HasQuorum(facts, w, Prepare, height, q, b) && b.hash != hash
  }

  /** A signing attempt allowed after the earlier ones: it is for the round its step was entered for, lies
      strictly later, commits only to a block with a quorum of prepares, and abandons a block committed to
      earlier only once the node has recorded a prepare majority for something else, which a quorum has signed. */
  ghost predicate AttemptOk(earlier: seq<Attempt>, a: Attempt, w: World, facts: set<SigFact>) {
    && a.enteredFor == a.vote.round && a.known.height == a.vote.height
    && (forall k | 0 <= k < |earlier| :: VoteBefore(earlier[k].vote, a.vote))
    && (a.vote.kind == Commit && a.vote.blockID.hash != [] ==>
          HasQuorum(facts, w, Prepare, a.vote.height, a.vote.round, a.vote.blockID))
    && (a.vote.kind == Prepare ==>
          forall k | 0 <= k < |earlier| && CommittedAt(earlier[k], a.vote.height)
                  && earlier[k].vote.blockID.hash != a.vote.blockID.hash ::
            && Superseded(a.known, earlier[k].vote.blockID.hash, earlier[k].vote.round, a.vote.round)
            && Overruled(facts, w, a.vote.height, earlier[k].vote.blockID.hash, earlier[k].vote.round, a.vote.round))
  }

  ghost predicate AppendOk(e: Appended, w: World, facts: set<SigFact>) {
    e.hash != [] && exists r, b :: HasQuorum(facts, w, Commit, e.height, r, b) && b.hash == e.hash
  }

  /** From `s` to `t` time does not go back, outputs are only added, and what is added is allowed. */
  ghost predicate Follows(s: RoundState, t: RoundState, w: World, facts: set<SigFact>) {
    && t.chainID == s.chainID && t.key == s.key
    && LexLe(s.height, s.round, s.step, t.height, t.round, t.step)
    && s.attempts <= t.attempts
    && (forall k | |s.attempts| <= k < |t.attempts| :: AttemptOk(t.attempts[..k], t.attempts[k], w, facts))
    && s.appended <= t.appended
    && (forall k | |s.appended| <= k < |t.appended| :: AppendOk(t.appended[k], w, facts))
    && s.scheduled <= t.scheduled
  }

  lemma FollowsTransitive(s: RoundState, t: RoundState, u: RoundState, w: World, facts: set<SigFact>)
    requires Follows(s, t, w, facts) && Follows(t, u, w, facts)
    ensures Follows(s, u, w, facts)
  {
    hide AttemptOk, AppendOk;
    forall k | |s.attempts| <= k < |u.attempts| ensures AttemptOk(u.attempts[..k], u.attempts[k], w, facts) {
      if k < |t.attempts| {
        assert u.attempts[..k] == t.attempts[..k] && u.attempts[k] == t.attempts[k];
      }
    }
    forall k | |s.appended| <= k < |u.appended| ensures AppendOk(u.appended[k], w, facts) {
      if k < |t.appended| { assert u.appended[k] == t.appended[k]; }
    }
  }

  /** Vote sets may grow without disturbing anything the node relies on. */
  lemma VotesGrow(s: RoundState, votes: HV.HeightVotes, w: World, facts: set<SigFact>)
    requires !s.panicked && Inv(s, w, facts)
    requires HV.Valid(votes) && HV.Grows(s.votes, votes) && votes.round == s.votes.round && HV.AllSigned(votes, facts)
    ensures Inv(s.(votes := votes), w, facts) && Follows(s, s.(votes := votes), w, facts)
  {
    hide HV.Valid, HV.AllSigned, VS.Valid;
    var t := s.(votes := votes);
    forall q | HV.Polka(s.votes, q).Some? ensures HV.Polka(votes, q) == HV.Polka(s.votes, q) {
      assert VS.Grows(s.votes.sets[q].prepares, votes.sets[q].prepares);
    }
    forall k | 0 <= k < |t.attempts| && CommittedAt(t.attempts[k], t.height)
      ensures Guarded(t, t.attempts[k].vote.blockID.hash, t.attempts[k].vote.round)
    {
      assert Guarded(s, s.attempts[k].vote.blockID.hash, s.attempts[k].vote.round);
    }
  }

  // ---------------------------------------------------------------- one step at a time

  /** Steps that touch only proposal bookkeeping, timers and the step within the round. */
  ghost predicate QuietChange(s: RoundState, t: RoundState) {
    && t == s.(step := t.step, prePrepare := t.prePrepare, block := t.block, parts := t.parts,
               proposals := t.proposals, scheduled := t.scheduled, replyRound := t.replyRound,
               triggeredCommitWait := t.triggeredCommitWait)
    && s.step <= t.step && (t.step == s.step || t.step <= REPLY)
    && (t.scheduled == s.scheduled
        || exists st :: t.scheduled == s.scheduled + [TimeoutInfo(s.height, s.round, st)])
  }

  lemma QuietKeeps(s: RoundState, t: RoundState, w: World, facts: set<SigFact>)
    requires !s.panicked && Inv(s, w, facts) && QuietChange(s, t)
    ensures Inv(t, w, facts) && Follows(s, t, w, facts)
  {
    hide HV.Valid, HV.AllSigned, VS.Valid, HasQuorum;
    forall k | 0 <= k < |t.attempts| && CommittedAt(t.attempts[k], t.height)
      ensures Guarded(t, t.attempts[k].vote.blockID.hash, t.attempts[k].vote.round)
    {
      assert Guarded(s, s.attempts[k].vote.blockID.hash, s.attempts[k].vote.round);
    }
  }

  lemma HaltFollows(s: RoundState, t: RoundState, w: World, facts: set<SigFact>)
    requires t == s.(panicked := true)
    ensures Inv(t, w, facts) && Follows(s, t, w, facts)
  {
  }

  lemma SupersededOverruled(s: RoundState, hash: Bytes, r: int, w: World, facts: set<SigFact>)
    requires !s.panicked && Inv(s, w, facts) && Superseded(s.votes, hash, r, s.round)
    ensures Overruled(facts, w, s.height, hash, r, s.round)
  {
    hide HV.Valid, HV.AllSigned, VS.Valid, HasQuorum;
    var q :| r < q <= s.round && HV.Polka(s.votes, q).Some? && HV.Polka(s.votes, q).value.hash != hash;
    PolkaHasQuorum(s.votes, q, facts, w);
  }

  /** Lock discipline: what a node prepares is the block it last voted to commit, unless it has already
      recorded a prepare majority for something else in a later round. */
  lemma PrepareRespectsLock(s: RoundState, env: Env, w: World, facts: set<SigFact>, k: nat)
    requires !s.panicked && Inv(s, w, facts) && k < |s.attempts| && CommittedAt(s.attempts[k], s.height)
    ensures var c := s.attempts[k].vote;
            PrepareChoice(s, env).hash == c.blockID.hash || Superseded(s.votes, c.blockID.hash, c.round, s.round)
  {
    assert Guarded(s, s.attempts[k].vote.blockID.hash, s.attempts[k].vote.round);
  }

  lemma EnterPrepareKeeps(s: RoundState, env: Env, height: int, round: int, w: World)
    requires !s.panicked && Inv(s, w, env.scheme) && round <= s.round
    ensures var t := EnterPrepare(s, env, height, round);
            && !t.panicked && Inv(t, w, env.scheme) && Follows(s, t, w, env.scheme)
            && t.round == s.round && t.height == s.height && t.votes == s.votes
  {
    hide HV.Valid, HV.AllSigned, VS.Valid, HasQuorum;
    var t := EnterPrepare(s, env, height, round);
    var n := |s.attempts|;
    if !Stale(s, height, round, PREPARE) && |t.attempts| > n {
      var a := t.attempts[n];
      assert t.attempts[..n] == s.attempts;
      forall k | 0 <= k < n && CommittedAt(s.attempts[k], a.vote.height)
              && s.attempts[k].vote.blockID.hash != a.vote.blockID.hash
        ensures Superseded(a.known, s.attempts[k].vote.blockID.hash, s.attempts[k].vote.round, a.vote.round)
        ensures Overruled(env.scheme, w, a.vote.height, s.attempts[k].vote.blockID.hash,
                          s.attempts[k].vote.round, a.vote.round)
      {
        PrepareRespectsLock(s, env, w, env.scheme, k);
        SupersededOverruled(s, s.attempts[k].vote.blockID.hash, s.attempts[k].vote.round, w, env.scheme);
      }
      assert AttemptOk(s.attempts, a, w, env.scheme);
    }
    forall k | 0 <= k < |t.attempts| && CommittedAt(t.attempts[k], t.height)
      ensures Guarded(t, t.attempts[k].vote.blockID.hash, t.attempts[k].vote.round)
    {
      assert Guarded(s, s.attempts[k].vote.blockID.hash, s.attempts[k].vote.round);
    }
  }

  lemma EnterPrePrepareKeeps(s: RoundState, env: Env, height: int, round: int, w: World)
    requires !s.panicked && Inv(s, w, env.scheme) && round <= s.round
    ensures var t := EnterPrePrepare(s, env, height, round);
            && !t.panicked && Inv(t, w, env.scheme) && Follows(s, t, w, env.scheme)
            && t.round == s.round && t.height == s.height
            && t.votes == s.votes
  {
    hide HV.Valid, HV.AllSigned, VS.Valid, HasQuorum, Inv, Follows;
    if !Stale(s, height, round, PRE_PREPARE) {
      var s1 := Schedule(s, round, PRE_PREPARE);
      var mine := s.key.Some? && FindAddress(s.vals, s.key.value.address) != -1 && env.primary;
      var s2 := (if mine then DecidePrePrepare(s1, env, round) else s1).(round := round, step := PRE_PREPARE);
      assert QuietChange(s, s2) by {
        assert s2.scheduled == s.scheduled + [TimeoutInfo(s.height, s.round, PRE_PREPARE)];
      }
      QuietKeeps(s, s2, w, env.scheme);
      if IsPrePrepareComplete(s2) {
        EnterPrepareKeeps(s2, env, height, s2.round, w);
        FollowsTransitive(s, s2, EnterPrepare(s2, env, height, s2.round), w, env.scheme);
      }
    } else {
      FollowsReflexive(s, w, env.scheme);
    }
  }

  lemma FollowsReflexive(s: RoundState, w: World, facts: set<SigFact>)
    ensures Follows(s, s, w, facts)
  {
  }

  /** Starting a later round (or the first one) keeps locks, votes and everything signed. */
  lemma StartRoundKeeps(s: RoundState, round: int, w: World, facts: set<SigFact>)
    requires !s.panicked && Inv(s, w, facts)
    requires s.round < round || (s.round == round && s.step == NEW_HEIGHT)
    ensures var t := StartRound(s, round);
            && Inv(t, w, facts) && Follows(s, t, w, facts)
            && t.height == s.height && t.round == round && (t.panicked <==> round >= MAX_INT32)
  {
    hide HV.Valid, HV.AllSigned, VS.Valid, HasQuorum;
    var t := StartRound(s, round);
    HV.SetRoundKeeps(s.votes, round + 1, facts);
    if !t.panicked {
      forall k | 0 <= k < |t.attempts| && CommittedAt(t.attempts[k], t.height)
        ensures Guarded(t, t.attempts[k].vote.blockID.hash, t.attempts[k].vote.round)
      {
        assert Guarded(s, s.attempts[k].vote.blockID.hash, s.attempts[k].vote.round);
      }
    }
  }

  lemma EnterNewRoundKeeps(s: RoundState, env: Env, height: int, round: int, w: World)
    requires Inv(s, w, env.scheme)
    ensures var t := EnterNewRound(s, env, height, round);
            && Inv(t, w, env.scheme) && Follows(s, t, w, env.scheme)
            && t.height == s.height
            && (!t.panicked && s.height == height && s.round <= round ==> t.round == round)
  {
    hide HV.Valid, HV.AllSigned, VS.Valid, HasQuorum, Inv, Follows;
    FollowsReflexive(s, w, env.scheme);
    if !s.panicked && s.height == height && (s.round < round || (s.round == round && s.step == NEW_HEIGHT)) {
      StartRoundKeeps(s, round, w, env.scheme);
      var s1 := StartRound(s, round);
      if !s1.panicked {
        var t := EnterNewRound(s, env, height, round);
        if env.waitForTxs && round == 0 && !env.needProofBlock {
          assert QuietChange(s1, t) by {
            assert Schedule(s1, round, NEW_ROUND).scheduled
                == s1.scheduled + [TimeoutInfo(s1.height, s1.round, NEW_ROUND)];
          }
          QuietKeeps(s1, t, w, env.scheme);
        } else {
          EnterPrePrepareKeeps(s1, env, height, round, w);
        }
        FollowsTransitive(s, s1, t, w, env.scheme);
      }
    }
  }

  lemma EnterPrepareWaitKeeps(s: RoundState, height: int, round: int, w: World, facts: set<SigFact>)
    requires !s.panicked && Inv(s, w, facts) && round <= s.round
    ensures Inv(EnterPrepareWait(s, height, round), w, facts)
    ensures Follows(s, EnterPrepareWait(s, height, round), w, facts)
  {
    var t := EnterPrepareWait(s, height, round);
    if !Stale(s, height, round, PREPARE_WAIT) {
      assert t.scheduled == s.scheduled + [TimeoutInfo(s.height, s.round, PREPARE_WAIT)];
      QuietKeeps(s, t, w, facts);
    }
  }

  lemma {:induction false} PolRoundGreatest(votes: HV.HeightVotes, r: int)
    ensures -1 <= PolRound(votes, r) && (r >= 0 ==> PolRound(votes, r) <= r)
    ensures PolRound(votes, r) >= 0 ==> HV.Polka(votes, PolRound(votes, r)).Some?
    ensures forall q | 0 <= q <= r && HV.Polka(votes, q).Some? :: q <= PolRound(votes, r)
    decreases r
  {
    if r >= 0 && HV.Polka(votes, r).None? { PolRoundGreatest(votes, r - 1); }
  }

  /** `enterCommit` never finds its round above the greatest round with a majority, so that panic is dead. */
  lemma PolPanicUnreachable(s: RoundState, round: int, w: World, facts: set<SigFact>)
    requires !s.panicked && Inv(s, w, facts) && 0 <= round <= s.round && HV.Polka(s.votes, round).Some?
    ensures round <= PolRound(s.votes, s.votes.round)
  {
    PolRoundGreatest(s.votes, s.votes.round);
  }

  /** Commits signed earlier at this height are for earlier rounds while the commit step is still ahead. */
  lemma EarlierCommit(s: RoundState, k: nat, w: World, facts: set<SigFact>)
    requires !s.panicked && Inv(s, w, facts) && s.step < COMMIT
    requires k < |s.attempts| && CommittedAt(s.attempts[k], s.height)
    ensures s.attempts[k].vote.round < s.round
  {
  }

  /** The lock moves that `enterCommit` makes all respect what was committed to before. */
  lemma CommitChoiceKeeps(s: RoundState, env: Env, round: int, w: World)
    requires !s.panicked && Inv(s, w, env.scheme) && round == s.round && s.step < COMMIT
    ensures var (t, b) := CommitChoice(s, env, round);
            && Inv(t, w, env.scheme) && Follows(s, t, w, env.scheme)
            && t.attempts == s.attempts && t.height == s.height && t.round == s.round && t.step == s.step
            && t.votes == s.votes && t.vals == s.vals
            && (b.hash != [] && !t.panicked ==>
                  && HV.Polka(t.votes, round) == Some(b)
                  && t.lockedBlock.Some? && t.lockedBlock.value.hash == b.hash && t.lockedRound == round)
            && (t.panicked ==>
                  && HV.Polka(s.votes, round).Some?
                  && EqualsTo(s.block, HV.Polka(s.votes, round).value.hash) && !env.blockOk(s.block.value))
  {
    hide HV.Valid, HV.AllSigned, VS.Valid, HasQuorum, Inv, Follows, LockDiscipline, LocksOk, CommitChoice;
    var (t, b) := CommitChoice(s, env, round);
    ChoiceFrame(s, env, round);
    ChoiceResult(s, env, round, w);
    if t.panicked {
      HaltFollows(s, t, w, env.scheme);
    } else {
      ChoiceGuards(s, env, round, w);
      LockMoveKeeps(s, t, w, env.scheme);
    }
  }

  /** What `enterCommit` votes for and where it leaves the lock. */
  lemma ChoiceResult(s: RoundState, env: Env, round: int, w: World)
    requires !s.panicked && Inv(s, w, env.scheme) && round == s.round
    ensures var (t, b) := CommitChoice(s, env, round);
            && (!t.panicked ==> LocksOk(t))
            && (b.hash != [] && !t.panicked ==>
                  && HV.Polka(t.votes, round) == Some(b)
                  && t.lockedBlock.Some? && t.lockedBlock.value.hash == b.hash && t.lockedRound == round)
            && (t.panicked ==>
                  && HV.Polka(s.votes, round).Some?
                  && EqualsTo(s.block, HV.Polka(s.votes, round).value.hash) && !env.blockOk(s.block.value))
  {
    hide Inv, HV.Polka, PolRound, CommitChoice, LocksOk;
    InvLocks(s, w, env.scheme);
    if HV.Polka(s.votes, round).Some? { PolPanicUnreachable(s, round, w, env.scheme); }
    ChoiceCases(s, env, round);
    ChoiceLocks(s, env, round);
  }

  lemma InvLocks(s: RoundState, w: World, facts: set<SigFact>)
    requires !s.panicked && Inv(s, w, facts)
    ensures LocksOk(s) && 0 <= s.round
  {
  }

  lemma ChoiceCases(s: RoundState, env: Env, round: int)
    requires !s.panicked && (HV.Polka(s.votes, round).Some? ==> round <= PolRound(s.votes, s.votes.round))
    ensures var (t, b) := CommitChoice(s, env, round);
            && (b.hash != [] && !t.panicked ==>
                  && HV.Polka(t.votes, round) == Some(b)
                  && t.lockedBlock.Some? && t.lockedBlock.value.hash == b.hash && t.lockedRound == round)
            && (t.panicked ==>
                  && HV.Polka(s.votes, round).Some?
                  && EqualsTo(s.block, HV.Polka(s.votes, round).value.hash) && !env.blockOk(s.block.value))
  {
    hide HV.Polka, PolRound, PartsFromHeader, HeaderEqualsTo;
  }

  lemma ChoiceLocks(s: RoundState, env: Env, round: int)
    requires !s.panicked && LocksOk(s) && round == s.round && 0 <= round
    ensures !CommitChoice(s, env, round).0.panicked ==> LocksOk(CommitChoice(s, env, round).0)
  {
    hide HV.Polka, PolRound, PartsFromHeader, HeaderEqualsTo, CommitChoice;
    ChoiceFrame(s, env, round);
    ChoiceLock(s, env, round);
  }

  /** The lock stays, moves to the round's majority, or goes. */
  lemma ChoiceLock(s: RoundState, env: Env, round: int)
    ensures var t := CommitChoice(s, env, round).0;
            || t.panicked
            || (t.lockedBlock == s.lockedBlock && t.lockedRound == s.lockedRound)
            || (t.lockedBlock == None && t.lockedRound == -1)
            || (HV.Polka(s.votes, round).Some? && t.lockedRound == round
                && EqualsTo(t.lockedBlock, HV.Polka(s.votes, round).value.hash))
  {
    hide HV.Polka, PolRound, PartsFromHeader, HeaderEqualsTo;
  }

  lemma ChoiceGuards(s: RoundState, env: Env, round: int, w: World)
    requires !s.panicked && Inv(s, w, env.scheme) && round == s.round && s.step < COMMIT
    requires !CommitChoice(s, env, round).0.panicked
    ensures LockDiscipline(CommitChoice(s, env, round).0)
  {
    hide HV.Valid, HV.AllSigned, VS.Valid, HasQuorum, Guarded, CommitChoice;
    var t := CommitChoice(s, env, round).0;
    ChoiceFrame(s, env, round);
    forall k | 0 <= k < |t.attempts| && CommittedAt(t.attempts[k], t.height)
      ensures Guarded(t, t.attempts[k].vote.blockID.hash, t.attempts[k].vote.round)
    {
      EarlierCommit(s, k, w, env.scheme);
      ChoiceGuard(s, env, round, t.attempts[k].vote.blockID.hash, t.attempts[k].vote.round);
    }
  }

  lemma ChoiceFrame(s: RoundState, env: Env, round: int)
    requires !s.panicked
    ensures var t := CommitChoice(s, env, round).0;
            && t.attempts == s.attempts && t.height == s.height && t.round == s.round && t.votes == s.votes
            && (t.panicked ==> t == s.(panicked := true))
            && (!t.panicked ==>
                  t == s.(lockedRound := t.lockedRound, lockedBlock := t.lockedBlock, lockedParts := t.lockedParts,
                          block := t.block, parts := t.parts))
  {
    hide HV.Polka, PolRound, PartsFromHeader, HeaderEqualsTo, EqualsTo;
  }

  /** Whichever way `enterCommit` moves the lock, a block committed to earlier stays guarded. */
  lemma ChoiceGuard(s: RoundState, env: Env, round: int, hash: Bytes, r: int)
    requires round == s.round && r < round && hash != [] && Guarded(s, hash, r)
    requires s.lockedBlock.Some? ==> s.lockedBlock.value.hash != [] && s.lockedRound <= round
    ensures Guarded(CommitChoice(s, env, round).0, hash, r)
  {
    var polka := HV.Polka(s.votes, round);
    if polka.Some? && polka.value.hash != hash {
      assert Superseded(s.votes, hash, r, round);
    }
  }

  /** Changing locks, valid block and proposal bookkeeping in ways that keep the lock invariants. */
  lemma LockMoveKeeps(s: RoundState, t: RoundState, w: World, facts: set<SigFact>)
    requires !s.panicked && Inv(s, w, facts)
    requires t == s.(lockedRound := t.lockedRound, lockedBlock := t.lockedBlock, lockedParts := t.lockedParts,
                     validRound := t.validRound, validBlock := t.validBlock, validParts := t.validParts,
                     block := t.block, parts := t.parts)
    requires LocksOk(t) && LockDiscipline(t)
    ensures Inv(t, w, facts) && Follows(s, t, w, facts)
  {
    hide HV.Valid, HV.AllSigned, VS.Valid, HasQuorum;
  }

  lemma EnterCommitKeeps(s: RoundState, env: Env, height: int, round: int, w: World)
    requires Inv(s, w, env.scheme) && (!s.panicked ==> round <= s.round)
    ensures var t := EnterCommit(s, env, height, round);
            && Inv(t, w, env.scheme) && Follows(s, t, w, env.scheme)
            && t.height == s.height && t.round == s.round && t.votes == s.votes
  {
    hide HV.Valid, HV.AllSigned, VS.Valid, HasQuorum;
    FollowsReflexive(s, w, env.scheme);
    if !Stale(s, height, round, COMMIT) {
      CommitChoiceKeeps(s, env, round, w);
      var (s1, b) := CommitChoice(s, env, round);
      if !s1.panicked {
        CommitVoteKeeps(s1, env, b, round, w);
        FollowsTransitive(s, s1, EnterCommit(s, env, height, round), w, env.scheme);
      }
    }
  }

  lemma CommitVoteKeeps(s: RoundState, env: Env, b: BlockID, round: int, w: World)
    requires !s.panicked && Inv(s, w, env.scheme) && round == s.round && s.step < COMMIT
    requires b.hash != [] ==>
               && HV.Polka(s.votes, round) == Some(b)
               && s.lockedBlock.Some? && s.lockedBlock.value.hash == b.hash && s.lockedRound == round
    ensures var t := SignAddVote(s, env, Commit, b, round).(round := round, step := COMMIT);
            Inv(t, w, env.scheme) && Follows(s, t, w, env.scheme)
  {
    hide HV.Valid, HV.AllSigned, VS.Valid, HasQuorum;
    var t := SignAddVote(s, env, Commit, b, round).(round := round, step := COMMIT);
    var n := |s.attempts|;
    if |t.attempts| > n {
      assert t.attempts[..n] == s.attempts;
      if b.hash != [] { PolkaHasQuorum(s.votes, round, env.scheme, w); }
      assert AttemptOk(s.attempts, t.attempts[n], w, env.scheme);
    }
    forall k | 0 <= k < |t.attempts| && CommittedAt(t.attempts[k], t.height)
      ensures Guarded(t, t.attempts[k].vote.blockID.hash, t.attempts[k].vote.round)
    {
      if k < n { assert Guarded(s, s.attempts[k].vote.blockID.hash, s.attempts[k].vote.round); }
    }
  }

  /** The commit-wait step is only entered with two thirds of anything, so its panic is dead there. */
  lemma EnterCommitWaitKeeps(s: RoundState, height: int, round: int, w: World, facts: set<SigFact>)
    requires Inv(s, w, facts) && (!s.panicked ==> round <= s.round && HasTwoThirdsAny(s.votes, round, Commit))
    ensures var t := EnterCommitWait(s, height, round);
            Inv(t, w, facts) && Follows(s, t, w, facts) && (t.panicked ==> s.panicked)
  {
    var t := EnterCommitWait(s, height, round);
    FollowsReflexive(s, w, facts);
    if t != s {
      assert t.scheduled == s.scheduled + [TimeoutInfo(s.height, s.round, COMMIT_WAIT)];
      QuietKeeps(s, t, w, facts);
    }
  }

  lemma UpdateToStateKeeps(s: RoundState, env: Env, w: World)
    requires !s.panicked && Inv(s, w, env.scheme) && HV.CommitMajority(s.votes, s.replyRound).Some?
    requires env.nextVals == w.valsAt(s.height + 1) && NonNegative(env.nextVals)
    ensures var t := UpdateToState(s, env);
            !t.panicked && Inv(t, w, env.scheme) && Follows(s, t, w, env.scheme)
  {
    var t := UpdateToState(s, env);
    HV.NewHeightVotesValid(s.chainID, s.height + 1, env.nextVals);
    assert HV.RoundOk(s.votes, s.replyRound);
    AllSignedNew(s.chainID, s.height + 1, env.nextVals, env.scheme);
    UpdatedInv(s, t, w, env.scheme);
  }

  lemma AllSignedNew(chainID: string, height: int, vals: seq<Validator>, facts: set<SigFact>)
    ensures HV.AllSigned(HV.NewHeightVotes(chainID, height, vals), facts)
  {
  }

  lemma UpdatedInv(s: RoundState, t: RoundState, w: World, facts: set<SigFact>)
    requires !s.panicked && Inv(s, w, facts) && !t.panicked
    requires Core(t, w) && HV.AllSigned(t.votes, facts) && t.height == s.height + 1 && t.round == 0
    requires t.lockedBlock.None? && t.validBlock.None? && t.lockedRound == -1 && t.validRound == -1
    requires t.attempts == s.attempts && t.appended == s.appended && t.chainID == s.chainID && t.key == s.key
    requires t.scheduled == s.scheduled + [TimeoutInfo(t.height, 0, NEW_HEIGHT)]
    ensures Inv(t, w, facts) && Follows(s, t, w, facts)
  {
    hide HV.Valid, HV.AllSigned, VS.Valid, HasQuorum;
  }

  /** `finalizeAppend`: whatever the state, only a block with a quorum of commits is appended. */
  lemma FinalizeKeeps(s: RoundState, env: Env, height: int, w: World)
    requires !s.panicked && Inv(s, w, env.scheme)
    requires env.nextVals == w.valsAt(s.height + 1) && NonNegative(env.nextVals)
    ensures var t := FinalizeAppend(s, env, height);
            Inv(t, w, env.scheme) && Follows(s, t, w, env.scheme)
  {
    hide HV.Valid, HV.AllSigned, VS.Valid, HasQuorum, Inv, Follows, UpdateToState, Certifiable;
    FollowsReflexive(s, w, env.scheme);
    HaltFollows(s, Halt(s), w, env.scheme);
    var maj := HV.CommitMajority(s.votes, s.replyRound);
    if s.height == height && maj.Some? && EqualsTo(s.block, maj.value.hash) {
      var s1 := s.(appended := s.appended + [Appended(height, s.block.value.hash)]);
      AppendKeeps(s, s1, env, w);
      UpdateToStateKeeps(s1, env, w);
      FollowsTransitive(s, s1, UpdateToState(s1, env), w, env.scheme);
    }
  }

  /** A block is appended only with a quorum of commits for it. */
  lemma TryFinalizeKeeps(s: RoundState, env: Env, height: int, w: World)
    requires !s.panicked && Inv(s, w, env.scheme) && s.height == height
    requires env.nextVals == w.valsAt(s.height + 1) && NonNegative(env.nextVals)
    ensures var t := TryFinalizeAppend(s, env, height);
            Inv(t, w, env.scheme) && Follows(s, t, w, env.scheme)
  {
    hide Inv, Follows, FinalizeAppend;
    FollowsReflexive(s, w, env.scheme);
    FinalizeKeeps(s, env, height, w);
  }

  lemma AppendKeeps(s: RoundState, t: RoundState, env: Env, w: World)
    requires !s.panicked && Inv(s, w, env.scheme) && s.block.Some?
    requires HV.CommitMajority(s.votes, s.replyRound).Some?
    requires EqualsTo(s.block, HV.CommitMajority(s.votes, s.replyRound).value.hash)
    requires t == s.(appended := s.appended + [Appended(s.height, s.block.value.hash)])
    ensures Inv(t, w, env.scheme) && Follows(s, t, w, env.scheme)
  {
    hide HV.Valid, HV.AllSigned, VS.Valid, HasQuorum;
    CommitsHaveQuorum(s.votes, s.replyRound, env.scheme, w);
    assert AppendOk(Appended(s.height, s.block.value.hash), w, env.scheme);
    forall k | 0 <= k < |t.attempts| && CommittedAt(t.attempts[k], t.height)
      ensures Guarded(t, t.attempts[k].vote.blockID.hash, t.attempts[k].vote.round)
    {
      assert Guarded(s, s.attempts[k].vote.blockID.hash, s.attempts[k].vote.round);
    }
  }

  lemma EnterReplyKeeps(s: RoundState, env: Env, height: int, commitRound: int, w: World)
    requires Inv(s, w, env.scheme)
    requires env.nextVals == w.valsAt(s.height + 1) && NonNegative(env.nextVals)
    ensures var t := EnterReply(s, env, height, commitRound);
            Inv(t, w, env.scheme) && Follows(s, t, w, env.scheme)
  {
    hide HV.Valid, HV.AllSigned, VS.Valid, HasQuorum, Inv, Follows;
    FollowsReflexive(s, w, env.scheme);
    if !s.panicked && s.height == height && s.step < REPLY {
      var maj := HV.CommitMajority(s.votes, commitRound);
      var b := if maj.Some? then maj.value else NIL_BLOCK;
      var s1 := if EqualsTo(s.lockedBlock, b.hash) then s.(block := s.lockedBlock, parts := s.lockedParts) else s;
      var s2 := if !EqualsTo(s1.block, b.hash) && !HeaderEqualsTo(s1.parts, b.parts)
                then s1.(block := None, parts := PartsFromHeader(b.parts)) else s1;
      var s3 := s2.(step := REPLY, replyRound := commitRound);
      QuietKeeps(s, s3, w, env.scheme);
      TryFinalizeKeeps(s3, env, height, w);
      FollowsTransitive(s, s3, TryFinalizeAppend(s3, env, height), w, env.scheme);
    }
  }

  // ---------------------------------------------------------------- whole events

  lemma NoteValidKeeps(s: RoundState, w: World, facts: set<SigFact>)
    requires !s.panicked && Inv(s, w, facts)
    ensures Inv(NoteValid(s), w, facts) && Follows(s, NoteValid(s), w, facts)
  {
    hide HV.Valid, HV.AllSigned, VS.Valid, HasQuorum, Follows;
    var t := NoteValid(s);
    forall k | 0 <= k < |t.attempts| && CommittedAt(t.attempts[k], t.height)
      ensures Guarded(t, t.attempts[k].vote.blockID.hash, t.attempts[k].vote.round)
    {
      assert Guarded(s, s.attempts[k].vote.blockID.hash, s.attempts[k].vote.round);
    }
    LockMoveKeeps(s, t, w, facts);
  }

  lemma ReleaseLocks(s: RoundState, round: int, b: BlockID)
    requires LocksOk(s)
    ensures var t := ReleaseOnPolka(s, round, b);
            && LocksOk(t)
            && t == s.(lockedRound := t.lockedRound, lockedBlock := t.lockedBlock, lockedParts := t.lockedParts)
            && (t.lockedBlock != s.lockedBlock || t.lockedRound != s.lockedRound ==>
                  s.lockedRound < round <= s.round && !EqualsTo(s.lockedBlock, b.hash))
  {
    hide HV.Polka;
  }

  lemma ValidLocks(s: RoundState, round: int, b: BlockID)
    requires LocksOk(s) && HV.Polka(s.votes, round) == Some(b) && 0 <= s.round
    ensures var t := ValidOnPolka(s, round, b);
            && LocksOk(t)
            && t == s.(validRound := t.validRound, validBlock := t.validBlock, validParts := t.validParts,
                       block := t.block, parts := t.parts)
  {
    hide HV.Polka, PartsFromHeader, HeaderEqualsTo;
  }

  lemma OnPolkaShape(s: RoundState, round: int, b: BlockID)
    requires LocksOk(s) && HV.Polka(s.votes, round) == Some(b) && 0 <= s.round
    ensures var t := OnPolka(s, round, b);
            && LocksOk(t)
            && t == s.(lockedRound := t.lockedRound, lockedBlock := t.lockedBlock, lockedParts := t.lockedParts,
                       validRound := t.validRound, validBlock := t.validBlock, validParts := t.validParts,
                       block := t.block, parts := t.parts)
            && (t.lockedBlock != s.lockedBlock || t.lockedRound != s.lockedRound ==>
                  s.lockedRound < round <= s.round && !EqualsTo(s.lockedBlock, b.hash))
  {
    hide LocksOk, ReleaseOnPolka, ValidOnPolka, EqualsTo, HV.Polka;
    ReleaseLocks(s, round, b);
    ValidLocks(ReleaseOnPolka(s, round, b), round, b);
  }

  lemma OnPolkaGuard(s: RoundState, t: RoundState, round: int, b: BlockID, hash: Bytes, r: int)
    requires HV.Polka(s.votes, round) == Some(b) && Guarded(s, hash, r) && hash != []
    requires t.votes == s.votes && t.round == s.round
    requires t.lockedBlock != s.lockedBlock || t.lockedRound != s.lockedRound ==>
               s.lockedRound < round <= s.round && !EqualsTo(s.lockedBlock, b.hash)
    ensures Guarded(t, hash, r)
  {
    hide HV.Polka;
  }

  /** Unlocking on a later majority for something else keeps the lock discipline. */
  lemma OnPolkaKeeps(s: RoundState, round: int, b: BlockID, w: World, facts: set<SigFact>)
    requires !s.panicked && Inv(s, w, facts) && HV.Polka(s.votes, round) == Some(b)
    ensures Inv(OnPolka(s, round, b), w, facts) && Follows(s, OnPolka(s, round, b), w, facts)
  {
    hide HV.Valid, HV.AllSigned, VS.Valid, Follows, HV.Polka, OnPolka, LocksOk, TimersOk, PositionsOk, Guarded, EqualsTo;
    var t := OnPolka(s, round, b);
    OnPolkaShape(s, round, b);
    forall k | 0 <= k < |t.attempts| && CommittedAt(t.attempts[k], t.height)
      ensures Guarded(t, t.attempts[k].vote.blockID.hash, t.attempts[k].vote.round)
    {
      OnPolkaGuard(s, t, round, b, s.attempts[k].vote.blockID.hash, s.attempts[k].vote.round);
    }
    LockMoveKeeps(s, t, w, facts);
  }

  lemma AddBlockPartKeeps(s: RoundState, env: Env, height: int, outcome: PartOutcome, w: World)
    requires !s.panicked && Inv(s, w, env.scheme)
    requires env.nextVals == w.valsAt(s.height + 1) && NonNegative(env.nextVals)
    ensures var t := AddBlockPart(s, env, height, outcome);
            Inv(t, w, env.scheme) && Follows(s, t, w, env.scheme)
  {
    hide HV.Valid, HV.AllSigned, VS.Valid, HasQuorum, Inv, Follows;
    FollowsReflexive(s, w, env.scheme);
    if s.height == height && s.parts.Some? && !s.parts.value.complete && outcome.Completed? {
      var s1 := s.(parts := Some(s.parts.value.(complete := true)));
      QuietKeeps(s, s1, w, env.scheme);
      if !outcome.tooLarge && outcome.decoded.Some? {
        var s1' := s1.(block := outcome.decoded);
        QuietKeeps(s, s1', w, env.scheme);
        NoteValidKeeps(s1', w, env.scheme);
        var s2 := NoteValid(s1');
        FollowsTransitive(s, s1', s2, w, env.scheme);
        if s2.step <= PRE_PREPARE && IsPrePrepareComplete(s2) {
          EnterPrepareKeeps(s2, env, height, s2.round, w);
          var s3 := EnterPrepare(s2, env, height, s2.round);
          FollowsTransitive(s, s2, s3, w, env.scheme);
          EnterCommitKeeps(s3, env, height, s3.round, w);
          FollowsTransitive(s, s3, EnterCommit(s3, env, height, s3.round), w, env.scheme);
        } else if s2.step == REPLY {
          TryFinalizeKeeps(s2, env, height, w);
          FollowsTransitive(s, s2, TryFinalizeAppend(s2, env, height), w, env.scheme);
        }
      }
    }
  }

  lemma OnPrepareKeeps(s: RoundState, env: Env, height: int, round: int, w: World)
    requires !s.panicked && Inv(s, w, env.scheme) && height == s.height
    ensures var t := OnPrepare(s, env, height, round);
            Inv(t, w, env.scheme) && Follows(s, t, w, env.scheme)
  {
    hide HV.Valid, HV.AllSigned, VS.Valid, HasQuorum, Inv, Follows;
    FollowsReflexive(s, w, env.scheme);
    var polka := HV.Polka(s.votes, round);
    var s1 := if polka.Some? then OnPolka(s, round, polka.value) else s;
    if polka.Some? { OnPolkaKeeps(s, round, polka.value, w, env.scheme); }
    var t := OnPrepare(s, env, height, round);
    if s1.round < round && HasTwoThirdsAny(s.votes, round, Prepare) {
      EnterNewRoundKeeps(s1, env, height, round, w);
    } else if s1.round == round && PREPARE <= s1.step {
      EnterCommitKeeps(s1, env, height, round, w);
      EnterPrepareWaitKeeps(s1, height, round, w, env.scheme);
    } else {
      EnterPrepareKeeps(s1, env, height, s1.round, w);
    }
    FollowsReflexive(s1, w, env.scheme);
    FollowsTransitive(s, s1, t, w, env.scheme);
  }

  lemma CommitMajorityAny(votes: HV.HeightVotes, round: int)
    requires HV.Valid(votes) && HV.CommitMajority(votes, round).Some?
    ensures HasTwoThirdsAny(votes, round, Commit)
  {
    assert HV.RoundOk(votes, round);
    VS.MajorityIsTwoThirdsAny(votes.sets[round].commits);
  }

  /** Entering a round leaves every commit tally as it was. */
  lemma NewRoundKeepsCommits(s: RoundState, env: Env, height: int, round: int, w: World)
    requires !s.panicked && Inv(s, w, env.scheme)
    requires HasTwoThirdsAny(s.votes, round, Commit)
    ensures HasTwoThirdsAny(EnterNewRound(s, env, height, round).votes, round, Commit)
  {
    hide Inv, HasQuorum, Follows, StartRound, EnterPrePrepare, HasTwoThirdsAny;
    if s.height == height && (s.round < round || (s.round == round && s.step == NEW_HEIGHT)) {
      StartRoundKeeps(s, round, w, env.scheme);
      StartRoundCommits(s, round, w, env.scheme);
      var s1 := StartRound(s, round);
      if !s1.panicked { EnterPrePrepareKeeps(s1, env, height, round, w); }
    }
  }

  lemma StartRoundCommits(s: RoundState, round: int, w: World, facts: set<SigFact>)
    requires !s.panicked && Inv(s, w, facts) && HasTwoThirdsAny(s.votes, round, Commit)
    ensures HasTwoThirdsAny(StartRound(s, round).votes, round, Commit)
  {
    hide LocksOk, TimersOk, PositionsOk, LockDiscipline, HV.AllSigned, VS.Valid, HV.NewRound, HV.Fill, VS.Grows;
    HV.FillKeeps(s.votes, s.votes.round - 1, round + 1);
  }

  lemma OnCommitKeeps(s: RoundState, env: Env, height: int, round: int, w: World)
    requires !s.panicked && Inv(s, w, env.scheme) && height == s.height
    requires env.nextVals == w.valsAt(s.height + 1) && NonNegative(env.nextVals)
    ensures var t := OnCommit(s, env, height, round);
            Inv(t, w, env.scheme) && Follows(s, t, w, env.scheme)
  {
    hide HV.AllSigned, VS.Valid, HasQuorum, Inv, Follows, HV.Valid;
    FollowsReflexive(s, w, env.scheme);
    var maj := HV.CommitMajority(s.votes, round);
    var s0 := EnterNewRound(s, env, height, round);
    EnterNewRoundKeeps(s, env, height, round, w);
    if maj.Some? {
      assert HasTwoThirdsAny(s.votes, round, Commit) by { InvVotes(s, w, env.scheme); CommitMajorityAny(s.votes, round); }
      OnMajorityKeeps(s, s0, env, height, round, w);
    } else if s.round <= round && HasTwoThirdsAny(s.votes, round, Commit) {
      NewRoundKeepsCommits(s, env, height, round, w);
      EnterCommitWaitKeeps(s0, height, round, w, env.scheme);
      FollowsTransitive(s, s0, EnterCommitWait(s0, height, round), w, env.scheme);
    }
  }

  lemma InvVotes(s: RoundState, w: World, facts: set<SigFact>)
    requires !s.panicked && Inv(s, w, facts)
    ensures HV.Valid(s.votes) && HV.AllSigned(s.votes, facts)
    ensures s.lastCommits.Some? ==> VS.Valid(s.lastCommits.value)
  {
  }

  lemma OnMajorityKeeps(s: RoundState, s0: RoundState, env: Env, height: int, round: int, w: World)
    requires !s.panicked && Inv(s, w, env.scheme) && height == s.height
    requires env.nextVals == w.valsAt(s.height + 1) && NonNegative(env.nextVals)
    requires HV.CommitMajority(s.votes, round).Some? && HasTwoThirdsAny(s.votes, round, Commit)
    requires s0 == EnterNewRound(s, env, height, round)
    ensures var t := OnCommit(s, env, height, round);
            Inv(t, w, env.scheme) && Follows(s, t, w, env.scheme)
  {
    hide HV.AllSigned, VS.Valid, HasQuorum, Inv, Follows, HV.Valid, EnterNewRound, EnterCommit, EnterReply,
         EnterCommitWait, HasTwoThirdsAny, HV.CommitMajority;
    EnterNewRoundKeeps(s, env, height, round, w);
    NewRoundKeepsCommits(s, env, height, round, w);
    var s1 := EnterCommit(s0, env, height, round);
    RoundReached(s, s0, env, height, round, w);
    EnterCommitKeeps(s0, env, height, round, w);
    CommitAfterPanic(s0, env, height, round);
    FollowsTransitive(s, s0, s1, w, env.scheme);
    if HV.CommitMajority(s.votes, round).value.hash != [] {
      var s2 := EnterReply(s1, env, height, round);
      EnterReplyKeeps(s1, env, height, round, w);
      FollowsTransitive(s, s1, s2, w, env.scheme);
      EnterNewRoundKeeps(s2, env, s2.height, 0, w);
      FollowsTransitive(s, s2, EnterNewRound(s2, env, s2.height, 0), w, env.scheme);
    } else {
      EnterCommitWaitKeeps(s1, height, round, w, env.scheme);
      FollowsTransitive(s, s1, EnterCommitWait(s1, height, round), w, env.scheme);
    }
  }

  lemma CommitAfterPanic(s: RoundState, env: Env, height: int, round: int)
    ensures s.panicked ==> EnterCommit(s, env, height, round) == s
  {
  }

  lemma RoundReached(s: RoundState, s0: RoundState, env: Env, height: int, round: int, w: World)
    requires !s.panicked && Inv(s, w, env.scheme) && height == s.height
    requires s0 == EnterNewRound(s, env, height, round)
    ensures !s0.panicked ==> round <= s0.round
  {
    EnterNewRoundKeeps(s, env, height, round, w);
  }

  lemma InvShaped(s: RoundState, w: World, facts: set<SigFact>)
    requires !s.panicked && Inv(s, w, facts)
    ensures Shaped(s)
  {
    HV.AllShapedIfValid(s.votes);
    if s.lastCommits.Some? { HV.ShapedIfValid(s.lastCommits.value); }
  }

  lemma LastCommitsKeep(s: RoundState, t: RoundState, w: World, facts: set<SigFact>)
    requires !s.panicked && Inv(s, w, facts)
    requires t == s.(lastCommits := t.lastCommits) && (t.lastCommits.Some? ==> VS.Valid(t.lastCommits.value))
    ensures Inv(t, w, facts) && Follows(s, t, w, facts)
  {
    hide HV.Valid, HV.AllSigned, VS.Valid, HasQuorum;
    forall k | 0 <= k < |t.attempts| && CommittedAt(t.attempts[k], t.height)
      ensures Guarded(t, t.attempts[k].vote.blockID.hash, t.attempts[k].vote.round)
    {
      assert Guarded(s, s.attempts[k].vote.blockID.hash, s.attempts[k].vote.round);
    }
  }

  lemma AddVoteKeeps(s: RoundState, env: Env, v: Vote, peer: VS.Peer, w: World)
    requires !s.panicked && Inv(s, w, env.scheme) && Shaped(s)
    requires env.nextVals == w.valsAt(s.height + 1) && NonNegative(env.nextVals)
    ensures var t := AddVote(s, env, v, peer);
            Inv(t, w, env.scheme) && Follows(s, t, w, env.scheme)
  {
    hide HV.Valid, HV.AllSigned, VS.Valid, HasQuorum, Inv, Follows, HV.AddVote, VS.AddVote;
    FollowsReflexive(s, w, env.scheme);
    InvVotes(s, w, env.scheme);
    if v.height + 1 == s.height && v.kind == Commit {
      if s.step == NEW_HEIGHT {
        if s.lastCommits.None? { HaltFollows(s, Halt(s), w, env.scheme); }
        else {
          VS.AddVoteKeeps(s.lastCommits.value, env.scheme, v);
          var s1 := s.(lastCommits := Some(VS.AddVote(s.lastCommits.value, env.scheme, v).state));
          LastCommitsKeep(s, s1, w, env.scheme);
          EnterNewRoundKeeps(s1, env, s1.height, 0, w);
          FollowsTransitive(s, s1, EnterNewRound(s1, env, s1.height, 0), w, env.scheme);
        }
      }
    } else if v.height == s.height {
      HV.AddVoteKeeps(s.votes, env.scheme, v, peer);
      var (votes, added, _) := HV.AddVote(s.votes, env.scheme, v, peer);
      var s1 := s.(votes := votes);
      VotesGrow(s, votes, w, env.scheme);
      if added {
        OnPrepareKeeps(s1, env, s.height, v.round, w);
        OnCommitKeeps(s1, env, s.height, v.round, w);
        FollowsTransitive(s, s1, AddVote(s, env, v, peer), w, env.scheme);
      }
    }
  }

  /** A delivered timeout is for a round the node has reached, so a stale guard leaves only the current one. */
  lemma DeliveredRound(s: RoundState, ti: TimeoutInfo, w: World, facts: set<SigFact>)
    requires !s.panicked && Inv(s, w, facts) && ti in s.scheduled && ti.height == s.height
    ensures ti.round <= s.round
  {
    var k :| 0 <= k < |s.scheduled| && s.scheduled[k] == ti;
  }

  lemma HandleTimeoutKeeps(s: RoundState, env: Env, ti: TimeoutInfo, w: World)
    requires !s.panicked && Inv(s, w, env.scheme) && ti in s.scheduled
    ensures var t := HandleTimeout(s, env, ti);
            Inv(t, w, env.scheme) && Follows(s, t, w, env.scheme)
  {
    hide HV.Valid, HV.AllSigned, VS.Valid, HasQuorum, Inv, Follows, EnterNewRound, EnterPrePrepare, EnterPrepare,
         EnterCommit;
    FollowsReflexive(s, w, env.scheme);
    if ti.height == s.height && s.round <= ti.round {
      DeliveredRound(s, ti, w, env.scheme);
      InvRound(s, w, env.scheme);
      HaltFollows(s, Halt(s), w, env.scheme);
      EnterNewRoundKeeps(s, env, ti.height, 0, w);
      EnterPrePrepareKeeps(s, env, ti.height, 0, w);
      EnterPrepareKeeps(s, env, ti.height, ti.round, w);
      EnterCommitKeeps(s, env, ti.height, ti.round, w);
      var s1 := EnterCommit(s, env, ti.height, ti.round);
      EnterNewRoundKeeps(s1, env, ti.height, ti.round + 1, w);
      FollowsTransitive(s, s1, EnterNewRound(s1, env, ti.height, ti.round + 1), w, env.scheme);
    }
  }

  lemma InvRound(s: RoundState, w: World, facts: set<SigFact>)
    requires !s.panicked && Inv(s, w, facts)
    ensures 0 <= s.round && s.step <= REPLY
  {
  }

  lemma HandleTxsKeeps(s: RoundState, env: Env, w: World)
    requires !s.panicked && Inv(s, w, env.scheme)
    ensures var t := HandleTxsAvailable(s, env);
            Inv(t, w, env.scheme) && Follows(s, t, w, env.scheme)
  {
    hide HV.Valid, HV.AllSigned, VS.Valid, HasQuorum, Inv, Follows;
    FollowsReflexive(s, w, env.scheme);
    InvRound(s, w, env.scheme);
    if s.round == 0 {
      var t := Schedule(s, 0, NEW_ROUND);
      assert t.scheduled == s.scheduled + [TimeoutInfo(s.height, s.round, NEW_ROUND)];
      QuietKeeps(s, t, w, env.scheme);
      EnterPrePrepareKeeps(s, env, s.height, 0, w);
    }
  }

  /** What the outside may do in one event: timeouts come from the node's own schedule, and the application
      hands over the validators that all nodes use at the next height. */
  ghost predicate EnvOk(s: RoundState, env: Env, event: Event, w: World) {
    && env.nextVals == w.valsAt(s.height + 1) && NonNegative(env.nextVals)
    && (event.Timeout? ==> event.ti in s.scheduled)
  }

  lemma SetPrePrepareKeeps(s: RoundState, p: PrePrepare, signatureOk: bool, w: World, facts: set<SigFact>)
    requires !s.panicked && Inv(s, w, facts)
    ensures var t := SetPrePrepare(s, p, signatureOk); Inv(t, w, facts) && Follows(s, t, w, facts)
  {
    hide Inv, Follows;
    QuietKeeps(s, SetPrePrepare(s, p, signatureOk), w, facts);
  }

  /** Every handled message or timeout keeps the invariant, moves (height, round, step) forward only, and
      emits only what is allowed. */
  lemma HandleKeeps(s: RoundState, env: Env, event: Event, w: World)
    requires !s.panicked && Inv(s, w, env.scheme) && EnvOk(s, env, event, w)
    ensures Shaped(s)
    ensures var t := Handle(s, env, event);
            Inv(t, w, env.scheme) && Follows(s, t, w, env.scheme)
  {
    hide HV.Valid, HV.AllSigned, VS.Valid, HasQuorum, Inv, Follows, HandleTxsAvailable, SetPrePrepare, AddBlockPart,
         AddVote, HandleTimeout, HV.SetPeerMaj23, Shaped;
    InvShaped(s, w, env.scheme);
    match event
    case TxsAvailable => HandleTxsKeeps(s, env, w);
    case PrePrepareMsg(p, ok) => SetPrePrepareKeeps(s, p, ok, w, env.scheme);
    case BlockPartMsg(h, outcome) => AddBlockPartKeeps(s, env, h, outcome, w);
    case VoteMsg(v, peer) => AddVoteKeeps(s, env, v, peer, w);
    case PeerMaj23(r, kind, peer, b) =>
      InvVotes(s, w, env.scheme);
      HV.SetPeerMaj23Keeps(s.votes, r, kind, peer, b, env.scheme);
      VotesGrow(s, HV.SetPeerMaj23(s.votes, r, kind, peer, b), w, env.scheme);
    case Timeout(ti) => HandleTimeoutKeeps(s, env, ti, w);
  }

  lemma FreshInv(chainID: string, key: Option<PubKey>, height: int, lastCommits: Option<VS.VoteSet>,
                 w: World, facts: set<SigFact>)
    requires chainID == w.chainID && NonNegative(w.valsAt(height))
    requires lastCommits.Some? ==> VS.Valid(lastCommits.value)
    ensures Inv(Fresh(chainID, key, height, w.valsAt(height), lastCommits), w, facts)
  {
    HV.NewHeightVotesValid(chainID, height, w.valsAt(height));
    AllSignedNew(chainID, height, w.valsAt(height), facts);
  }

  lemma SignedMonotone(s: VS.VoteSet, facts: set<SigFact>, more: set<SigFact>)
    requires facts <= more && VS.AllSigned(s, facts)
    ensures VS.AllSigned(s, more)
  {
    forall b | b in s.byBlock ensures VS.TallySigned(s, s.byBlock[b], more) {
      assert VS.TallySigned(s, s.byBlock[b], facts);
    }
  }

  lemma InvMonotone(s: RoundState, w: World, facts: set<SigFact>, more: set<SigFact>)
    requires Inv(s, w, facts) && facts <= more
    ensures Inv(s, w, more)
  {
    hide HV.Valid, VS.Valid, VS.AllSigned;
    if !s.panicked {
      forall r | r in s.votes.sets
        ensures VS.AllSigned(s.votes.sets[r].prepares, more) && VS.AllSigned(s.votes.sets[r].commits, more)
      {
        SignedMonotone(s.votes.sets[r].prepares, facts, more);
        SignedMonotone(s.votes.sets[r].commits, facts, more);
      }
    }
  }
}
