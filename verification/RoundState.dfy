/** `consensus/consensus_state.go` as functions on the round state: what each step makes of it. */
module RoundStates {
  import opened Types
  import opened Power
  import VS = VoteSets
  import HV = HeightVoteSets
  import Certificates

  const NEW_HEIGHT: int := 1
  const NEW_ROUND: int := 2
  const PRE_PREPARE: int := 3
  const PREPARE: int := 4
  const PREPARE_WAIT: int := 5
  const COMMIT: int := 6
  const COMMIT_WAIT: int := 7
  const REPLY: int := 8

  datatype Block = Block(hash: Bytes)

  /** A part set: its header and whether every part has arrived. */
  datatype Parts = Parts(header: PartSetHeader, complete: bool)

  datatype PrePrepare = PrePrepare(height: int, round: int, polRound: int, blockID: BlockID)

  datatype TimeoutInfo = TimeoutInfo(height: int, round: int, step: int)

  /** One request to sign a vote: the step was entered for round `enteredFor`; `ok` if a signature came back;
      `known` are the votes the node had recorded. */
  datatype Attempt = Attempt(vote: Vote, enteredFor: int, ok: bool, known: HV.HeightVotes)

  datatype Appended = Appended(height: int, hash: Bytes)

  /** `RoundState`, the node's key, and what the node has emitted so far. */
  datatype RoundState = RoundState(
    chainID: string, key: Option<PubKey>,
    height: int, round: int, step: int, vals: seq<Validator>,
    prePrepare: Option<PrePrepare>, block: Option<Block>, parts: Option<Parts>,
    lockedRound: int, lockedBlock: Option<Block>, lockedParts: Option<Parts>,
    validRound: int, validBlock: Option<Block>, validParts: Option<Parts>,
    votes: HV.HeightVotes, replyRound: int, lastCommits: Option<VS.VoteSet>, triggeredCommitWait: bool,
    attempts: seq<Attempt>, proposals: seq<PrePrepare>, scheduled: seq<TimeoutInfo>, appended: seq<Appended>,
    panicked: bool)

  /** What one handled event sees of the outside: signatures, clock, signer, application and configuration. */
  datatype Env = Env(
    scheme: set<SigFact>, voteTime: int, sign: SignBytes -> Option<Bytes>, signProposal: bool,
    blockOk: Block -> bool, primary: bool, newBlock: Option<(Block, PartSetHeader)>,
    waitForTxs: bool, emptyBlockInterval: bool, needProofBlock: bool, skipTimeoutReply: bool,
    stored: bool, applyOk: bool, nextVals: seq<Validator>)

  /** What adding a block part to the current part set leads to. */
  datatype PartOutcome =
    | NotAdded
    | Added(tooLarge: bool)
    | Completed(tooLarge: bool, decoded: Option<Block>)

  datatype Event =
    | TxsAvailable
    | PrePrepareMsg(prePrepare: PrePrepare, signatureOk: bool)
    | BlockPartMsg(height: int, outcome: PartOutcome)
    | VoteMsg(vote: Vote, peer: VS.Peer)
    | PeerMaj23(round: int, kind: VoteType, peer: VS.Peer, blockID: BlockID)
    | Timeout(ti: TimeoutInfo)

  // ---------------------------------------------------------------- small pieces

  predicate EqualsTo(b: Option<Block>, hash: Bytes) {
    hash != [] && b.Some? && b.value.hash == hash
  }

  function Header(p: Option<Parts>): PartSetHeader {
    if p.Some? then p.value.header else ZERO_PARTS
  }

  predicate HeaderEqualsTo(p: Option<Parts>, header: PartSetHeader) {
    p.Some? && p.value.header == header
  }

  function PartsFromHeader(header: PartSetHeader): Option<Parts> {
    Some(Parts(header, header.total == 0))
  }

  function Halt(s: RoundState): RoundState { s.(panicked := true) }

  function Schedule(s: RoundState, round: int, step: int): RoundState {
    s.(scheduled := s.scheduled + [TimeoutInfo(s.height, round, step)])
  }

  function Unlock(s: RoundState): RoundState {
    s.(lockedRound := -1, lockedBlock := None, lockedParts := None)
  }

  predicate HasTwoThirdsAny(votes: HV.HeightVotes, round: int, kind: VoteType) {
    var vs := HV.Get(votes, round, kind);
    vs.Some? && VS.HasTwoThirdsAny(vs.value)
  }

  /** The commits of the round can be made into the certificate that is stored with the block. */
  predicate Certifiable(votes: HV.HeightVotes, round: int) {
    var commits := HV.Get(votes, round, Commit);
    commits.Some? && Certificates.MakeReply(commits.value).Some?
  }

  /** `signAddVote`: the vote carries the state's own round, whatever round the step was entered for. */
  function SignAddVote(s: RoundState, env: Env, kind: VoteType, blockID: BlockID, enteredFor: int): RoundState {
    if s.key.None? || FindAddress(s.vals, s.key.value.address) == -1 then s
    else
      var bytes := VoteBytes(s.chainID, kind, s.height, s.round, blockID, env.voteTime);
      var sig := env.sign(bytes);
      var vote := Vote(kind, s.height, s.round, blockID, env.voteTime, s.key.value.address,
                       FindAddress(s.vals, s.key.value.address), if sig.Some? then sig.value else []);
      s.(attempts := s.attempts + [Attempt(vote, enteredFor, sig.Some?, s.votes)])
  }

  predicate IsPrePrepareComplete(s: RoundState) {
    && s.prePrepare.Some? && s.block.Some?
    && (s.prePrepare.value.polRound < 0 || HV.Polka(s.votes, s.prePrepare.value.polRound).Some?)
  }

  predicate Stale(s: RoundState, height: int, round: int, step: int) {
    s.panicked || s.height != height || round < s.round || (s.round == round && step <= s.step)
  }

  // ---------------------------------------------------------------- the steps

  function PrepareChoice(s: RoundState, env: Env): BlockID {
    if s.lockedBlock.Some? then BlockID(s.lockedBlock.value.hash, Header(s.lockedParts))
    else if s.block.None? || !env.blockOk(s.block.value) then NIL_BLOCK
    else BlockID(s.block.value.hash, Header(s.parts))
  }

  function EnterPrepare(s: RoundState, env: Env, height: int, round: int): RoundState {
    if Stale(s, height, round, PREPARE) then s
    else SignAddVote(s, env, Prepare, PrepareChoice(s, env), round).(round := round, step := PREPARE)
  }

  function DecidePrePrepare(s: RoundState, env: Env, round: int): RoundState {
    var choice := if s.validBlock.Some? then Some((s.validBlock.value, Header(s.validParts))) else env.newBlock;
    if choice.None? || !env.signProposal then s
    else s.(proposals := s.proposals
              + [PrePrepare(s.height, round, s.validRound, BlockID(choice.value.0.hash, choice.value.1))])
  }

  function EnterPrePrepare(s: RoundState, env: Env, height: int, round: int): RoundState {
    if Stale(s, height, round, PRE_PREPARE) then s
    else
      var s1 := Schedule(s, round, PRE_PREPARE);
      var mine := s.key.Some? && FindAddress(s.vals, s.key.value.address) != -1 && env.primary;
      var s2 := (if mine then DecidePrePrepare(s1, env, round) else s1).(round := round, step := PRE_PREPARE);
      if IsPrePrepareComplete(s2) then EnterPrepare(s2, env, height, s2.round) else s2
  }

  /** The state just after `enterNewRound` has moved to the round, before it proposes or waits. */
  function StartRound(s: RoundState, round: int): RoundState {
    var s1 := s.(round := round, step := NEW_ROUND, triggeredCommitWait := false);
    var s2 := if round != 0 then s1.(prePrepare := None, block := None, parts := None) else s1;
    if round >= MAX_INT32 || HV.SetRoundPanics(s.votes, round + 1) then Halt(s2)
    else s2.(votes := HV.SetRound(s.votes, round + 1))
  }

  function EnterNewRound(s: RoundState, env: Env, height: int, round: int): RoundState {
    if s.panicked || s.height != height || round < s.round || (s.round == round && s.step != NEW_HEIGHT) then s
    else
      var s1 := StartRound(s, round);
      if s1.panicked then s1
      else if env.waitForTxs && round == 0 && !env.needProofBlock then
        if env.emptyBlockInterval then Schedule(s1, round, NEW_ROUND) else s1
      else EnterPrePrepare(s1, env, height, round)
  }

  function EnterPrepareWait(s: RoundState, height: int, round: int): RoundState {
    if Stale(s, height, round, PREPARE_WAIT) then s
    else Schedule(s, round, PREPARE_WAIT).(round := round, step := PREPARE_WAIT)
  }

  /** Greatest tracked round up to `r` whose prepares have a majority, or -1. */
  function PolRound(votes: HV.HeightVotes, r: int): (pol: int)
    decreases r
  {
    if r < 0 then -1 else if HV.Polka(votes, r).Some? then r else PolRound(votes, r - 1)
  }

  function LockBlock(s: RoundState, round: int): RoundState {
    s.(lockedRound := round, lockedBlock := s.block, lockedParts := s.parts)
  }

  /** The majority is for a block that is not here: unlock and fetch it. */
  function FetchBlock(s: RoundState, b: BlockID): RoundState {
    var s1 := Unlock(s);
    if HeaderEqualsTo(s.parts, b.parts) then s1 else s1.(block := None, parts := PartsFromHeader(b.parts))
  }

  /** The lock changes of `enterCommit`, and the block it votes for. */
  function CommitChoice(s: RoundState, env: Env, round: int): (RoundState, BlockID) {
    var polka := HV.Polka(s.votes, round);
    if polka.None? then (s, NIL_BLOCK)
    else if PolRound(s.votes, s.votes.round) < round then (Halt(s), NIL_BLOCK)
    else if polka.value.hash == [] then ((if s.lockedBlock.None? then s else Unlock(s)), NIL_BLOCK)
    else if EqualsTo(s.lockedBlock, polka.value.hash) then (s.(lockedRound := round), polka.value)
    else if EqualsTo(s.block, polka.value.hash) then
      if !env.blockOk(s.block.value) then (Halt(s), NIL_BLOCK)
      else (LockBlock(s, round), polka.value)
    else (FetchBlock(s, polka.value), NIL_BLOCK)
  }

  function EnterCommit(s: RoundState, env: Env, height: int, round: int): RoundState {
    if Stale(s, height, round, COMMIT) then s
    else
      var (s1, blockID) := CommitChoice(s, env, round);
      if s1.panicked then s1
      else SignAddVote(s1, env, Commit, blockID, round).(round := round, step := COMMIT)
  }

  function EnterCommitWait(s: RoundState, height: int, round: int): RoundState {
    if s.panicked || s.height != height || round < s.round || (s.round == round && s.triggeredCommitWait) then s
    else if !HasTwoThirdsAny(s.votes, round, Commit) then Halt(s)
    else Schedule(s, round, COMMIT_WAIT).(triggeredCommitWait := true)
  }

  /** Nothing of the finished height's proposal, lock or valid block survives it. */
  function ClearHeight(s: RoundState): RoundState {
    s.(round := 0, step := NEW_HEIGHT, prePrepare := None, block := None, parts := None,
       lockedRound := -1, lockedBlock := None, lockedParts := None,
       validRound := -1, validBlock := None, validParts := None,
       replyRound := -1, triggeredCommitWait := false)
  }

  function UpdateToState(s: RoundState, env: Env): RoundState {
    if HV.CommitMajority(s.votes, s.replyRound).None? then Halt(s)
    else
      var h := s.height + 1;
      Schedule(
        ClearHeight(s).(lastCommits := HV.Get(s.votes, s.replyRound, Commit), height := h, vals := env.nextVals,
                        votes := HV.NewHeightVotes(s.chainID, h, env.nextVals)),
        0, NEW_HEIGHT)
  }

  function FinalizeAppend(s: RoundState, env: Env, height: int): RoundState {
    if s.panicked || s.height != height || s.step != REPLY then s
    else
      var maj := HV.CommitMajority(s.votes, s.replyRound);
      if maj.None? || !HeaderEqualsTo(s.parts, maj.value.parts) || !EqualsTo(s.block, maj.value.hash)
         || !env.blockOk(s.block.value) || !(env.stored || Certifiable(s.votes, s.replyRound)) then Halt(s)
      else
        var s1 := s.(appended := s.appended + [Appended(height, s.block.value.hash)]);
        if env.applyOk then UpdateToState(s1, env) else s1
  }

  function TryFinalizeAppend(s: RoundState, env: Env, height: int): RoundState {
    if s.panicked then s
    else if s.height != height then Halt(s)
    else
      var maj := HV.CommitMajority(s.votes, s.replyRound);
      if maj.None? || maj.value.hash == [] || !EqualsTo(s.block, maj.value.hash) then s
      else FinalizeAppend(s, env, height)
  }

  /** On entering reply the locked block is taken if it won, and an unknown winner is awaited. */
  function Awaiting(s: RoundState, b: BlockID): RoundState {
    var s1 := if EqualsTo(s.lockedBlock, b.hash) then s.(block := s.lockedBlock, parts := s.lockedParts) else s;
    if !EqualsTo(s1.block, b.hash) && !HeaderEqualsTo(s1.parts, b.parts)
    then s1.(block := None, parts := PartsFromHeader(b.parts)) else s1
  }

  function EnterReply(s: RoundState, env: Env, height: int, commitRound: int): RoundState {
    if s.panicked || s.height != height || REPLY <= s.step then s
    else
      var maj := HV.CommitMajority(s.votes, commitRound);
      var b := if maj.Some? then maj.value else NIL_BLOCK;
      TryFinalizeAppend(Awaiting(s, b).(step := REPLY, replyRound := commitRound), env, height)
  }

  // ---------------------------------------------------------------- messages and timeouts

  function SetPrePrepare(s: RoundState, p: PrePrepare, signatureOk: bool): RoundState {
    if s.prePrepare.Some? || p.height != s.height || p.round != s.round then s
    else if p.polRound < -1 || (p.polRound >= 0 && p.polRound >= p.round) then s
    else if !signatureOk then s
    else s.(prePrepare := Some(p), parts := if s.parts.None? then PartsFromHeader(p.blockID.parts) else s.parts)
  }

  /** The valid block follows a majority of the current round for the block just completed. */
  function NoteValid(s: RoundState): RoundState {
    var polka := HV.Polka(s.votes, s.round);
    if polka.Some? && !polka.value.IsZero() && s.validRound < s.round && EqualsTo(s.block, polka.value.hash)
    then s.(validRound := s.round, validBlock := s.block, validParts := s.parts) else s
  }

  function AddBlockPart(s: RoundState, env: Env, height: int, outcome: PartOutcome): RoundState {
    if s.height != height || s.parts.None? || s.parts.value.complete then s
    else
      match outcome
      case NotAdded => s
      case Added(_) => s
      case Completed(tooLarge, decoded) =>
        var s1 := s.(parts := Some(s.parts.value.(complete := true)));
        if tooLarge || decoded.None? then s1 else OnBlock(NoteValid(s1.(block := decoded)), env, height)
  }

  /** Where a completed block leads. */
  function OnBlock(s: RoundState, env: Env, height: int): RoundState {
    if s.step <= PRE_PREPARE && IsPrePrepareComplete(s) then
      var s1 := EnterPrepare(s, env, height, s.round);
      if HV.Polka(s.votes, s.round).Some? then EnterCommit(s1, env, height, s1.round) else s1
    else if s.step == REPLY then TryFinalizeAppend(s, env, height)
    else s
  }

  /** A prepare majority of a later round for something else releases the lock. */
  function ReleaseOnPolka(s: RoundState, round: int, b: BlockID): RoundState {
    if s.lockedBlock.Some? && s.lockedRound < round <= s.round && !EqualsTo(s.lockedBlock, b.hash)
    then Unlock(s) else s
  }

  /** A prepare majority of the current round makes its block the valid one, or the one to wait for. */
  function ValidOnPolka(s: RoundState, round: int, b: BlockID): RoundState {
    if b.hash != [] && s.validRound < round && round == s.round then
      var parts := if HeaderEqualsTo(s.parts, b.parts) then s.parts else PartsFromHeader(b.parts);
      if EqualsTo(s.block, b.hash)
      then s.(validRound := round, validBlock := s.block, validParts := s.parts, parts := parts)
      else s.(block := None, parts := parts)
    else s
  }

  /** What a prepare majority does to lock and valid block when one of its votes arrives. */
  function OnPolka(s: RoundState, round: int, b: BlockID): RoundState {
    ValidOnPolka(ReleaseOnPolka(s, round, b), round, b)
  }

  function OnPrepare(s: RoundState, env: Env, height: int, round: int): RoundState {
    var polka := HV.Polka(s.votes, round);
    var s1 := if polka.Some? then OnPolka(s, round, polka.value) else s;
    var twoThirdsAny := HasTwoThirdsAny(s.votes, round, Prepare);
    if s1.round < round && twoThirdsAny then EnterNewRound(s1, env, height, round)
    else if s1.round == round && PREPARE <= s1.step then
      if polka.Some? && (IsPrePrepareComplete(s1) || polka.value.hash == []) then EnterCommit(s1, env, height, round)
      else if twoThirdsAny then EnterPrepareWait(s1, height, round)
      else s1
    else if s1.prePrepare.Some? && 0 <= s1.prePrepare.value.polRound == round && IsPrePrepareComplete(s1) then
      EnterPrepare(s1, env, height, s1.round)
    else s1
  }

  function OnCommit(s: RoundState, env: Env, height: int, round: int): RoundState {
    var maj := HV.CommitMajority(s.votes, round);
    var commits := HV.Get(s.votes, round, Commit);
    if maj.Some? then
      var s1 := EnterCommit(EnterNewRound(s, env, height, round), env, height, round);
      if maj.value.hash != [] then
        var s2 := EnterReply(s1, env, height, round);
        if env.skipTimeoutReply && commits.Some? && VS.HasAll(commits.value)
        then EnterNewRound(s2, env, s2.height, 0) else s2
      else EnterCommitWait(s1, height, round)
    else if s.round <= round && HasTwoThirdsAny(s.votes, round, Commit) then
      EnterCommitWait(EnterNewRound(s, env, height, round), height, round)
    else s
  }

  predicate Shaped(s: RoundState) {
    HV.AllShaped(s.votes) && (s.lastCommits.Some? ==> VS.Shaped(s.lastCommits.value))
  }

  /** `addVote`. */
  function AddVote(s: RoundState, env: Env, v: Vote, peer: VS.Peer): RoundState
    requires Shaped(s)
  {
    if v.height + 1 == s.height && v.kind == Commit then
      if s.step != NEW_HEIGHT then s
      else if s.lastCommits.None? then Halt(s)
      else
        var res := VS.AddVote(s.lastCommits.value, env.scheme, v);
        var s1 := s.(lastCommits := Some(res.state));
        if res.added && env.skipTimeoutReply && VS.HasAll(res.state) then EnterNewRound(s1, env, s1.height, 0) else s1
    else if v.height != s.height then s
    else
      var (votes, added, _) := HV.AddVote(s.votes, env.scheme, v, peer);
      var s1 := s.(votes := votes);
      if !added then s1
      else if v.kind == Prepare then OnPrepare(s1, env, s.height, v.round)
      else OnCommit(s1, env, s.height, v.round)
  }

  function HandleTimeout(s: RoundState, env: Env, ti: TimeoutInfo): RoundState {
    if ti.height != s.height || ti.round < s.round || (ti.round == s.round && ti.step < s.step) then s
    else if ti.step == NEW_HEIGHT then EnterNewRound(s, env, ti.height, 0)
    else if ti.step == NEW_ROUND then EnterPrePrepare(s, env, ti.height, 0)
    else if ti.step == PRE_PREPARE then EnterPrepare(s, env, ti.height, ti.round)
    else if ti.step == PREPARE_WAIT then EnterCommit(s, env, ti.height, ti.round)
    else if ti.step == COMMIT_WAIT then
      EnterNewRound(EnterCommit(s, env, ti.height, ti.round), env, ti.height, ti.round + 1)
    else Halt(s)
  }

  function HandleTxsAvailable(s: RoundState, env: Env): RoundState {
    if s.round != 0 then s
    else if s.step == NEW_HEIGHT then
      if env.needProofBlock then s else Schedule(s, 0, NEW_ROUND)
    else if s.step == NEW_ROUND then EnterPrePrepare(s, env, s.height, 0)
    else s
  }

  /** One event through the receive routine. A node that has panicked handles nothing more. */
  function Handle(s: RoundState, env: Env, event: Event): RoundState
    requires Shaped(s)
  {
    if s.panicked then s
    else
      match event
      case TxsAvailable => HandleTxsAvailable(s, env)
      case PrePrepareMsg(p, ok) => SetPrePrepare(s, p, ok)
      case BlockPartMsg(h, outcome) => AddBlockPart(s, env, h, outcome)
      case VoteMsg(v, peer) => AddVote(s, env, v, peer)
      case PeerMaj23(r, kind, peer, b) => s.(votes := HV.SetPeerMaj23(s.votes, r, kind, peer, b))
      case Timeout(ti) => HandleTimeout(s, env, ti)
  }

  /** A node at the start of a height, before it has voted for anything. */
  function Fresh(chainID: string, key: Option<PubKey>, height: int, vals: seq<Validator>,
                 lastCommits: Option<VS.VoteSet>): RoundState {
    Schedule(
      RoundState(chainID, key, height, 0, NEW_HEIGHT, vals, None, None, None, -1, None, None, -1, None, None,
                 HV.NewHeightVotes(chainID, height, vals), -1, lastCommits, false, [], [], [], [], false),
      0, NEW_HEIGHT)
  }
}
