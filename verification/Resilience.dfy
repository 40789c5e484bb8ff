/** How much the network survives: as soon as two quorums have only faulty validators in common, there is a run
    in which two correct nodes append different blocks. */
module Resilience {
  import opened Types
  import opened Power
  import VS = VoteSets
  import HV = HeightVoteSets
  import opened Quorums
  import opened RoundStates
  import opened Invariants
  import opened Agreement
  import opened Network

  /** Validators are told apart by non-empty addresses. */
  ghost predicate Named(vals: seq<Validator>) {
    && NonNegative(vals)
    && (forall i | 0 <= i < |vals| :: vals[i].address == vals[i].pubKey.address && vals[i].address != [])
    && (forall i, j | 0 <= i < j < |vals| :: vals[i].address != vals[j].address)
  }

  predicate Within(n: nat, s: set<int>) { forall j | j in s :: 0 <= j < n }

  /** One block proposed in round 0 of a height, and what voting for it looks like. */
  datatype Ballot = Ballot(w: World, height: int, b: BlockID) {
    function Vals(): seq<Validator> { w.valsAt(height) }

    ghost predicate Ok() { WorldOk(w) && Named(Vals()) && b.IsComplete() }

    function VoteBy(kind: VoteType, j: int): Vote
      requires 0 <= j < |Vals()|
    {
      Vote(kind, height, 0, b, 0, Vals()[j].address, j, [1])
    }

    function Fact(kind: VoteType, j: int): SigFact
      requires 0 <= j < |Vals()|
    {
      SigFact(Vals()[j].pubKey, VoteBytes(w.chainID, kind, height, 0, b, 0), [1])
    }

    function Slots(kind: VoteType, d: set<int>): seq<Option<Vote>> {
      seq(|Vals()|, j requires 0 <= j < |Vals()| => if j in d then Some(VoteBy(kind, j)) else None)
    }

    /** The vote set once exactly the validators of `d` have voted. */
    function Tally(kind: VoteType, d: set<int>): VS.VoteSet {
      var sum := Weight(Vals(), d);
      VS.VoteSet(w.chainID, height, 0, kind, Vals(), d, Slots(kind, d), sum,
                 if sum >= QUORUM then Some(b) else None,
                 if d == {} then map[] else map[b := VS.BlockVotes(false, d, Slots(kind, d), sum)], map[])
    }

    function Votes(d: set<int>, e: set<int>): HV.HeightVotes {
      HV.HeightVotes(w.chainID, height, Vals(), 0, map[0 := HV.RoundVotes(Tally(Prepare, d), Tally(Commit, e))], map[])
    }

    // ---------------------------------------------------------------- one node on its way to the block

    function Start(i: int): RoundState
      requires 0 <= i < |Vals()|
    {
      Fresh(w.chainID, Some(Vals()[i].pubKey), height, Vals(), None)
    }

    function Proposal(): PrePrepare { PrePrepare(height, 0, -1, b) }

    /** The proposal has arrived. */
    function Proposed(i: int): RoundState
      requires 0 <= i < |Vals()|
    {
      Start(i).(prePrepare := Some(Proposal()), parts := Some(Parts(b.parts, false)))
    }

    function Whole(): Option<Parts> { Some(Parts(b.parts, true)) }

    /** The block is complete and the prepare is signed. */
    function Ready(i: int): RoundState
      requires 0 <= i < |Vals()|
    {
      Proposed(i).(block := Some(Block(b.hash)), parts := Whole(), step := PREPARE,
                   attempts := [Attempt(VoteBy(Prepare, i), 0, true, Start(i).votes)])
    }

    /** Prepares of `d`, not yet a majority, have arrived. */
    predicate Collecting(s: RoundState, i: int, d: set<int>)
      requires 0 <= i < |Vals()|
    {
      && s == Ready(i).(votes := Votes(d, {}), step := s.step, scheduled := s.scheduled)
      && PREPARE <= s.step <= PREPARE_WAIT && Weight(Vals(), d) < QUORUM
    }

    /** Prepares of `d` made the node lock and commit; commits of `e`, not yet a majority, have arrived. */
    predicate Locked(s: RoundState, i: int, d: set<int>, e: set<int>)
      requires 0 <= i < |Vals()|
    {
      && s == Ready(i).(votes := Votes(d, e), step := COMMIT, scheduled := s.scheduled,
                        triggeredCommitWait := s.triggeredCommitWait,
                        attempts := Ready(i).attempts + [Attempt(VoteBy(Commit, i), 0, true, Votes(d, {}))],
                        lockedRound := 0, lockedBlock := Some(Block(b.hash)), lockedParts := Whole(),
                        validRound := 0, validBlock := Some(Block(b.hash)), validParts := Whole())
      && Weight(Vals(), d) >= QUORUM > Weight(Vals(), e)
    }
  }

  /** An environment in which every signing request and every block is accepted. */
  function Calm(w: World, height: int, log: seq<SigFact>): Env {
    Env(FactsOf(log), 0, _ => Some([1]), false, _ => true, false, None, false, false, false, false, false, true,
        w.valsAt(height + 1))
  }

  // ---------------------------------------------------------------- counting

  lemma SlotsAdd(x: Ballot, kind: VoteType, d: set<int>, j: int)
    requires 0 <= j < |x.Vals()|
    ensures x.Slots(kind, d)[j := Some(x.VoteBy(kind, j))] == x.Slots(kind, d + {j})
  {
  }

  lemma TallyAdd(x: Ballot, kind: VoteType, d: set<int>, j: int, scheme: set<SigFact>)
    requires x.Ok() && 0 <= j < |x.Vals()| && j !in d && x.Fact(kind, j) in scheme
    ensures VS.Shaped(x.Tally(kind, d))
    ensures VS.AddVote(x.Tally(kind, d), scheme, x.VoteBy(kind, j)) == VS.AddResult(x.Tally(kind, d + {j}), true, VS.NoError)
  {
    hide Weight;
    var s, v, n := x.Tally(kind, d), x.VoteBy(kind, j), |x.Vals()|;
    SlotsAdd(x, kind, d, j);
    WeightEmpty(x.Vals());
    WeightAdd(x.Vals(), d, j);
    assert x.Slots(kind, {}) == VS.Blank(n);
    var slots := x.Slots(kind, d + {j});
    assert VS.Overlay(slots, slots) == slots;
    var s1 := VS.Record(s, v);
    assert s1.votes == slots;
    var bv := if v.blockID in s.byBlock then s.byBlock[v.blockID] else VS.NewBlockVotes(false, n);
    assert bv == VS.BlockVotes(false, d, x.Slots(kind, d), Weight(x.Vals(), d));
    assert VS.Track(bv, v, x.Vals()[j].power) == VS.BlockVotes(false, d + {j}, slots, Weight(x.Vals(), d + {j}));
    assert s1.byBlock[v.blockID := VS.Track(bv, v, x.Vals()[j].power)] == x.Tally(kind, d + {j}).byBlock;
    assert VS.CountForBlock(s1, v, bv) == x.Tally(kind, d + {j});
  }

  lemma VotesShaped(x: Ballot, d: set<int>, e: set<int>)
    ensures HV.AllShaped(x.Votes(d, e))
  {
  }

  lemma StartVotes(x: Ballot, i: int)
    requires x.Ok() && 0 <= i < |x.Vals()|
    ensures x.Start(i).votes == x.Votes({}, {})
  {
    hide Weight;
    WeightEmpty(x.Vals());
    assert x.Slots(Prepare, {}) == x.Slots(Commit, {}) == VS.Blank(|x.Vals()|);
  }

  lemma PrepareArrives(x: Ballot, d: set<int>, e: set<int>, j: int, scheme: set<SigFact>, peer: VS.Peer)
    requires x.Ok() && 0 <= j < |x.Vals()| && j !in d && x.Fact(Prepare, j) in scheme
    ensures HV.AllShaped(x.Votes(d, e))
    ensures var r := HV.AddVote(x.Votes(d, e), scheme, x.VoteBy(Prepare, j), peer); r.0 == x.Votes(d + {j}, e) && r.1
  {
    hide VS.AddVote, Weight, Ballot.Tally;
    VotesShaped(x, d, e);
    TallyAdd(x, Prepare, d, j, scheme);
    assert x.Votes(d, e).sets[0 := HV.RoundVotes(x.Tally(Prepare, d + {j}), x.Tally(Commit, e))] == x.Votes(d + {j}, e).sets;
  }

  lemma CommitArrives(x: Ballot, d: set<int>, e: set<int>, j: int, scheme: set<SigFact>, peer: VS.Peer)
    requires x.Ok() && 0 <= j < |x.Vals()| && j !in e && x.Fact(Commit, j) in scheme
    ensures HV.AllShaped(x.Votes(d, e))
    ensures var r := HV.AddVote(x.Votes(d, e), scheme, x.VoteBy(Commit, j), peer); r.0 == x.Votes(d, e + {j}) && r.1
  {
    hide VS.AddVote, Weight, Ballot.Tally;
    VotesShaped(x, d, e);
    TallyAdd(x, Commit, e, j, scheme);
    assert x.Votes(d, e).sets[0 := HV.RoundVotes(x.Tally(Prepare, d), x.Tally(Commit, e + {j}))] == x.Votes(d, e + {j}).sets;
  }

  // ---------------------------------------------------------------- what one node does

  lemma FindSelf(x: Ballot, i: int)
    requires x.Ok() && 0 <= i < |x.Vals()|
    ensures FindAddress(x.Vals(), x.Vals()[i].pubKey.address) == i
  {
  }

  lemma ProposalArrives(x: Ballot, i: int, env: Env)
    requires x.Ok() && 0 <= i < |x.Vals()|
    ensures Shaped(x.Start(i)) && Handle(x.Start(i), env, PrePrepareMsg(x.Proposal(), true)) == x.Proposed(i)
  {
    StartVotes(x, i);
    VotesShaped(x, {}, {});
  }

  lemma BlockArrives(x: Ballot, i: int, log: seq<SigFact>)
    requires x.Ok() && 0 <= i < |x.Vals()|
    ensures Shaped(x.Proposed(i))
    ensures Handle(x.Proposed(i), Calm(x.w, x.height, log),
                   BlockPartMsg(x.height, Completed(false, Some(Block(x.b.hash))))) == x.Ready(i)
  {
    hide Weight, FindAddress;
    StartVotes(x, i);
    VotesShaped(x, {}, {});
    FindSelf(x, i);
    WeightEmpty(x.Vals());
    assert HV.Polka(x.Proposed(i).votes, 0) == None;
    var env := Calm(x.w, x.height, log);
    var s1 := x.Proposed(i).(parts := x.Whole(), block := Some(Block(x.b.hash)));
    assert NoteValid(s1) == s1;
    assert EnterPrepare(s1, env, x.height, 0) == x.Ready(i);
    assert OnBlock(s1, env, x.height) == x.Ready(i);
  }

  lemma ReadyCollects(x: Ballot, i: int)
    requires x.Ok() && 0 <= i < |x.Vals()|
    ensures x.Collecting(x.Ready(i), i, {})
  {
    StartVotes(x, i);
    WeightEmpty(x.Vals());
  }

  lemma Majorities(x: Ballot, d: set<int>, e: set<int>)
    ensures HV.Polka(x.Votes(d, e), 0) == if Weight(x.Vals(), d) >= QUORUM then Some(x.b) else None
    ensures HV.CommitMajority(x.Votes(d, e), 0) == if Weight(x.Vals(), e) >= QUORUM then Some(x.b) else None
    ensures PolRound(x.Votes(d, e), 0) == if Weight(x.Vals(), d) >= QUORUM then 0 else -1
  {
    assert PolRound(x.Votes(d, e), -1) == -1;
  }

  /** The locking step, once the majority is there. */
  lemma LocksOnMajority(x: Ballot, i: int, d: set<int>, s: RoundState, log: seq<SigFact>)
    requires x.Ok() && 0 <= i < |x.Vals()| && Weight(x.Vals(), d) >= QUORUM
    requires s == x.Ready(i).(votes := x.Votes(d, {}), step := s.step, scheduled := s.scheduled)
    requires PREPARE <= s.step <= PREPARE_WAIT
    ensures x.Locked(OnPrepare(s, Calm(x.w, x.height, log), x.height, 0), i, d, {})
  {
    hide Weight, FindAddress, HV.Polka, PolRound, HasTwoThirdsAny;
    FindSelf(x, i);
    Majorities(x, d, {});
    WeightEmpty(x.Vals());
    var env := Calm(x.w, x.height, log);
    var whole := Some(Block(x.b.hash));
    var s1 := s.(validRound := 0, validBlock := whole, validParts := x.Whole());
    assert OnPolka(s, 0, x.b) == s1;
    var s2 := s1.(lockedRound := 0, lockedBlock := whole, lockedParts := x.Whole());
    assert CommitChoice(s1, env, 0) == (s2, x.b);
    assert x.Locked(EnterCommit(s1, env, x.height, 0), i, d, {});
  }

  lemma CollectsOn(x: Ballot, i: int, d: set<int>, s: RoundState, log: seq<SigFact>)
    requires x.Ok() && 0 <= i < |x.Vals()| && Weight(x.Vals(), d) < QUORUM
    requires s == x.Ready(i).(votes := x.Votes(d, {}), step := s.step, scheduled := s.scheduled)
    requires PREPARE <= s.step <= PREPARE_WAIT
    ensures x.Collecting(OnPrepare(s, Calm(x.w, x.height, log), x.height, 0), i, d)
  {
    hide Weight, HV.Polka, PolRound, HasTwoThirdsAny;
    Majorities(x, d, {});
  }

  /** A prepare arrives: the node goes on collecting, or locks and commits. */
  lemma OnePrepare(x: Ballot, i: int, d: set<int>, j: int, s: RoundState, log: seq<SigFact>)
    requires x.Ok() && 0 <= i < |x.Vals()| && x.Collecting(s, i, d)
    requires 0 <= j < |x.Vals()| && j !in d && x.Fact(Prepare, j) in FactsOf(log)
    ensures Shaped(s)
    ensures var t := Handle(s, Calm(x.w, x.height, log), VoteMsg(x.VoteBy(Prepare, j), ""));
            if Weight(x.Vals(), d + {j}) < QUORUM then x.Collecting(t, i, d + {j}) else x.Locked(t, i, d + {j}, {})
  {
    hide Weight, HV.AddVote, OnPrepare, Ballot.Votes, HV.AllShaped;
    var env := Calm(x.w, x.height, log);
    PrepareArrives(x, d, {}, j, env.scheme, "");
    var s1 := s.(votes := x.Votes(d + {j}, {}));
    if Weight(x.Vals(), d + {j}) < QUORUM { CollectsOn(x, i, d + {j}, s1, log); }
    else { LocksOnMajority(x, i, d + {j}, s1, log); }
  }

  /** A commit arrives: the node waits for more, or appends the block. */
  lemma OneCommit(x: Ballot, i: int, d: set<int>, e: set<int>, j: int, s: RoundState, log: seq<SigFact>)
    requires x.Ok() && 0 <= i < |x.Vals()| && x.Locked(s, i, d, e)
    requires 0 <= j < |x.Vals()| && j !in e && x.Fact(Commit, j) in FactsOf(log)
    ensures Shaped(s)
    ensures var t := Handle(s, Calm(x.w, x.height, log), VoteMsg(x.VoteBy(Commit, j), ""));
            if Weight(x.Vals(), e + {j}) < QUORUM then x.Locked(t, i, d, e + {j})
            else Appended(x.height, x.b.hash) in t.appended
  {
    hide Weight, HV.AddVote, OnCommit, Ballot.Votes, HV.AllShaped;
    var env := Calm(x.w, x.height, log);
    CommitArrives(x, d, e, j, env.scheme, "");
    WeightEmpty(x.Vals());
    var s1 := s.(votes := x.Votes(d, e + {j}));
    if Weight(x.Vals(), e + {j}) < QUORUM { WaitsOn(x, i, d, e + {j}, s1, log); }
    else { Appends(x, i, d, e + {j}, s1, log); }
  }

  lemma WaitsOn(x: Ballot, i: int, d: set<int>, e: set<int>, s: RoundState, log: seq<SigFact>)
    requires x.Ok() && 0 <= i < |x.Vals()| && x.Locked(s, i, d, e)
    ensures x.Locked(OnCommit(s, Calm(x.w, x.height, log), x.height, 0), i, d, e)
  {
    hide Weight, HV.CommitMajority, HasTwoThirdsAny;
    Majorities(x, d, e);
  }

  lemma MakesCertificate(x: Ballot, d: set<int>, e: set<int>)
    requires x.Ok() && Weight(x.Vals(), e) >= QUORUM
    ensures Certifiable(x.Votes(d, e), 0)
  {
    hide Weight;
  }

  lemma Appends(x: Ballot, i: int, d: set<int>, e: set<int>, s: RoundState, log: seq<SigFact>)
    requires x.Ok() && 0 <= i < |x.Vals()| && Weight(x.Vals(), e) >= QUORUM
    requires s.votes == x.Votes(d, e) && x.Locked(s.(votes := x.Votes(d, {})), i, d, {})
    ensures Appended(x.height, x.b.hash) in OnCommit(s, Calm(x.w, x.height, log), x.height, 0).appended
  {
    hide Weight, HV.CommitMajority, HasTwoThirdsAny, Certifiable;
    Majorities(x, d, e);
    MakesCertificate(x, d, e);
    var env := Calm(x.w, x.height, log);
    assert EnterCommit(EnterNewRound(s, env, x.height, 0), env, x.height, 0) == s;
    var s1 := s.(step := REPLY, replyRound := 0);
    assert EnterReply(s, env, x.height, 0) == TryFinalizeAppend(s1, env, x.height);
    assert TryFinalizeAppend(s1, env, x.height) == FinalizeAppend(s1, env, x.height);
  }

  // ---------------------------------------------------------------- runs

  ghost function Last(trace: seq<System>): System
    requires trace != []
  {
    trace[|trace| - 1]
  }

  /** Only the nodes of `acting` have moved, and signatures were only added. */
  ghost predicate Apart(sys: System, sys': System, acting: set<PubKey>) {
    && sys'.nodes.Keys == sys.nodes.Keys && sys.log <= sys'.log
    && forall k | k in sys.nodes && k !in acting :: sys'.nodes[k] == sys.nodes[k]
  }

  lemma Extend(trace: seq<System>, w: World, sys: System)
    requires Run(trace, w) && Step(Last(trace), sys, w)
    ensures Run(trace + [sys], w)
  {
    hide Init, Step;
    var more := trace + [sys];
    forall i | 0 <= i < |more| - 1 ensures Step(more[i], more[i + 1], w) {
      if i < |trace| - 1 { assert more[i] == trace[i] && more[i + 1] == trace[i + 1]; }
    }
  }

  /** A faulty validator adds a signature. */
  lemma Sign(trace: seq<System>, w: World, f: SigFact) returns (more: seq<System>)
    requires Run(trace, w) && f.key !in Last(trace).nodes
    ensures Run(more, w) && Last(more) == Last(trace).(log := Last(trace).log + [f])
  {
    hide Init, WorldOk, CorrectStep;
    var sys := Last(trace).(log := Last(trace).log + [f]);
    assert FaultyStep(Last(trace), sys, f);
    Extend(trace, w, sys);
    more := trace + [sys];
  }

  /** The system once node `k` has reached state `t`. */
  ghost function Moved(sys: System, w: World, k: PubKey, t: RoundState): System
    requires k in sys.nodes && |sys.nodes[k].attempts| <= |t.attempts|
  {
    System(sys.nodes[k := t], Emit(sys.log, k, w.chainID, t.attempts, |sys.nodes[k].attempts|))
  }

  lemma CanAct(sys: System, w: World, k: PubKey, event: Event)
    requires WorldOk(w) && SystemOk(sys, w) && k in sys.nodes && !sys.nodes[k].panicked && !event.Timeout?
    ensures Shaped(sys.nodes[k])
    ensures var s := sys.nodes[k];
            var env := Calm(w, s.height, sys.log);
            var t := Handle(s, env, event);
            |s.attempts| <= |t.attempts| && CorrectStep(sys, Moved(sys, w, k, t), w, k, env, event)
  {
    hide Inv, Disciplined, Handle, Owned, Sequential, AppendOk, AttemptOk, Emit, Shaped, HV.AllShaped;
    assert NodeOk(sys, w, k);
    HandleKeeps(sys.nodes[k], Calm(w, sys.nodes[k].height, sys.log), event, w);
  }

  /** A correct node handles a message in calm surroundings. */
  lemma Act(trace: seq<System>, w: World, k: PubKey, event: Event) returns (more: seq<System>)
    requires Run(trace, w) && k in Last(trace).nodes && !Last(trace).nodes[k].panicked && !event.Timeout?
    ensures Run(more, w) && Shaped(Last(trace).nodes[k])
    ensures var s := Last(trace).nodes[k];
            var t := Handle(s, Calm(w, s.height, Last(trace).log), event);
            |s.attempts| <= |t.attempts| && Last(more) == Moved(Last(trace), w, k, t)
  {
    hide Inv, Disciplined, Handle, SystemOk, Init, WorldOk, FaultyStep, CorrectStep, Emit, Shaped, HV.AllShaped, Calm;
    var sys := Last(trace);
    var s, env := sys.nodes[k], Calm(w, sys.nodes[k].height, sys.log);
    RunKeeps(trace, w, |trace| - 1);
    CanAct(sys, w, k, event);
    var sys' := Moved(sys, w, k, Handle(s, env, event));
    assert CorrectStep(sys, sys', w, k, env, event);
    Extend(trace, w, sys');
    more := trace + [sys'];
  }

  lemma EmitNone(log: seq<SigFact>, key: PubKey, chainID: string, attempts: seq<Attempt>)
    ensures Emit(log, key, chainID, attempts, |attempts|) == log
  {
  }

  lemma EmitOne(log: seq<SigFact>, key: PubKey, chainID: string, attempts: seq<Attempt>)
    requires attempts != [] && attempts[|attempts| - 1].ok
    ensures Emit(log, key, chainID, attempts, |attempts| - 1) == log + [FactOf(key, chainID, attempts[|attempts| - 1])]
  {
    EmitNone(log + [FactOf(key, chainID, attempts[|attempts| - 1])], key, chainID, attempts);
  }

  /** Proposal and block reach node `i`, which signs its prepare. */
  lemma Propose(x: Ballot, trace: seq<System>, i: int) returns (more: seq<System>)
    requires x.Ok() && Run(trace, x.w) && 0 <= i < |x.Vals()| && x.Vals()[i].pubKey in Last(trace).nodes
    requires Last(trace).nodes[x.Vals()[i].pubKey] == x.Start(i)
    ensures Run(more, x.w) && Apart(Last(trace), Last(more), {x.Vals()[i].pubKey})
    ensures Last(more).nodes[x.Vals()[i].pubKey] == x.Ready(i) && x.Fact(Prepare, i) in FactsOf(Last(more).log)
  {
    hide Run, Handle, Emit, Shaped, Calm, Named;
    assert trace != [] by { RunNonEmpty(trace, x.w); }
    var k := x.Vals()[i].pubKey;
    var log := Last(trace).log;
    ProposalArrives(x, i, Calm(x.w, x.height, log));
    more := Act(trace, x.w, k, PrePrepareMsg(x.Proposal(), true));
    EmitNone(log, k, x.w.chainID, []);
    BlockArrives(x, i, log);
    RunNonEmpty(more, x.w);
    more := Act(more, x.w, k, BlockPartMsg(x.height, Completed(false, Some(Block(x.b.hash)))));
    EmitOne(log, k, x.w.chainID, x.Ready(i).attempts);
    RunNonEmpty(more, x.w);
    assert Last(more).log == log + [x.Fact(Prepare, i)];
  }

  lemma RunNonEmpty(trace: seq<System>, w: World)
    requires Run(trace, w)
    ensures trace != []
  {
  }

  lemma Missing<T>(q: set<T>, d: set<T>) returns (j: T)
    requires d <= q && d != q
    ensures j in q && j !in d
  {
    if forall j | j in q :: j in d { assert false; }
    j :| j in q && j !in d;
  }

  lemma Shapes(x: Ballot, s: RoundState, i: int, d: set<int>, e: set<int>)
    requires 0 <= i < |x.Vals()|
    ensures x.Collecting(s, i, d) ==> !s.panicked && s.height == x.height && |s.attempts| == 1
    ensures x.Locked(s, i, d, e) ==>
              && !s.panicked && s.height == x.height && |s.attempts| == 2 && s.attempts[1].ok
              && FactOf(x.Vals()[i].pubKey, x.w.chainID, s.attempts[1]) == x.Fact(Commit, i)
              && Weight(x.Vals(), e) < QUORUM
    ensures x.Collecting(s, i, d) ==> Weight(x.Vals(), d) < QUORUM
  {
    hide Weight;
  }

  lemma FactsStay(x: Ballot, kind: VoteType, q: set<int>, log: seq<SigFact>, more: seq<SigFact>)
    requires Within(|x.Vals()|, q) && log <= more && forall j | j in q :: x.Fact(kind, j) in FactsOf(log)
    ensures forall j | j in q :: x.Fact(kind, j) in FactsOf(more)
  {
    assert FactsOf(log) <= FactsOf(more);
  }

  lemma ApartBoth(a: System, b: System, c: System, acting: set<PubKey>)
    requires Apart(a, b, acting) && Apart(b, c, acting)
    ensures Apart(a, c, acting)
  {
  }

  /** The prepares of a quorum reach node `i` until it locks and signs its commit. */
  lemma {:induction false} Collect(x: Ballot, trace: seq<System>, i: int, q: set<int>, d: set<int>)
    returns (more: seq<System>, d': set<int>)
    requires x.Ok() && Run(trace, x.w) && 0 <= i < |x.Vals()| && x.Vals()[i].pubKey in Last(trace).nodes
    requires x.Collecting(Last(trace).nodes[x.Vals()[i].pubKey], i, d)
    requires Within(|x.Vals()|, q) && d <= q && Weight(x.Vals(), q) >= QUORUM
    requires forall j | j in q :: x.Fact(Prepare, j) in FactsOf(Last(trace).log)
    ensures Run(more, x.w) && Apart(Last(trace), Last(more), {x.Vals()[i].pubKey})
    ensures x.Locked(Last(more).nodes[x.Vals()[i].pubKey], i, d', {}) && x.Fact(Commit, i) in FactsOf(Last(more).log)
    decreases |q - d|
  {
    hide Run, Handle, Emit, Shaped, Calm, Named, Weight, Ballot.Collecting, Ballot.Locked;
    RunNonEmpty(trace, x.w);
    var k := x.Vals()[i].pubKey;
    var s, log := Last(trace).nodes[k], Last(trace).log;
    Shapes(x, s, i, d, {});
    var j := Missing(q, d);
    OnePrepare(x, i, d, j, s, log);
    more := Act(trace, x.w, k, VoteMsg(x.VoteBy(Prepare, j), ""));
    RunNonEmpty(more, x.w);
    var t := Last(more).nodes[k];
    Shapes(x, t, i, d + {j}, {});
    if Weight(x.Vals(), d + {j}) < QUORUM {
      EmitNone(log, k, x.w.chainID, t.attempts);
      var mid := more;
      assert q - (d + {j}) < q - d;
      more, d' := Collect(x, mid, i, q, d + {j});
    } else {
      EmitOne(log, k, x.w.chainID, t.attempts);
      assert Last(more).log == log + [x.Fact(Commit, i)];
      d' := d + {j};
    }
  }

  /** The commits of a quorum reach node `i` until it appends the block. */
  lemma {:induction false} Confirm(x: Ballot, trace: seq<System>, i: int, q: set<int>, d: set<int>, e: set<int>)
    returns (more: seq<System>)
    requires x.Ok() && Run(trace, x.w) && 0 <= i < |x.Vals()| && x.Vals()[i].pubKey in Last(trace).nodes
    requires x.Locked(Last(trace).nodes[x.Vals()[i].pubKey], i, d, e)
    requires Within(|x.Vals()|, q) && e <= q && Weight(x.Vals(), q) >= QUORUM
    requires forall j | j in q :: x.Fact(Commit, j) in FactsOf(Last(trace).log)
    ensures Run(more, x.w) && Apart(Last(trace), Last(more), {x.Vals()[i].pubKey})
    ensures Appended(x.height, x.b.hash) in Last(more).nodes[x.Vals()[i].pubKey].appended
    decreases |q - e|
  {
    hide Run, Handle, Emit, Shaped, Calm, Named, Weight, Ballot.Locked, FactsOf;
    RunNonEmpty(trace, x.w);
    var k := x.Vals()[i].pubKey;
    var s, log := Last(trace).nodes[k], Last(trace).log;
    Shapes(x, s, i, d, e);
    var j := Missing(q, e);
    OneCommit(x, i, d, e, j, s, log);
    more := Act(trace, x.w, k, VoteMsg(x.VoteBy(Commit, j), ""));
    RunNonEmpty(more, x.w);
    EmitGrows(log, k, x.w.chainID, Last(more).nodes[k].attempts, |s.attempts|);
    FactsStay(x, Commit, q, log, Last(more).log);
    assert Apart(Last(trace), Last(more), {k});
    if Weight(x.Vals(), e + {j}) < QUORUM {
      var mid := more;
      assert q - (e + {j}) < q - e;
      hide Apart;
      more := Confirm(x, mid, i, q, d, e + {j});
      RunNonEmpty(more, x.w);
      ApartBoth(Last(trace), Last(mid), Last(more), {k});
    }
  }

  // ---------------------------------------------------------------- one block, from proposal to append

  ghost function KeysOf(x: Ballot, q: set<int>): set<PubKey>
    requires Within(|x.Vals()|, q)
  {
    set j | j in q :: x.Vals()[j].pubKey
  }

  /** The faulty members of a quorum below `n` sign for the block. */
  lemma {:induction false} FaultySign(x: Ballot, trace: seq<System>, q: set<int>, n: nat) returns (more: seq<System>)
    requires x.Ok() && Run(trace, x.w) && n <= |x.Vals()|
    ensures Run(more, x.w) && Apart(Last(trace), Last(more), {})
    ensures forall j | 0 <= j < n && j in q && x.Vals()[j].pubKey !in Last(trace).nodes ::
              x.Fact(Prepare, j) in FactsOf(Last(more).log) && x.Fact(Commit, j) in FactsOf(Last(more).log)
  {
    hide Run, Named;
    RunNonEmpty(trace, x.w);
    if n == 0 { return trace; }
    more := FaultySign(x, trace, q, n - 1);
    RunNonEmpty(more, x.w);
    if n - 1 in q && x.Vals()[n - 1].pubKey !in Last(trace).nodes {
      more := Sign(more, x.w, x.Fact(Prepare, n - 1));
      RunNonEmpty(more, x.w);
      more := Sign(more, x.w, x.Fact(Commit, n - 1));
      RunNonEmpty(more, x.w);
    }
  }

  ghost predicate Untouched(x: Ballot, sys: System, j: int)
    requires 0 <= j < |x.Vals()|
  {
    x.Vals()[j].pubKey in sys.nodes ==> sys.nodes[x.Vals()[j].pubKey] == x.Start(j)
  }

  ghost predicate Prepared(x: Ballot, sys: System, j: int)
    requires 0 <= j < |x.Vals()|
  {
    && (x.Vals()[j].pubKey in sys.nodes ==> sys.nodes[x.Vals()[j].pubKey] == x.Ready(j))
    && x.Fact(Prepare, j) in FactsOf(sys.log)
  }

  ghost predicate Committed(x: Ballot, sys: System, j: int)
    requires 0 <= j < |x.Vals()|
  {
    && (x.Vals()[j].pubKey in sys.nodes ==> exists d :: x.Locked(sys.nodes[x.Vals()[j].pubKey], j, d, {}))
    && x.Fact(Prepare, j) in FactsOf(sys.log) && x.Fact(Commit, j) in FactsOf(sys.log)
  }

  /** What one node does leaves the others where they are. */
  lemma Bystander(x: Ballot, sys: System, sys': System, i: int, j: int)
    requires x.Ok() && 0 <= i < |x.Vals()| && 0 <= j < |x.Vals()| && i != j && Apart(sys, sys', {x.Vals()[i].pubKey})
    ensures Untouched(x, sys, j) ==> Untouched(x, sys', j)
    ensures Prepared(x, sys, j) ==> Prepared(x, sys', j)
    ensures Committed(x, sys, j) ==> Committed(x, sys', j)
  {
    hide Ballot.Ready, Ballot.Start, Ballot.Locked;
    assert x.Vals()[i].pubKey != x.Vals()[j].pubKey;
    assert FactsOf(sys.log) <= FactsOf(sys'.log);
  }

  lemma ApartThen(x: Ballot, a: System, b: System, c: System, q: set<int>, i: int)
    requires Within(|x.Vals()|, q) && i in q && Apart(a, b, KeysOf(x, q)) && Apart(b, c, {x.Vals()[i].pubKey})
    ensures Apart(a, c, KeysOf(x, q))
  {
  }

  /** The correct members of a quorum below `n` get the block and sign their prepares. */
  lemma {:induction false} AllPropose(x: Ballot, trace: seq<System>, q: set<int>, n: nat) returns (more: seq<System>)
    requires x.Ok() && Run(trace, x.w) && n <= |x.Vals()| && Within(|x.Vals()|, q)
    requires forall j | j in q :: Untouched(x, Last(trace), j)
    requires forall j | j in q && x.Vals()[j].pubKey !in Last(trace).nodes :: x.Fact(Prepare, j) in FactsOf(Last(trace).log)
    ensures Run(more, x.w) && Apart(Last(trace), Last(more), KeysOf(x, q))
    ensures forall j | j in q :: if j < n then Prepared(x, Last(more), j) else Untouched(x, Last(more), j)
  {
    hide Run, Untouched, Prepared, Named, KeysOf;
    RunNonEmpty(trace, x.w);
    if n == 0 { return trace; }
    var i := n - 1;
    var mid := AllPropose(x, trace, q, i);
    RunNonEmpty(mid, x.w);
    more := mid;
    if i in q {
      more := ProposeTo(x, mid, i);
      RunNonEmpty(more, x.w);
      ApartThen(x, Last(trace), Last(mid), Last(more), q, i);
      forall j | j in q && j != i ensures if j < n then Prepared(x, Last(more), j) else Untouched(x, Last(more), j) {
        Bystander(x, Last(mid), Last(more), i, j);
      }
    }
  }

  lemma ProposeTo(x: Ballot, trace: seq<System>, i: int) returns (more: seq<System>)
    requires x.Ok() && Run(trace, x.w) && 0 <= i < |x.Vals()| && Untouched(x, Last(trace), i)
    requires x.Vals()[i].pubKey !in Last(trace).nodes ==> x.Fact(Prepare, i) in FactsOf(Last(trace).log)
    ensures Run(more, x.w) && Apart(Last(trace), Last(more), {x.Vals()[i].pubKey}) && Prepared(x, Last(more), i)
  {
    hide Ballot.Start, Ballot.Ready, Init, Step, Named;
    more := trace;
    if x.Vals()[i].pubKey in Last(trace).nodes { more := Propose(x, trace, i); }
  }

  /** The correct members of a quorum below `n` collect its prepares, lock and sign their commits. */
  lemma {:induction false} AllCommit(x: Ballot, trace: seq<System>, q: set<int>, n: nat) returns (more: seq<System>)
    requires x.Ok() && Run(trace, x.w) && n <= |x.Vals()| && Within(|x.Vals()|, q) && Weight(x.Vals(), q) >= QUORUM
    requires forall j | j in q :: Prepared(x, Last(trace), j)
    requires forall j | j in q && x.Vals()[j].pubKey !in Last(trace).nodes :: x.Fact(Commit, j) in FactsOf(Last(trace).log)
    ensures Run(more, x.w) && Apart(Last(trace), Last(more), KeysOf(x, q))
    ensures forall j | j in q :: if j < n then Committed(x, Last(more), j) else Prepared(x, Last(more), j)
  {
    hide Run, Prepared, Committed, Named, KeysOf, Weight;
    RunNonEmpty(trace, x.w);
    if n == 0 { return trace; }
    var i := n - 1;
    var mid := AllCommit(x, trace, q, i);
    RunNonEmpty(mid, x.w);
    more := mid;
    if i in q {
      forall j | j in q ensures x.Fact(Prepare, j) in FactsOf(Last(mid).log) { PreparedFact(x, Last(mid), j); }
      more := LockIn(x, mid, q, i);
      RunNonEmpty(more, x.w);
      ApartThen(x, Last(trace), Last(mid), Last(more), q, i);
      forall j | j in q && j != i ensures if j < n then Committed(x, Last(more), j) else Prepared(x, Last(more), j) {
        Bystander(x, Last(mid), Last(more), i, j);
      }
    }
  }

  lemma PreparedFact(x: Ballot, sys: System, j: int)
    requires 0 <= j < |x.Vals()| && (Prepared(x, sys, j) || Committed(x, sys, j))
    ensures x.Fact(Prepare, j) in FactsOf(sys.log)
  {
  }

  lemma LockIn(x: Ballot, trace: seq<System>, q: set<int>, i: int) returns (more: seq<System>)
    requires x.Ok() && Run(trace, x.w) && i in q && Within(|x.Vals()|, q) && Weight(x.Vals(), q) >= QUORUM
    requires Prepared(x, Last(trace), i) && forall j | j in q :: x.Fact(Prepare, j) in FactsOf(Last(trace).log)
    requires x.Vals()[i].pubKey !in Last(trace).nodes ==> x.Fact(Commit, i) in FactsOf(Last(trace).log)
    ensures Run(more, x.w) && Apart(Last(trace), Last(more), {x.Vals()[i].pubKey}) && Committed(x, Last(more), i)
  {
    hide Ballot.Ready, Ballot.Locked, Ballot.Collecting, Init, Step, Named, Weight;
    more := trace;
    if x.Vals()[i].pubKey in Last(trace).nodes {
      ReadyCollects(x, i);
      var d;
      more, d := Collect(x, trace, i, q, {});
      assert FactsOf(Last(trace).log) <= FactsOf(Last(more).log);
    }
  }

  /** The whole quorum gets as far as its commits. */
  lemma AllLocked(x: Ballot, trace: seq<System>, q: set<int>) returns (more: seq<System>)
    requires x.Ok() && Run(trace, x.w) && Within(|x.Vals()|, q) && Weight(x.Vals(), q) >= QUORUM
    requires forall j | j in q :: Untouched(x, Last(trace), j)
    ensures Run(more, x.w) && Apart(Last(trace), Last(more), KeysOf(x, q))
    ensures forall j | j in q :: Committed(x, Last(more), j)
  {
    hide Run, Ballot.Start, Prepared, Committed, Weight, Named, KeysOf;
    RunNonEmpty(trace, x.w);
    var n := |x.Vals()|;
    var signed := FaultySign(x, trace, q, n);
    RunNonEmpty(signed, x.w);
    var proposed := AllPropose(x, signed, q, n);
    RunNonEmpty(proposed, x.w);
    assert FactsOf(Last(signed).log) <= FactsOf(Last(proposed).log);
    more := AllCommit(x, proposed, q, n);
    RunNonEmpty(more, x.w);
  }

  /** A quorum whose correct members have not voted yet leads any of them to append any block. */
  lemma OneSide(x: Ballot, trace: seq<System>, q: set<int>, i: int) returns (more: seq<System>)
    requires x.Ok() && Run(trace, x.w) && Within(|x.Vals()|, q) && Weight(x.Vals(), q) >= QUORUM
    requires i in q && x.Vals()[i].pubKey in Last(trace).nodes
    requires forall j | j in q :: Untouched(x, Last(trace), j)
    ensures Run(more, x.w) && Apart(Last(trace), Last(more), KeysOf(x, q))
    ensures Appended(x.height, x.b.hash) in Last(more).nodes[x.Vals()[i].pubKey].appended
  {
    hide Run, Ballot.Start, Ballot.Locked, Weight, Named, KeysOf, Untouched;
    RunNonEmpty(trace, x.w);
    var locked := AllLocked(x, trace, q);
    RunNonEmpty(locked, x.w);
    assert Committed(x, Last(locked), i);
    var d :| x.Locked(Last(locked).nodes[x.Vals()[i].pubKey], i, d, {});
    forall j | j in q ensures x.Fact(Commit, j) in FactsOf(Last(locked).log) { assert Committed(x, Last(locked), j); }
    WeightEmpty(x.Vals());
    more := Confirm(x, locked, i, q, d, {});
    RunNonEmpty(more, x.w);
    ApartThen(x, Last(trace), Last(locked), Last(more), q, i);
  }

  // ---------------------------------------------------------------- exactly when nodes agree

  /** No two correct nodes have appended different blocks at this height. */
  ghost predicate AgreeAt(sys: System, height: int) {
    forall k, k', e, e' | && k in sys.nodes && k' in sys.nodes
                          && e in sys.nodes[k].appended && e' in sys.nodes[k'].appended ::
      e.height == height && e'.height == height ==> e.hash == e'.hash
  }

  /** All correct nodes at the start of one height. */
  ghost function Opening(w: World, height: int, correct: set<PubKey>): System {
    System(map k | k in correct :: Fresh(w.chainID, Some(k), height, w.valsAt(height), None), [])
  }

  lemma OpeningRuns(w: World, height: int, correct: set<PubKey>)
    requires WorldOk(w)
    ensures Run([Opening(w, height, correct)], w)
  {
    hide Fresh, VS.Valid;
    var sys := Opening(w, height, correct);
    forall k | k in sys.nodes ensures exists h, last :: Starts(sys.nodes[k], w, k, h, last) {
      assert Starts(sys.nodes[k], w, k, height, None);
    }
  }

  /** Two quorums that have only faulty validators in common: the faulty ones sign for both blocks, and the
      correct members of either quorum, each following every rule, append theirs. */
  lemma Disagreement(w: World, height: int, correct: set<PubKey>, q: set<int>, r: set<int>, i: int, j: int,
                     b: BlockID, c: BlockID)
    returns (trace: seq<System>)
    requires Ballot(w, height, b).Ok() && Ballot(w, height, c).Ok()
    requires Within(|w.valsAt(height)|, q) && Within(|w.valsAt(height)|, r)
    requires IsQuorum(w, height, q) && IsQuorum(w, height, r) && !ShareCorrect(w, height, correct, q, r)
    requires i in q && w.valsAt(height)[i].pubKey in correct && j in r && w.valsAt(height)[j].pubKey in correct
    ensures Run(trace, w) && Last(trace).nodes.Keys == correct
    ensures Appended(height, b.hash) in Last(trace).nodes[w.valsAt(height)[i].pubKey].appended
    ensures Appended(height, c.hash) in Last(trace).nodes[w.valsAt(height)[j].pubKey].appended
  {
    hide Run, Fresh, Weight, NonNegative;
    var x, y := Ballot(w, height, b), Ballot(w, height, c);
    OpeningRuns(w, height, correct);
    var opening := [Opening(w, height, correct)];
    var first := OneSide(x, opening, q, i);
    RunNonEmpty(first, w);
    forall m | m in r ensures Untouched(y, Last(first), m) {
      if w.valsAt(height)[m].pubKey in correct { KeyOutside(x, q, r, m, correct); }
    }
    trace := OneSide(y, first, r, j);
    RunNonEmpty(trace, w);
    assert !ShareCorrect(w, height, correct, r, q);
    KeyOutside(y, r, q, i, correct);
  }

  lemma KeyOutside(x: Ballot, q: set<int>, r: set<int>, m: int, correct: set<PubKey>)
    requires x.Ok() && Within(|x.Vals()|, q) && Within(|x.Vals()|, r) && !ShareCorrect(x.w, x.height, correct, q, r)
    requires m in r && x.Vals()[m].pubKey in correct
    ensures x.Vals()[m].pubKey !in KeysOf(x, q)
  {
    assert m !in q;
    DistinctKeys(x.Vals());
  }

  /** Two quorums, each with a correct member, that share no correct validator. */
  lemma SplitQuorums(w: World, height: int, correct: set<PubKey>, i: int, j: int)
    returns (q: set<int>, r: set<int>, k: int, l: int)
    requires NonNegative(w.valsAt(height)) && !QuorumsMeet(w, height, correct)
    requires 0 <= i < j < |w.valsAt(height)|
    requires w.valsAt(height)[i].pubKey in correct && w.valsAt(height)[j].pubKey in correct
    ensures Within(|w.valsAt(height)|, q) && Within(|w.valsAt(height)|, r)
    ensures IsQuorum(w, height, q) && IsQuorum(w, height, r) && !ShareCorrect(w, height, correct, q, r)
    ensures k in q && w.valsAt(height)[k].pubKey in correct && l in r && w.valsAt(height)[l].pubKey in correct
  {
    var s, t :| IsQuorum(w, height, s) && IsQuorum(w, height, t) && !ShareCorrect(w, height, correct, s, t);
    q, r := Inside(w, height, s), Inside(w, height, t);
    if k' :| k' in q && w.valsAt(height)[k'].pubKey in correct {
      if l' :| l' in r && w.valsAt(height)[l'].pubKey in correct { k, l := k', l'; }
      else { q, r, k, l := WithEach(w, height, correct, r, i, j); }
    } else {
      q, r, k, l := WithEach(w, height, correct, q, i, j);
    }
  }

  ghost function Inside(w: World, height: int, s: set<int>): (r: set<int>)
    requires NonNegative(w.valsAt(height)) && IsQuorum(w, height, s)
    ensures Within(|w.valsAt(height)|, r) && r <= s && IsQuorum(w, height, r)
  {
    var r := set i | i in s && 0 <= i < |w.valsAt(height)|;
    WeightMonotone(w.valsAt(height), s, r);
    r
  }

  /** If faulty validators alone are a quorum, they make one with each of two correct validators. */
  lemma WithEach(w: World, height: int, correct: set<PubKey>, s: set<int>, i: int, j: int)
    returns (q: set<int>, r: set<int>, k: int, l: int)
    requires NonNegative(w.valsAt(height)) && Within(|w.valsAt(height)|, s) && IsQuorum(w, height, s)
    requires forall m | m in s :: w.valsAt(height)[m].pubKey !in correct
    requires 0 <= i < j < |w.valsAt(height)|
    requires w.valsAt(height)[i].pubKey in correct && w.valsAt(height)[j].pubKey in correct
    ensures Within(|w.valsAt(height)|, q) && Within(|w.valsAt(height)|, r)
    ensures IsQuorum(w, height, q) && IsQuorum(w, height, r) && !ShareCorrect(w, height, correct, q, r)
    ensures k in q && w.valsAt(height)[k].pubKey in correct && l in r && w.valsAt(height)[l].pubKey in correct
  {
    q, r, k, l := s + {i}, s + {j}, i, j;
    WeightMonotone(w.valsAt(height), s, q);
    WeightMonotone(w.valsAt(height), s, r);
  }

  /** The exact condition for agreement. For every set of correct nodes with at least two validators among them:
      no run ever lets two of them append different blocks at the height, if and only if every two quorums of
      that height have a correct validator in common. */
  lemma AgreementIff(w: World, height: int, correct: set<PubKey>, i: int, j: int)
    requires WorldOk(w) && Named(w.valsAt(height)) && 0 <= i < j < |w.valsAt(height)|
    requires w.valsAt(height)[i].pubKey in correct && w.valsAt(height)[j].pubKey in correct
    ensures (forall trace | Run(trace, w) && Last(trace).nodes.Keys == correct :: AgreeAt(Last(trace), height))
       <==> QuorumsMeet(w, height, correct)
  {
    hide Run, Named, QuorumsMeet, IsQuorum, ShareCorrect;
    if QuorumsMeet(w, height, correct) {
      forall trace | Run(trace, w) && (RunNonEmpty(trace, w); Last(trace).nodes.Keys == correct)
        ensures AgreeAt(Last(trace), height)
      {
        AllAgree(trace, w, height);
      }
    } else {
      var q, r, k, l := SplitQuorums(w, height, correct, i, j);
      var trace := Disagreement(w, height, correct, q, r, k, l, Sample(1), Sample(2));
      RunNonEmpty(trace, w);
      assert Sample(1).hash[0] != Sample(2).hash[0];
      assert !AgreeAt(Last(trace), height);
    }
  }

  function Sample(x: byte): BlockID {
    var hash := seq(HASH_SIZE, _ => x);
    BlockID(hash, PartSetHeader(1, hash))
  }

  lemma AllAgree(trace: seq<System>, w: World, height: int)
    requires Run(trace, w) && QuorumsMeet(w, height, Last(trace).nodes.Keys)
    ensures AgreeAt(Last(trace), height)
  {
    hide QuorumsMeet, Init, Step;
    var sys := Last(trace);
    forall k, k', e, e' | && k in sys.nodes && k' in sys.nodes
                          && e in sys.nodes[k].appended && e' in sys.nodes[k'].appended
                          && e.height == height && e'.height == height
      ensures e.hash == e'.hash
    {
      AgreeWhenQuorumsMeet(trace, w, |trace| - 1, k, e, k', e');
    }
  }

  /** The bound on faulty power cannot be relaxed: of three validators with powers 7/3, 7/3 and 16/3 the last,
      weighing exactly what two quorums must overlap in, leads the other two to append different blocks. */
  lemma ThresholdIsTight(w: World, height: int) returns (trace: seq<System>)
    requires WorldOk(w) && Named(w.valsAt(height)) && |w.valsAt(height)| == 3
    requires w.valsAt(height)[0].power == w.valsAt(height)[1].power == 7.0 / 3.0 && w.valsAt(height)[2].power == 16.0 / 3.0
    ensures Run(trace, w) && Last(trace).nodes.Keys == {w.valsAt(height)[0].pubKey, w.valsAt(height)[1].pubKey}
    ensures Weight(w.valsAt(height), Faulty(w, height, Last(trace).nodes.Keys)) == 2.0 * QUORUM - Total(w.valsAt(height))
    ensures !AgreeAt(Last(trace), height)
  {
    hide Run, Named;
    var vals := w.valsAt(height);
    var correct := {vals[0].pubKey, vals[1].pubKey};
    DistinctKeys(vals);
    assert Faulty(w, height, correct) == {2};
    ThreeWeights(vals);
    trace := Disagreement(w, height, correct, {0, 2}, {1, 2}, 0, 1, Sample(1), Sample(2));
    RunNonEmpty(trace, w);
    assert Sample(1).hash[0] != Sample(2).hash[0];
  }

  lemma DistinctKeys(vals: seq<Validator>)
    requires Named(vals)
    ensures forall i, j | 0 <= i < j < |vals| :: vals[i].pubKey != vals[j].pubKey
  {
  }

  lemma ThreeWeights(vals: seq<Validator>)
    requires |vals| == 3
    ensures Weight(vals, {2}) == vals[2].power && Total(vals) == vals[0].power + vals[1].power + vals[2].power
    ensures Weight(vals, {0, 2}) == vals[0].power + vals[2].power
    ensures Weight(vals, {1, 2}) == vals[1].power + vals[2].power
  {
    forall s: set<int>
      ensures Weight(vals, s) == (if 0 in s then vals[0].power else 0.0) + (if 1 in s then vals[1].power else 0.0)
                               + (if 2 in s then vals[2].power else 0.0)
    {
      assert WeightBelow(vals, s, 1) == WeightBelow(vals, s, 0) + (if 0 in s then vals[0].power else 0.0);
      assert WeightBelow(vals, s, 2) == WeightBelow(vals, s, 1) + (if 1 in s then vals[1].power else 0.0);
    }
    assert TotalBelow(vals, 1) == vals[0].power && TotalBelow(vals, 2) == vals[0].power + vals[1].power;
  }
}
