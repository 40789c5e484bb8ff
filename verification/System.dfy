/** Runs of the whole network: correct nodes handling events, faulty validators signing anything. */
module Network {
  import opened Types
  import opened Power
  import VS = VoteSets
  import HV = HeightVoteSets
  import opened Quorums
  import opened RoundStates
  import opened Invariants
  import opened Agreement

  /** One node per correct key, and every vote signature ever made, in order. */
  datatype System = System(nodes: map<PubKey, RoundState>, log: seq<SigFact>)

  function FactOf(key: PubKey, chainID: string, a: Attempt): SigFact {
    SigFact(key, a.vote.SignBytes(chainID), a.vote.signature)
  }

  /** The log once the successful attempts from `from` on have been released. */
  function Emit(log: seq<SigFact>, key: PubKey, chainID: string, attempts: seq<Attempt>, from: nat): seq<SigFact>
    requires from <= |attempts|
    decreases |attempts| - from
  {
    if from == |attempts| then log
    else Emit(if attempts[from].ok then log + [FactOf(key, chainID, attempts[from])] else log,
              key, chainID, attempts, from + 1)
  }

  ghost predicate WorldOk(w: World) {
    forall h :: NonNegative(w.valsAt(h))
  }

  /** Each correct node starts some height without having voted before. */
  ghost predicate Init(sys: System, w: World) {
    sys.log == [] && forall k | k in sys.nodes :: exists h, last :: Starts(sys.nodes[k], w, k, h, last)
  }

  ghost predicate Starts(s: RoundState, w: World, k: PubKey, h: int, last: Option<VS.VoteSet>) {
    (last.Some? ==> VS.Valid(last.value)) && s == Fresh(w.chainID, Some(k), h, w.valsAt(h), last)
  }

  /** A key outside the correct nodes signs whatever it likes. */
  ghost predicate FaultyStep(sys: System, sys': System, f: SigFact) {
    f.key !in sys.nodes && sys' == sys.(log := sys.log + [f])
  }

  /** A correct node handles one event; signatures verify exactly when they are in the log. */
  ghost predicate CorrectStep(sys: System, sys': System, w: World, k: PubKey, env: Env, event: Event) {
    && k in sys.nodes
    && var s := sys.nodes[k];
    && !s.panicked && Shaped(s) && env.scheme == FactsOf(sys.log) && EnvOk(s, env, event, w)
    && var t := Handle(s, env, event);
    && |s.attempts| <= |t.attempts|
    && sys' == System(sys.nodes[k := t], Emit(sys.log, k, w.chainID, t.attempts, |s.attempts|))
  }

  ghost predicate Step(sys: System, sys': System, w: World) {
    || (exists f :: FaultyStep(sys, sys', f))
    || (exists k, env, event :: CorrectStep(sys, sys', w, k, env, event))
  }

  ghost predicate Run(trace: seq<System>, w: World) {
    && WorldOk(w)
    && trace != [] && Init(trace[0], w)
    && forall i | 0 <= i < |trace| - 1 :: Step(trace[i], trace[i + 1], w)
  }

  // ---------------------------------------------------------------- what every reachable state keeps

  /** Every signature of `key` in the log is one of its first `n` attempts. */
  ghost predicate Owned(log: seq<SigFact>, key: PubKey, chainID: string, attempts: seq<Attempt>, n: nat) {
    forall i | 0 <= i < |log| && log[i].key == key ::
      exists m | 0 <= m < n && m < |attempts| :: log[i] == FactOf(key, chainID, attempts[m])
  }

  /** A prepare for something else than a block committed to before, at the same height. */
  predicate Abandons(c: Attempt, p: Attempt) {
    CommittedAt(c, p.vote.height) && p.vote.kind == Prepare && c.vote.blockID.hash != p.vote.blockID.hash
  }

  /** Signing attempts never go back and never repeat a height, round and step; each is for the round its
      step was entered for; and a block committed to is abandoned only for a recorded majority. */
  ghost predicate Sequential(attempts: seq<Attempt>) {
    && (forall i | 0 <= i < |attempts| ::
          attempts[i].enteredFor == attempts[i].vote.round && attempts[i].known.height == attempts[i].vote.height)
    && (forall i, j | 0 <= i < j < |attempts| :: VoteBefore(attempts[i].vote, attempts[j].vote))
    && (forall i, j | 0 <= i < j < |attempts| && Abandons(attempts[i], attempts[j]) ::
          Superseded(attempts[j].known, attempts[i].vote.blockID.hash, attempts[i].vote.round, attempts[j].vote.round))
  }

  ghost predicate NodeOk(sys: System, w: World, k: PubKey)
    requires k in sys.nodes
  {
    var s := sys.nodes[k];
    && s.key == Some(k) && s.chainID == w.chainID
    && Inv(s, w, FactsOf(sys.log))
    && Owned(sys.log, k, w.chainID, s.attempts, |s.attempts|)
    && Sequential(s.attempts)
    && (forall e | e in s.appended :: AppendOk(e, w, FactsOf(sys.log)))
  }

  ghost predicate SystemOk(sys: System, w: World) {
    && Disciplined(sys.log, sys.nodes.Keys, w)
    && forall k | k in sys.nodes :: NodeOk(sys, w, k)
  }

  lemma FreshOutputs(chainID: string, key: Option<PubKey>, height: int, vals: seq<Validator>, last: Option<VS.VoteSet>)
    ensures var s := Fresh(chainID, key, height, vals, last);
            s.key == key && s.chainID == chainID && s.attempts == [] && s.appended == []
  {
  }

  lemma InitOk(sys: System, w: World)
    requires WorldOk(w) && Init(sys, w)
    ensures SystemOk(sys, w)
  {
    hide Inv, Fresh, VS.Valid;
    forall k | k in sys.nodes ensures NodeOk(sys, w, k) {
      var h, last :| Starts(sys.nodes[k], w, k, h, last);
      FreshInv(w.chainID, Some(k), h, last, w, FactsOf(sys.log));
      FreshOutputs(w.chainID, Some(k), h, w.valsAt(h), last);
    }
  }

  lemma OverruledMonotone(facts: set<SigFact>, more: set<SigFact>, w: World, height: int, hash: Bytes, r: int, last: int)
    requires WorldOk(w) && facts <= more && Overruled(facts, w, height, hash, r, last)
    ensures Overruled(more, w, height, hash, r, last)
  {
    hide HasQuorum;
    var q, b :| r < q <= last && HasQuorum(facts, w, Prepare, height, q, b) && b.hash != hash;
    QuorumMonotone(facts, more, w, Prepare, height, q, b);
  }

  /** An allowed attempt gives an entry that owes nothing to the log it joins. */
  lemma AttemptGivesEntry(log: seq<SigFact>, key: PubKey, attempts: seq<Attempt>, n: nat,
                          facts: set<SigFact>, w: World)
    requires WorldOk(w) && n < |attempts| && facts <= FactsOf(log)
    requires AttemptOk(attempts[..n], attempts[n], w, facts) && Owned(log, key, w.chainID, attempts, n)
    ensures EntryOk(log, FactOf(key, w.chainID, attempts[n]), w)
  {
    hide HasQuorum, Overruled;
    var a := attempts[n];
    var e := FactOf(key, w.chainID, a);
    if a.vote.kind == Commit && a.vote.blockID.hash != [] {
      QuorumMonotone(facts, FactsOf(log), w, Prepare, a.vote.height, a.vote.round, a.vote.blockID);
    }
    forall j | 0 <= j < |log| && log[j].key == key
      ensures MsgBefore(log[j].msg, e.msg)
      ensures e.msg.kind == Prepare && CommitBy(log[j], key, e.msg.height)
              && log[j].msg.blockID.hash != e.msg.blockID.hash ==>
                Overruled(FactsOf(log), w, e.msg.height, log[j].msg.blockID.hash, log[j].msg.round, e.msg.round)
    {
      var m :| 0 <= m < n && m < |attempts| && log[j] == FactOf(key, w.chainID, attempts[m]);
      assert attempts[..n][m] == attempts[m];
      if e.msg.kind == Prepare && CommitBy(log[j], key, e.msg.height)
         && log[j].msg.blockID.hash != e.msg.blockID.hash {
        OverruledMonotone(facts, FactsOf(log), w, e.msg.height, log[j].msg.blockID.hash, log[j].msg.round, e.msg.round);
      }
    }
  }

  /** Releasing a node's allowed attempts keeps the log disciplined. */
  lemma {:induction false} EmitKeeps(log: seq<SigFact>, key: PubKey, attempts: seq<Attempt>, from: nat,
                                     facts: set<SigFact>, correct: set<PubKey>, w: World)
    requires WorldOk(w) && from <= |attempts| && facts <= FactsOf(log)
    requires Disciplined(log, correct, w) && Owned(log, key, w.chainID, attempts, from)
    requires forall j | from <= j < |attempts| :: AttemptOk(attempts[..j], attempts[j], w, facts)
    ensures var log' := Emit(log, key, w.chainID, attempts, from);
            && Disciplined(log', correct, w) && Owned(log', key, w.chainID, attempts, |attempts|)
            && log <= log' && forall i | |log| <= i < |log'| :: log'[i].key == key
    decreases |attempts| - from
  {
    hide EntryOk, Disciplined, AttemptOk;
    if from < |attempts| {
      var f := FactOf(key, w.chainID, attempts[from]);
      var log1 := if attempts[from].ok then log + [f] else log;
      if attempts[from].ok {
        AttemptGivesEntry(log, key, attempts, from, facts, w);
        AppendDisciplined(log, f, correct, w);
        FactsGrow(log, f);
      }
      OwnedNext(log, log1, key, w.chainID, attempts, from);
      EmitKeeps(log1, key, attempts, from + 1, facts, correct, w);
    }
  }

  lemma {:induction false} EmitGrows(log: seq<SigFact>, key: PubKey, chainID: string, attempts: seq<Attempt>, from: nat)
    requires from <= |attempts|
    ensures log <= Emit(log, key, chainID, attempts, from)
    decreases |attempts| - from
  {
    if from < |attempts| {
      EmitGrows(if attempts[from].ok then log + [FactOf(key, chainID, attempts[from])] else log,
                key, chainID, attempts, from + 1);
    }
  }

  lemma OwnedNext(log: seq<SigFact>, log1: seq<SigFact>, key: PubKey, chainID: string, attempts: seq<Attempt>, n: nat)
    requires n < |attempts| && Owned(log, key, chainID, attempts, n)
    requires log1 == log || log1 == log + [FactOf(key, chainID, attempts[n])]
    ensures Owned(log1, key, chainID, attempts, n + 1)
  {
    forall i | 0 <= i < |log1| && log1[i].key == key
      ensures exists m | 0 <= m < n + 1 && m < |attempts| :: log1[i] == FactOf(key, chainID, attempts[m])
    {
      if i < |log| {
        var m :| 0 <= m < n && m < |attempts| && log[i] == FactOf(key, chainID, attempts[m]);
        assert log1[i] == FactOf(key, chainID, attempts[m]);
      } else {
        assert log1[i] == FactOf(key, chainID, attempts[n]);
      }
    }
  }

  lemma AppendOkMonotone(e: Appended, w: World, facts: set<SigFact>, more: set<SigFact>)
    requires WorldOk(w) && facts <= more && AppendOk(e, w, facts)
    ensures AppendOk(e, w, more)
  {
    hide HasQuorum;
    var r, b :| HasQuorum(facts, w, Commit, e.height, r, b) && b.hash == e.hash;
    QuorumMonotone(facts, more, w, Commit, e.height, r, b);
  }

  /** A node that did nothing is as well off after others have signed. */
  lemma BystanderOk(sys: System, sys': System, w: World, k: PubKey)
    requires WorldOk(w) && k in sys.nodes && NodeOk(sys, w, k)
    requires k in sys'.nodes && sys'.nodes[k] == sys.nodes[k]
    requires sys.log <= sys'.log && forall i | |sys.log| <= i < |sys'.log| :: sys'.log[i].key != k
    ensures NodeOk(sys', w, k)
  {
    hide Inv, AppendOk;
    var s := sys.nodes[k];
    assert FactsOf(sys.log) <= FactsOf(sys'.log);
    InvMonotone(s, w, FactsOf(sys.log), FactsOf(sys'.log));
    forall e | e in s.appended ensures AppendOk(e, w, FactsOf(sys'.log)) {
      AppendOkMonotone(e, w, FactsOf(sys.log), FactsOf(sys'.log));
    }
    forall i | 0 <= i < |sys'.log| && sys'.log[i].key == k
      ensures exists m | 0 <= m < |s.attempts| :: sys'.log[i] == FactOf(k, w.chainID, s.attempts[m])
    {
      assert sys'.log[i] == sys.log[i];
    }
  }

  lemma FaultyStepKeeps(sys: System, sys': System, w: World, f: SigFact)
    requires WorldOk(w) && SystemOk(sys, w) && FaultyStep(sys, sys', f)
    ensures SystemOk(sys', w)
  {
    hide NodeOk, EntryOk;
    AppendDisciplined(sys.log, f, sys.nodes.Keys, w);
    forall k | k in sys'.nodes ensures NodeOk(sys', w, k) { BystanderOk(sys, sys', w, k); }
  }

  lemma ActorOk(sys: System, sys': System, w: World, k: PubKey, env: Env, event: Event)
    requires WorldOk(w) && SystemOk(sys, w) && CorrectStep(sys, sys', w, k, env, event)
    ensures NodeOk(sys', w, k) && Disciplined(sys'.log, sys'.nodes.Keys, w)
    ensures sys.log <= sys'.log && forall i | |sys.log| <= i < |sys'.log| :: sys'.log[i].key == k
  {
    hide Inv, AppendOk, AttemptOk, Disciplined;
    var s, facts := sys.nodes[k], FactsOf(sys.log);
    var t := Handle(s, env, event);
    assert NodeOk(sys, w, k);
    HandleKeeps(s, env, event, w);
    assert t.attempts[..|s.attempts|] == s.attempts;
    OwnedExtend(sys.log, k, w.chainID, s.attempts, t.attempts);
    EmitKeeps(sys.log, k, t.attempts, |s.attempts|, facts, sys.nodes.Keys, w);
    assert sys'.nodes.Keys == sys.nodes.Keys;
    assert facts <= FactsOf(sys'.log);
    InvMonotone(t, w, facts, FactsOf(sys'.log));
    SequentialExtend(s.attempts, t.attempts, w, facts);
    forall e | e in t.appended ensures AppendOk(e, w, FactsOf(sys'.log)) {
      var i :| 0 <= i < |t.appended| && t.appended[i] == e;
      assert i < |s.appended| ==> s.appended[i] == e;
      AppendOkMonotone(e, w, facts, FactsOf(sys'.log));
    }
  }

  lemma OwnedExtend(log: seq<SigFact>, key: PubKey, chainID: string, attempts: seq<Attempt>, more: seq<Attempt>)
    requires attempts <= more && Owned(log, key, chainID, attempts, |attempts|)
    ensures Owned(log, key, chainID, more, |attempts|)
  {
    forall i | 0 <= i < |log| && log[i].key == key
      ensures exists m | 0 <= m < |attempts| && m < |more| :: log[i] == FactOf(key, chainID, more[m])
    {
      var m :| 0 <= m < |attempts| && log[i] == FactOf(key, chainID, attempts[m]);
      assert log[i] == FactOf(key, chainID, more[m]);
    }
  }

  lemma SequentialExtend(attempts: seq<Attempt>, more: seq<Attempt>, w: World, facts: set<SigFact>)
    requires attempts <= more && Sequential(attempts)
    requires forall j | |attempts| <= j < |more| :: AttemptOk(more[..j], more[j], w, facts)
    ensures Sequential(more)
  {
    hide Superseded, Overruled, HasQuorum;
    forall i, j | 0 <= i < j < |more|
      ensures VoteBefore(more[i].vote, more[j].vote)
      ensures Abandons(more[i], more[j]) ==>
                Superseded(more[j].known, more[i].vote.blockID.hash, more[i].vote.round, more[j].vote.round)
    {
      if j < |attempts| { assert attempts[i] == more[i] && attempts[j] == more[j]; }
      else { assert AttemptOk(more[..j], more[j], w, facts) && more[..j][i] == more[i]; }
    }
    forall i | 0 <= i < |more|
      ensures more[i].enteredFor == more[i].vote.round && more[i].known.height == more[i].vote.height
    {
      if i < |attempts| { assert attempts[i] == more[i]; }
      else { assert AttemptOk(more[..i], more[i], w, facts); }
    }
  }

  lemma CorrectStepKeeps(sys: System, sys': System, w: World, k: PubKey, env: Env, event: Event)
    requires WorldOk(w) && SystemOk(sys, w) && CorrectStep(sys, sys', w, k, env, event)
    ensures SystemOk(sys', w)
  {
    hide NodeOk, EntryOk, Disciplined;
    ActorOk(sys, sys', w, k, env, event);
    forall n | n in sys'.nodes ensures NodeOk(sys', w, n) {
      if n != k { BystanderOk(sys, sys', w, n); }
    }
  }

  lemma {:induction false} RunKeeps(trace: seq<System>, w: World, n: nat)
    requires Run(trace, w) && n < |trace|
    ensures SystemOk(trace[n], w)
  {
    hide SystemOk, FaultyStep, CorrectStep;
    if n == 0 { InitOk(trace[0], w); }
    else {
      RunKeeps(trace, w, n - 1);
      var a, b := trace[n - 1], trace[n - 1 + 1];
      assert Step(a, b, w);
      if exists f :: FaultyStep(a, b, f) {
        var f :| FaultyStep(a, b, f);
        FaultyStepKeeps(a, b, w, f);
      } else {
        var k, env, event :| CorrectStep(a, b, w, k, env, event);
        CorrectStepKeeps(a, b, w, k, env, event);
      }
    }
  }

  lemma StateAgrees(sys: System, w: World, k: PubKey, e: Appended, k': PubKey, e': Appended)
    requires SystemOk(sys, w) && k in sys.nodes && k' in sys.nodes
    requires e in sys.nodes[k].appended && e' in sys.nodes[k'].appended && e.height == e'.height
    requires QuorumsMeet(w, e.height, sys.nodes.Keys)
    ensures e.hash == e'.hash
  {
    hide HasQuorum, Disciplined, Inv, QuorumsMeet;
    var facts := FactsOf(sys.log);
    assert NodeOk(sys, w, k) && NodeOk(sys, w, k');
    var r, b :| HasQuorum(facts, w, Commit, e.height, r, b) && b.hash == e.hash;
    var r', b' :| HasQuorum(facts, w, Commit, e'.height, r', b') && b'.hash == e'.hash;
    CommitQuorumsAgree(sys.log, w, sys.nodes.Keys, e.height, r, b, r', b');
  }

  /** Agreement: in every run, no two correct nodes append different blocks at one height, whatever rounds
      they finalize in, as long as every two quorums of that height have a correct validator in common. */
  lemma AgreeWhenQuorumsMeet(trace: seq<System>, w: World, n: nat, k: PubKey, e: Appended, k': PubKey, e': Appended)
    requires Run(trace, w) && n < |trace|
    requires k in trace[n].nodes && k' in trace[n].nodes
    requires e in trace[n].nodes[k].appended && e' in trace[n].nodes[k'].appended && e.height == e'.height
    requires QuorumsMeet(w, e.height, trace[n].nodes.Keys)
    ensures e.hash == e'.hash
  {
    hide SystemOk, QuorumsMeet;
    RunKeeps(trace, w, n);
    StateAgrees(trace[n], w, k, e, k', e');
  }

  /** In particular while the faulty validators of that height weigh less than two quorums overlap in (16/3
      of 10). */
  lemma NodesAgree(trace: seq<System>, w: World, n: nat, k: PubKey, e: Appended, k': PubKey, e': Appended)
    requires Run(trace, w) && n < |trace|
    requires k in trace[n].nodes && k' in trace[n].nodes
    requires e in trace[n].nodes[k].appended && e' in trace[n].nodes[k'].appended && e.height == e'.height
    requires Tolerates(w, e.height, trace[n].nodes.Keys)
    ensures e.hash == e'.hash
  {
    ToleratedMeets(w, e.height, trace[n].nodes.Keys);
    AgreeWhenQuorumsMeet(trace, w, n, k, e, k', e');
  }

  /** In every run, a correct node asks its signer at most once per height, round and vote type, never for
      an earlier position, and always for the round its step was entered for. */
  lemma SignsInOrder(trace: seq<System>, w: World, n: nat, k: PubKey, i: nat, j: nat)
    requires Run(trace, w) && n < |trace| && k in trace[n].nodes
    requires i <= j < |trace[n].nodes[k].attempts|
    ensures var attempts := trace[n].nodes[k].attempts;
            && attempts[j].enteredFor == attempts[j].vote.round
            && (i < j ==> VoteBefore(attempts[i].vote, attempts[j].vote))
  {
    hide Inv, Disciplined;
    RunKeeps(trace, w, n);
    assert NodeOk(trace[n], w, k);
  }

  /** In every run, a node that asked to sign a commit for a block in round `r` and later asks to sign a prepare
      for something else in round `r'` of the same height had by then itself recorded a prepare majority for
      another block, in a round after `r` and up to `r'`. */
  lemma LocksAreKept(trace: seq<System>, w: World, n: nat, k: PubKey, i: nat, j: nat)
    requires Run(trace, w) && n < |trace| && k in trace[n].nodes
    requires i < j < |trace[n].nodes[k].attempts|
    requires Abandons(trace[n].nodes[k].attempts[i], trace[n].nodes[k].attempts[j])
    ensures var (c, p) := (trace[n].nodes[k].attempts[i], trace[n].nodes[k].attempts[j]);
            && c.vote.round < p.vote.round && p.known.height == p.vote.height
            && Superseded(p.known, c.vote.blockID.hash, c.vote.round, p.vote.round)
  {
    hide Inv, Disciplined, Superseded;
    RunKeeps(trace, w, n);
    assert NodeOk(trace[n], w, k);
  }

  /** The same seen from the signatures: before such a prepare is signed, a quorum had signed prepares for
      another block, in a round after `r` and up to `r'`. */
  lemma RivalQuorumSigned(trace: seq<System>, w: World, n: nat, i: nat, j: nat)
    requires Run(trace, w) && n < |trace| && i < j < |trace[n].log| && trace[n].log[j].key in trace[n].nodes
    requires var (c, p) := (trace[n].log[i], trace[n].log[j].msg);
             && p.VoteBytes? && p.kind == Prepare && CommitBy(c, trace[n].log[j].key, p.height)
             && c.msg.blockID.hash != p.blockID.hash
    ensures var (c, p) := (trace[n].log[i].msg, trace[n].log[j].msg);
            c.round < p.round && Overruled(FactsOf(trace[n].log[..j]), w, p.height, c.blockID.hash, c.round, p.round)
  {
    hide NodeOk, Overruled;
    RunKeeps(trace, w, n);
    var log := trace[n].log;
    assert EntryOk(log[..j], log[j], w);
    assert log[..j][i] == log[i];
  }

  lemma StepAdvances(sys: System, sys': System, w: World, k: PubKey)
    requires WorldOk(w) && SystemOk(sys, w) && Step(sys, sys', w) && k in sys.nodes
    ensures k in sys'.nodes
    ensures var s, t := sys.nodes[k], sys'.nodes[k];
            LexLe(s.height, s.round, s.step, t.height, t.round, t.step) && s.attempts <= t.attempts && s.appended <= t.appended
  {
    hide Inv, Disciplined, Handle, AttemptOk, AppendOk;
    if !exists f :: FaultyStep(sys, sys', f) {
      var actor, env, event :| CorrectStep(sys, sys', w, actor, env, event);
      assert NodeOk(sys, w, actor);
      HandleKeeps(sys.nodes[actor], env, event, w);
    }
  }

  /** In every run, (height, round, step) of a correct node never goes back, and nothing it signed or
      appended is ever taken back. */
  lemma {:induction false} TimeNeverGoesBack(trace: seq<System>, w: World, i: nat, j: nat, k: PubKey)
    requires Run(trace, w) && i <= j < |trace| && k in trace[i].nodes
    ensures k in trace[j].nodes
    ensures var s, t := trace[i].nodes[k], trace[j].nodes[k];
            LexLe(s.height, s.round, s.step, t.height, t.round, t.step) && s.attempts <= t.attempts && s.appended <= t.appended
  {
    hide SystemOk, FaultyStep, CorrectStep, Init, WorldOk;
    if i < j {
      TimeNeverGoesBack(trace, w, i, j - 1, k);
      RunKeeps(trace, w, j - 1);
      assert Step(trace[j - 1], trace[j - 1 + 1], w);
      StepAdvances(trace[j - 1], trace[j], w, k);
    }
  }

  /** In every run, a locked (valid) block is exactly what the prepares of the locked (valid) round have a
      majority for, and every timeout the node may still receive is for a round it has reached. */
  lemma LocksBackedByMajorities(trace: seq<System>, w: World, n: nat, k: PubKey)
    requires Run(trace, w) && n < |trace| && k in trace[n].nodes && !trace[n].nodes[k].panicked
    ensures var s := trace[n].nodes[k];
            && LocksOk(s)
            && forall ti | ti in s.scheduled && ti.height == s.height :: ti.round <= s.round
  {
    RunKeeps(trace, w, n);
    var s := trace[n].nodes[k];
    assert NodeOk(trace[n], w, k);
    forall ti | ti in s.scheduled && ti.height == s.height ensures ti.round <= s.round {
      DeliveredRound(s, ti, w, FactsOf(trace[n].log));
    }
  }
}
