/** The network with restarts: a node that stops loses its memory, reads its log and handles it again. */
module Restarts {
  import opened Types
  import opened Power
  import VS = VoteSets
  import HV = HeightVoteSets
  import opened Quorums
  import opened RoundStates
  import opened Invariants
  import opened Agreement
  import opened Network
  import opened Replays
  import S = Signers

  /** A node's log: the state it starts from, the entries, how many of them are certainly on disk, and whether
      everything the node has handled since is among them. */
  datatype Wal = Wal(start: RoundState, entries: seq<Entry>, synced: nat, whole: bool)

  datatype Machine = Machine(sys: System, wals: map<PubKey, Wal>)

  ghost predicate Begins(m: Machine, w: World) {
    && Init(m.sys, w) && m.wals.Keys == m.sys.nodes.Keys
    && forall k | k in m.wals :: m.wals[k] == Wal(m.sys.nodes[k], [], 0, true)
  }

  predicate SameOutputs(s: RoundState, t: RoundState) {
    t.attempts == s.attempts && t.proposals == s.proposals && t.appended == s.appended
  }

  /** The log once the node has gone from `s` to `t`. Events of a logged kind are written before they are handled;
      before anything is signed the log is flushed to disk; and the end of a height starts it anew. */
  function Written(l: Wal, s: RoundState, t: RoundState, env: Env, event: Event): Wal {
    if t.height != s.height then Wal(t, [], 0, true)
    else
      var entries := if Logged(event) then l.entries + [Entry(env, event)] else l.entries;
      Wal(l.start, entries, if SameOutputs(s, t) then l.synced else |entries|, l.whole && Logged(event))
  }

  ghost predicate Handles(m: Machine, m': Machine, w: World, k: PubKey, env: Env, event: Event) {
    && k in m.wals && CorrectStep(m.sys, m'.sys, w, k, env, event)
    && m'.wals == m.wals[k := Written(m.wals[k], m.sys.nodes[k], m'.sys.nodes[k], env, event)]
  }

  /** A node restarts: of its log the first `n` entries are left, at least those that were flushed. It handles them
      again, with another clock and a signer that refuses to sign anything twice, so no signature is added. What
      it asked for and appended before stays on record. */
  ghost predicate RestartsFrom(m: Machine, m': Machine, k: PubKey, n: nat, again: seq<Entry>) {
    && k in m.sys.nodes && k in m.wals
    && var (s, l) := (m.sys.nodes[k], m.wals[k]);
    && l.synced <= n <= |l.entries| && Again(l.entries[..n], again)
    && var t := After(l.start, again).(attempts := s.attempts, proposals := s.proposals);
    && m' == Machine(m.sys.(nodes := m.sys.nodes[k := t]), m.wals[k := l.(entries := l.entries[..n])])
  }

  ghost predicate Moves(m: Machine, m': Machine, w: World) {
    || (exists f :: FaultyStep(m.sys, m'.sys, f) && m'.wals == m.wals)
    || (exists k, env, event :: Handles(m, m', w, k, env, event))
    || (exists k, n, again :: k in m.wals && m.wals[k].whole && RestartsFrom(m, m', k, n, again))
  }

  /** A run in which any node may restart at any time, if everything it has handled at its height was logged. */
  ghost predicate Lives(trace: seq<Machine>, w: World) {
    && WorldOk(w) && trace != [] && Begins(trace[0], w)
    && forall i | 0 <= i < |trace| - 1 :: Moves(trace[i], trace[i + 1], w)
  }

  // ---------------------------------------------------------------- what every reachable state keeps

  /** What is left of the log leads to a state the node was in since it last signed, proposed or appended. */
  ghost predicate PastOk(s: RoundState, l: Wal, w: World, facts: set<SigFact>, n: nat)
    requires n <= |l.entries|
  {
    var p := After(l.start, l.entries[..n]);
    Inv(p, w, facts) && SameOutputs(p, s) && p.key == s.key && p.chainID == s.chainID
  }

  ghost predicate LogOk(s: RoundState, l: Wal, w: World, facts: set<SigFact>) {
    l.whole ==>
      && s == After(l.start, l.entries) && l.synced <= |l.entries|
      && forall n: nat | l.synced <= n <= |l.entries| :: PastOk(s, l, w, facts, n)
  }

  ghost predicate MachineOk(m: Machine, w: World) {
    && SystemOk(m.sys, w) && m.wals.Keys == m.sys.nodes.Keys
    && forall k | k in m.sys.nodes :: LogOk(m.sys.nodes[k], m.wals[k], w, FactsOf(m.sys.log))
  }

  lemma NewLogOk(s: RoundState, w: World, facts: set<SigFact>)
    requires Inv(s, w, facts)
    ensures LogOk(s, Wal(s, [], 0, true), w, facts)
  {
    hide Inv;
    var l := Wal(s, [], 0, true);
    assert l.entries[..0] == [];
  }

  lemma BeginsOk(m: Machine, w: World)
    requires WorldOk(w) && Begins(m, w)
    ensures MachineOk(m, w)
  {
    hide Init, Inv, Disciplined, Owned, Sequential, AppendOk, LogOk;
    InitOk(m.sys, w);
    forall k | k in m.sys.nodes ensures LogOk(m.sys.nodes[k], m.wals[k], w, FactsOf(m.sys.log)) {
      assert NodeOk(m.sys, w, k);
      NewLogOk(m.sys.nodes[k], w, FactsOf(m.sys.log));
    }
  }

  /** Signatures that are added by others do not disturb a node's log. */
  lemma LogStays(s: RoundState, l: Wal, w: World, facts: set<SigFact>, more: set<SigFact>)
    requires LogOk(s, l, w, facts) && facts <= more
    ensures LogOk(s, l, w, more)
  {
    hide Inv, After;
    if l.whole {
      forall n: nat | l.synced <= n <= |l.entries| ensures PastOk(s, l, w, more, n) {
        assert PastOk(s, l, w, facts, n);
        InvMonotone(After(l.start, l.entries[..n]), w, facts, more);
      }
    }
  }

  lemma FaultyMoveKeeps(m: Machine, m': Machine, w: World, f: SigFact)
    requires WorldOk(w) && MachineOk(m, w) && FaultyStep(m.sys, m'.sys, f) && m'.wals == m.wals
    ensures MachineOk(m', w)
  {
    hide SystemOk, LogOk;
    FaultyStepKeeps(m.sys, m'.sys, w, f);
    FactsGrow(m.sys.log, f);
    forall k | k in m'.sys.nodes ensures LogOk(m'.sys.nodes[k], m'.wals[k], w, FactsOf(m'.sys.log)) {
      LogStays(m.sys.nodes[k], m.wals[k], w, FactsOf(m.sys.log), FactsOf(m'.sys.log));
    }
  }

  /** Writing the event before handling it keeps the log in step with the node. */
  lemma WrittenOk(s: RoundState, t: RoundState, l: Wal, w: World, facts: set<SigFact>, env: Env, event: Event)
    requires LogOk(s, l, w, facts) && Inv(t, w, facts) && Shaped(s) && t == Handle(s, env, event)
    requires t.key == s.key && t.chainID == s.chainID
    ensures LogOk(t, Written(l, s, t, env, event), w, facts)
  {
    hide Inv, Handle, Shaped;
    var l' := Written(l, s, t, env, event);
    NewLogOk(t, w, facts);
    if t.height == s.height && l'.whole {
      AfterOne(l.start, l.entries, Entry(env, event));
      forall n: nat | l'.synced <= n <= |l'.entries| ensures PastOk(t, l', w, facts, n) {
        if n == |l'.entries| { assert l'.entries[..n] == l'.entries; }
        else { assert l'.entries[..n] == l.entries[..n] && PastOk(s, l, w, facts, n); }
      }
    }
  }

  lemma HandlesKeeps(m: Machine, m': Machine, w: World, k: PubKey, env: Env, event: Event)
    requires WorldOk(w) && MachineOk(m, w) && Handles(m, m', w, k, env, event)
    ensures MachineOk(m', w)
  {
    hide LogOk, Handle, Emit, EnvOk, Shaped, Inv, Disciplined, Owned, Sequential, AppendOk, Written;
    CorrectStepKeeps(m.sys, m'.sys, w, k, env, event);
    EmitMore(m.sys, m'.sys, w, k, env, event);
    var (facts, more) := (FactsOf(m.sys.log), FactsOf(m'.sys.log));
    assert NodeOk(m.sys, w, k) && NodeOk(m'.sys, w, k);
    forall j | j in m'.sys.nodes ensures LogOk(m'.sys.nodes[j], m'.wals[j], w, more) {
      LogStays(m.sys.nodes[j], m.wals[j], w, facts, more);
      if j == k { WrittenOk(m.sys.nodes[k], m'.sys.nodes[k], m.wals[k], w, more, env, event); }
    }
  }

  lemma EmitMore(sys: System, sys': System, w: World, k: PubKey, env: Env, event: Event)
    requires CorrectStep(sys, sys', w, k, env, event)
    ensures FactsOf(sys.log) <= FactsOf(sys'.log)
  {
    hide Handle, EnvOk, Shaped;
    EmitGrows(sys.log, k, w.chainID, sys'.nodes[k].attempts, |sys.nodes[k].attempts|);
  }

  /** A restart takes a node back to a state it was in since it last signed, proposed or appended: lock, votes and
      position included. */
  lemma RestartRestores(m: Machine, m': Machine, w: World, k: PubKey, n: nat, again: seq<Entry>)
    requires MachineOk(m, w) && RestartsFrom(m, m', k, n, again) && m.wals[k].whole
    ensures var (s, t, l) := (m.sys.nodes[k], m'.sys.nodes[k], m.wals[k]);
            && t == After(l.start, l.entries[..n]) && SameOutputs(s, t)
            && Inv(t, w, FactsOf(m.sys.log)) && t.key == s.key && t.chainID == s.chainID
  {
    hide SystemOk, Inv, After;
    var (s, l) := (m.sys.nodes[k], m.wals[k]);
    AfterTwin(l.start, l.entries[..n], again);
    assert LogOk(s, l, w, FactsOf(m.sys.log)) && PastOk(s, l, w, FactsOf(m.sys.log), n);
  }

  lemma RestartKeepsSystem(m: Machine, m': Machine, w: World, k: PubKey, n: nat, again: seq<Entry>)
    requires MachineOk(m, w) && RestartsFrom(m, m', k, n, again) && m.wals[k].whole
    ensures SystemOk(m'.sys, w)
  {
    hide Inv, Disciplined, Owned, Sequential, AppendOk, After, LogOk, Again;
    RestartRestores(m, m', w, k, n, again);
    assert m'.sys.nodes.Keys == m.sys.nodes.Keys;
    forall j | j in m'.sys.nodes ensures NodeOk(m'.sys, w, j) { assert NodeOk(m.sys, w, j); }
  }

  lemma ShorterLogOk(s: RoundState, t: RoundState, l: Wal, w: World, facts: set<SigFact>, n: nat)
    requires LogOk(s, l, w, facts) && l.whole && l.synced <= n <= |l.entries|
    requires t == After(l.start, l.entries[..n]) && SameOutputs(s, t) && t.key == s.key && t.chainID == s.chainID
    ensures LogOk(t, l.(entries := l.entries[..n]), w, facts)
  {
    hide Inv, After;
    var l' := l.(entries := l.entries[..n]);
    forall i: nat | l'.synced <= i <= n ensures PastOk(t, l', w, facts, i) {
      assert PastOk(s, l, w, facts, i) && l'.entries[..i] == l.entries[..i];
    }
  }

  lemma RestartKeeps(m: Machine, m': Machine, w: World, k: PubKey, n: nat, again: seq<Entry>)
    requires MachineOk(m, w) && RestartsFrom(m, m', k, n, again) && m.wals[k].whole
    ensures MachineOk(m', w)
  {
    hide SystemOk, Inv, After, Again, LogOk;
    RestartKeepsSystem(m, m', w, k, n, again);
    RestartRestores(m, m', w, k, n, again);
    forall j | j in m'.sys.nodes ensures LogOk(m'.sys.nodes[j], m'.wals[j], w, FactsOf(m'.sys.log)) {
      if j == k { ShorterLogOk(m.sys.nodes[k], m'.sys.nodes[k], m.wals[k], w, FactsOf(m.sys.log), n); }
    }
  }

  /** Every state of every run with restarts satisfies the invariants of every correct node. */
  lemma {:induction false} RestartsKeep(trace: seq<Machine>, w: World, n: nat)
    requires Lives(trace, w) && n < |trace|
    ensures MachineOk(trace[n], w)
  {
    hide MachineOk, FaultyStep, Handles, RestartsFrom, Begins;
    if n == 0 { BeginsOk(trace[0], w); }
    else {
      RestartsKeep(trace, w, n - 1);
      var (a, b) := (trace[n - 1], trace[n - 1 + 1]);
      assert Moves(a, b, w);
      if exists f :: FaultyStep(a.sys, b.sys, f) && b.wals == a.wals {
        var f :| FaultyStep(a.sys, b.sys, f) && b.wals == a.wals;
        FaultyMoveKeeps(a, b, w, f);
      } else if exists k, env, event :: Handles(a, b, w, k, env, event) {
        var k, env, event :| Handles(a, b, w, k, env, event);
        HandlesKeeps(a, b, w, k, env, event);
      } else {
        var k, i, again :| k in a.wals && a.wals[k].whole && RestartsFrom(a, b, k, i, again);
        RestartKeeps(a, b, w, k, i, again);
      }
    }
  }

  /** Agreement with restarts: any correct nodes may stop at any time and read their logs again, and still no two of
      them append different blocks at one height. */
  lemma AgreeDespiteRestarts(trace: seq<Machine>, w: World, n: nat, k: PubKey, e: Appended, k': PubKey, e': Appended)
    requires Lives(trace, w) && n < |trace|
    requires k in trace[n].sys.nodes && k' in trace[n].sys.nodes
    requires e in trace[n].sys.nodes[k].appended && e' in trace[n].sys.nodes[k'].appended && e.height == e'.height
    requires QuorumsMeet(w, e.height, trace[n].sys.nodes.Keys)
    ensures e.hash == e'.hash
  {
    hide SystemOk, QuorumsMeet, LogOk;
    RestartsKeep(trace, w, n);
    StateAgrees(trace[n].sys, w, k, e, k', e');
  }

  // ---------------------------------------------------------------- the signer during a replay

  /** The signer once it has been asked for these votes in turn. */
  function Served(l: S.LastSign, chainID: string, attempts: seq<Attempt>, key: SignBytes -> Option<Bytes>): S.LastSign {
    if attempts == [] then l
    else
      var n := |attempts| - 1;
      S.Sign(Served(l, chainID, attempts[..n], key), attempts[n].vote.SignBytes(chainID), key).last
  }

  /** The requests come in order, and after anything signed before. */
  ghost predicate InOrder(l: S.LastSign, chainID: string, attempts: seq<Attempt>) {
    && (forall i, j | 0 <= i < j < |attempts| :: VoteBefore(attempts[i].vote, attempts[j].vote))
    && (forall i | 0 <= i < |attempts| :: S.IsBefore(l, attempts[i].vote.SignBytes(chainID)))
  }

  lemma {:induction false} ServedLast(l: S.LastSign, chainID: string, attempts: seq<Attempt>, key: SignBytes -> Option<Bytes>)
    requires InOrder(l, chainID, attempts)
    requires forall i | 0 <= i < |attempts| :: key(attempts[i].vote.SignBytes(chainID)).Some?
    ensures attempts != [] ==>
              var m := attempts[|attempts| - 1].vote.SignBytes(chainID);
              Served(l, chainID, attempts, key) == S.LastSign(m.height, m.round, S.SignStep(m), Some(m), key(m))
    decreases |attempts|
  {
    if attempts != [] {
      var n := |attempts| - 1;
      ServedLast(l, chainID, attempts[..n], key);
      if n > 0 { assert VoteBefore(attempts[n - 1].vote, attempts[n].vote) && attempts[..n][n - 1] == attempts[n - 1]; }
    }
  }

  /** The double-sign guard never stands in the way of a correct node: in every run with restarts, every vote it asks
      for is at a new position and is signed, restarts or not. */
  lemma GuardNeverRefuses(trace: seq<Machine>, w: World, n: nat, k: PubKey, j: nat,
                          l: S.LastSign, key: SignBytes -> Option<Bytes>)
    requires Lives(trace, w) && n < |trace| && k in trace[n].sys.nodes
    requires var attempts := trace[n].sys.nodes[k].attempts;
             && j < |attempts|
             && forall i | 0 <= i < |attempts| ::
                  var m := attempts[i].vote.SignBytes(w.chainID); S.IsBefore(l, m) && key(m).Some?
    ensures var attempts := trace[n].sys.nodes[k].attempts;
            var m := attempts[j].vote.SignBytes(w.chainID);
            S.Sign(Served(l, w.chainID, attempts[..j], key), m, key).released == Some(S.Release(m, key(m).value))
  {
    hide Lives, Served, S.Sign;
    VotesInOrder(trace, w, n, k, l);
    FirstRequest(l, w.chainID, trace[n].sys.nodes[k].attempts, key, j);
  }

  lemma VotesInOrder(trace: seq<Machine>, w: World, n: nat, k: PubKey, l: S.LastSign)
    requires Lives(trace, w) && n < |trace| && k in trace[n].sys.nodes
    requires forall i | 0 <= i < |trace[n].sys.nodes[k].attempts| ::
               S.IsBefore(l, trace[n].sys.nodes[k].attempts[i].vote.SignBytes(w.chainID))
    ensures InOrder(l, w.chainID, trace[n].sys.nodes[k].attempts)
  {
    hide Inv, Disciplined, LogOk, S.IsBefore;
    RestartsKeep(trace, w, n);
    assert NodeOk(trace[n].sys, w, k);
  }

  lemma FirstRequest(l: S.LastSign, chainID: string, attempts: seq<Attempt>, key: SignBytes -> Option<Bytes>, j: nat)
    requires InOrder(l, chainID, attempts) && j < |attempts|
    requires forall i | 0 <= i < |attempts| :: key(attempts[i].vote.SignBytes(chainID)).Some?
    ensures var m := attempts[j].vote.SignBytes(chainID);
            S.Sign(Served(l, chainID, attempts[..j], key), m, key).released == Some(S.Release(m, key(m).value))
  {
    ServedLast(l, chainID, attempts[..j], key);
    if j > 0 { assert VoteBefore(attempts[j - 1].vote, attempts[j].vote) && attempts[..j][j - 1] == attempts[j - 1]; }
  }

  lemma LaterRequest(l: S.LastSign, chainID: string, attempts: seq<Attempt>, key: SignBytes -> Option<Bytes>, j: nat, time: int)
    requires InOrder(l, chainID, attempts) && j < |attempts|
    requires forall i | 0 <= i < |attempts| :: key(attempts[i].vote.SignBytes(chainID)).Some?
    ensures var last := Served(l, chainID, attempts, key);
            var m := attempts[|attempts| - 1].vote.SignBytes(chainID);
            var o := S.Sign(last, attempts[j].vote.(time := time).SignBytes(chainID), key);
            && o.last == last && (o.released.Some? <==> j == |attempts| - 1)
            && (o.released.Some? ==> o.released.value == S.Release(m, key(m).value))
  {
    hide Served;
    ServedLast(l, chainID, attempts, key);
    var i := |attempts| - 1;
    if j < i { assert VoteBefore(attempts[j].vote, attempts[i].vote); }
  }

  /** And it never signs anything new when a restarted node asks again: whichever earlier vote is asked for, at
      whatever time, the signer's state stays, and all it ever hands out is the signature it saved last. */
  lemma ReplaySignsNothingNew(trace: seq<Machine>, w: World, n: nat, k: PubKey, j: nat, time: int,
                              l: S.LastSign, key: SignBytes -> Option<Bytes>)
    requires Lives(trace, w) && n < |trace| && k in trace[n].sys.nodes
    requires var attempts := trace[n].sys.nodes[k].attempts;
             && j < |attempts|
             && forall i | 0 <= i < |attempts| ::
                  var m := attempts[i].vote.SignBytes(w.chainID); S.IsBefore(l, m) && key(m).Some?
    ensures var attempts := trace[n].sys.nodes[k].attempts;
            var last := Served(l, w.chainID, attempts, key);
            var m := attempts[|attempts| - 1].vote.SignBytes(w.chainID);
            var o := S.Sign(last, attempts[j].vote.(time := time).SignBytes(w.chainID), key);
            && o.last == last && (o.released.Some? <==> j == |attempts| - 1)
            && (o.released.Some? ==> o.released.value == S.Release(m, key(m).value))
  {
    hide Lives, Served, S.Sign;
    VotesInOrder(trace, w, n, k, l);
    LaterRequest(l, w.chainID, trace[n].sys.nodes[k].attempts, key, j, time);
  }
}
