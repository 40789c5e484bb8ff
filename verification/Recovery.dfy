/** Crash recovery: the write order of `finalizeAppend` and `ApplyBlock`, and the handshake that repairs
    whatever a crash left behind (`consensus/replay.go`, `state/execution.go`). */
module Recovery {
  import opened Types

  datatype AppState = AppState(content: Bytes)

  /** The application's answers to a block: to BeginBlock, and to the transactions and EndBlock. */
  datatype Responses = Responses(begin: Bytes, rest: Bytes)

  datatype Block = Block(height: int, appHash: Bytes, content: Bytes)

  /** The consensus state: `content` stands for validators, last block identifier, time and parameters. */
  datatype State = State(height: int, appHash: Bytes, resultsHash: Bytes, content: Bytes)

  datatype InitResponse = InitResponse(appHash: Bytes, content: Option<Bytes>)

  /** A deterministic application, the checks and updates of the consensus state, and the chain of blocks
      that consensus decides. `next` is `updateState`; it fails on bad validator updates. */
  datatype World = World(
    initial: int, genesis: State, genesisHasValidators: bool, emptyResults: Bytes, initApp: AppState, initResponse: InitResponse,
    exec: (AppState, Block) -> (AppState, Responses), hash: AppState -> Bytes,
    blockOk: (State, Block) -> bool, next: (State, Block, Bytes) -> Option<Bytes>,
    block: int -> Block)

  // ---------------------------------------------------------------- the uninterrupted run

  /** The genesis state after the application answered InitChain. */
  function Initialised(w: World, s: State): State {
    s.(appHash := if w.initResponse.appHash != [] then w.initResponse.appHash else s.appHash,
       content := if w.initResponse.content.Some? then w.initResponse.content.value else s.content,
       resultsHash := w.emptyResults)
  }

  /** The application's answer to InitChain has been taken over: its validators and hash replace the genesis
      document's where it gave any, and there are no results yet. */
  predicate TakesOver(answer: InitResponse, emptyResults: Bytes, before: State, after: State) {
    && after.height == before.height && after.resultsHash == emptyResults
    && (answer.appHash != [] ==> after.appHash == answer.appHash)
    && (answer.appHash == [] ==> after.appHash == before.appHash)
    && (answer.content.Some? ==> after.content == answer.content.value)
    && (answer.content.None? ==> after.content == before.content)
  }

  lemma InitTakesOver(w: World, s: State)
    ensures TakesOver(w.initResponse, w.emptyResults, s, Initialised(w, s))
  {
  }

  /** The height of the n-th block, 0 before the first. */
  function HeightOf(w: World, n: nat): int { if n == 0 then 0 else w.initial + n - 1 }

  /** How many blocks there are up to a height. */
  function CountOf(w: World, height: int): int { if height == 0 then 0 else height - w.initial + 1 }

  predicate ValidBlock(w: World, s: State, b: Block) {
    b.height == (if s.height == 0 then w.initial else s.height + 1) && b.appHash == s.appHash && w.blockOk(s, b)
  }

  function AppAt(w: World, n: nat): AppState {
    if n == 0 then w.initApp else w.exec(AppAt(w, n - 1), w.block(n)).0
  }

  function ResponsesAt(w: World, n: nat): Responses
    requires n > 0
  {
    w.exec(AppAt(w, n - 1), w.block(n)).1
  }

  function StateAt(w: World, n: nat): State {
    if n == 0 then Initialised(w, w.genesis)
    else
      var content := w.next(StateAt(w, n - 1), w.block(n), ResponsesAt(w, n).rest);
      State(HeightOf(w, n), w.hash(AppAt(w, n)), [], if content.Some? then content.value else [])
  }

  predicate Applies(w: World, n: nat)
    requires n > 0
  {
    w.next(StateAt(w, n - 1), w.block(n), ResponsesAt(w, n).rest).Some?
  }

  ghost predicate ValidAt(w: World, n: nat)
    requires n > 0
  {
    ValidBlock(w, StateAt(w, n - 1), w.block(n))
  }

  /** The chain up to `n` is one that consensus can decide: each block is valid on top of those before it. */
  ghost predicate ChainOk(w: World, n: nat) {
    && w.genesis.height == 0 && w.initial >= 1
    && (forall k | 1 <= k <= n :: ValidAt(w, k))
    && (forall k | 1 <= k < n :: Applies(w, k))
  }

  // ---------------------------------------------------------------- what survives a crash

  datatype Disk = Disk(store: seq<Block>, saved: Option<State>, responses: map<int, Responses>,
                       appCount: nat, appState: AppState)

  /** How many blocks the saved state has seen. */
  function SavedCount(w: World, d: Disk): int { if d.saved.Some? then CountOf(w, d.saved.value.height) else 0 }

  /** Everything on disk is the uninterrupted run's: the block store is at most one block ahead of the saved
      state, the application is at some height at or below the store, and if the application is ahead of the
      saved state then the responses it gave are on disk. */
  ghost predicate Coherent(w: World, d: Disk) {
    var n := |d.store|;
    && ChainOk(w, n)
    && (forall k | 0 <= k < n :: d.store[k] == w.block(k + 1))
    && (d.saved.None? ==> n == 0)
    && 0 <= SavedCount(w, d) && (d.saved.Some? ==> d.saved.value == StateAt(w, SavedCount(w, d)))
    && SavedCount(w, d) <= n <= SavedCount(w, d) + 1
    && (0 < n == SavedCount(w, d) ==> Applies(w, n))
    && d.appCount <= n
    && (d.appCount > 0 ==> d.appState == AppAt(w, d.appCount))
    && (d.appCount == n > SavedCount(w, d) ==>
          Applies(w, n) && HeightOf(w, n) in d.responses
          && d.responses[HeightOf(w, n)].rest == ResponsesAt(w, n).rest)
  }

  // Each write of the block-applying path, on its own, leaves a coherent disk.

  lemma SaveBlockKeeps(w: World, d: Disk, b: Block)
    requires Coherent(w, d) && d.saved.Some? && SavedCount(w, d) == |d.store|
    requires b == w.block(|d.store| + 1) && ValidBlock(w, d.saved.value, b)
    ensures Coherent(w, d.(store := d.store + [b]))
  {
    assert ValidAt(w, |d.store| + 1);
    hide StateAt, AppAt, ValidAt, Applies, ValidBlock;
  }

  lemma SaveResponsesKeeps(w: World, d: Disk, r: Responses)
    requires Coherent(w, d) && |d.store| == SavedCount(w, d) + 1
    requires r.rest == ResponsesAt(w, |d.store|).rest
    ensures Coherent(w, d.(responses := d.responses[HeightOf(w, |d.store|) := r]))
  {
  }

  lemma CommitAppKeeps(w: World, d: Disk)
    requires Coherent(w, d) && d.appCount < |d.store|
    requires d.appCount + 1 > SavedCount(w, d) ==>
               && Applies(w, d.appCount + 1) && HeightOf(w, d.appCount + 1) in d.responses
               && d.responses[HeightOf(w, d.appCount + 1)].rest == ResponsesAt(w, d.appCount + 1).rest
    ensures Coherent(w, d.(appCount := d.appCount + 1, appState := AppAt(w, d.appCount + 1)))
  {
  }

  lemma SaveStateKeeps(w: World, d: Disk)
    requires Coherent(w, d) && |d.store| == SavedCount(w, d) + 1 && Applies(w, |d.store|)
    ensures Coherent(w, d.(saved := Some(StateAt(w, |d.store|))))
  {
  }

  /** Saving the initialised genesis state, for the first time or again. */
  lemma InitKeeps(w: World, d: Disk)
    requires Coherent(w, d) && SavedCount(w, d) == 0
    ensures Initialised(w, if d.saved.Some? then d.saved.value else w.genesis) == StateAt(w, 0)
    ensures Coherent(w, d.(saved := Some(StateAt(w, 0))))
  {
    hide AppAt, ResponsesAt, ValidAt, Applies;
  }

  /** The application may come back at any height it has been at. */
  lemma RollBackKeeps(w: World, d: Disk, k: nat)
    requires Coherent(w, d) && k <= d.appCount
    ensures Coherent(w, d.(appCount := k, appState := AppAt(w, k)))
  {
  }

  function Heights(a: int, b: int): seq<int>
    decreases b - a
  {
    if a >= b then [] else Heights(a, b - 1) + [b]
  }

  lemma {:induction false} HeightsJoin(a: int, m: int, b: int)
    requires a <= m <= b
    ensures Heights(a, m) + Heights(m, b) == Heights(a, b)
    decreases b - m
  {
    if m < b {
      HeightsJoin(a, m, b - 1);
      assert Heights(m, b) == Heights(m, b - 1) + [b];
      assert Heights(a, b) == Heights(a, b - 1) + [b];
    } else {
      assert Heights(m, b) == [];
    }
  }

  lemma SavedHash(w: World, d: Disk)
    requires Coherent(w, d) && SavedCount(w, d) > 0
    ensures d.saved.value.appHash == w.hash(AppAt(w, SavedCount(w, d)))
  {
  }

  lemma ExecNext(w: World, n: nat)
    requires n > 0
    ensures w.exec(AppAt(w, n - 1), w.block(n)) == (AppAt(w, n), ResponsesAt(w, n))
  {
  }

  lemma InSightOf(w: World, d: Disk)
    requires Coherent(w, d)
    ensures w.genesis.height == 0 && d.appCount <= |d.store| && SavedCount(w, d) <= |d.store| <= SavedCount(w, d) + 1
    ensures w.initial >= 1 && 0 <= SavedCount(w, d)
    ensures d.saved.Some? ==> d.saved.value == StateAt(w, SavedCount(w, d)) && d.saved.value.height == HeightOf(w, SavedCount(w, d))
    ensures d.saved.None? ==> d.store == []
    ensures d.appCount > 0 ==> d.appState == AppAt(w, d.appCount)
    ensures 0 < |d.store| == SavedCount(w, d) ==> Applies(w, |d.store|)
    ensures d.appCount == |d.store| > SavedCount(w, d) ==>
              && Applies(w, |d.store|) && HeightOf(w, |d.store|) in d.responses
              && d.responses[HeightOf(w, |d.store|)].rest == ResponsesAt(w, |d.store|).rest
  {
  }

  /** What the next saved state must be, given what was executed. */
  lemma StateNext(w: World, d: Disk, rest: Bytes)
    requires Coherent(w, d) && d.saved.Some? && |d.store| == SavedCount(w, d) + 1
    requires rest == ResponsesAt(w, |d.store|).rest
    ensures var n := |d.store|;
            var s := d.saved.value;
            && ValidBlock(w, s, d.store[n - 1]) && d.store[n - 1] == w.block(n) && d.store[n - 1].height == HeightOf(w, n)
            && (w.next(s, w.block(n), rest).Some? <==> Applies(w, n))
            && (Applies(w, n) ==>
                  StateAt(w, n) == State(HeightOf(w, n), w.hash(AppAt(w, n)), [], w.next(s, w.block(n), rest).value))
  {
    var n := |d.store|;
    assert ValidAt(w, n) && d.saved.value == StateAt(w, n - 1) && d.store[n - 1] == w.block(n);
    hide Coherent, AppAt, ResponsesAt;
  }

  // ---------------------------------------------------------------- which repair is needed

  datatype Repair = InSync | AppTooLow | AppTooHigh | StateAhead | StoreAhead | ReplayApp(mutateState: bool)
                | ReplayReal | ReplayMock | Uncovered

  /** The case analysis of `ReplayBlocks` on the three heights. */
  function Choose(app: int, base: int, store: int, state: int, initial: int): Repair {
    if store == 0 then InSync
    else if app == 0 && initial < base then AppTooLow
    else if app > 0 && app < base - 1 then AppTooLow
    else if store < app then AppTooHigh
    else if store < state then StateAhead
    else if store > state + 1 then StoreAhead
    else if store == state then
      if app < store then ReplayApp(false) else if app == store then InSync else Uncovered
    else if store == state + 1 then
      if app < state then ReplayApp(true) else if app == state then ReplayReal
      else if app == store then ReplayMock else Uncovered
    else Uncovered
  }

  /** The uncovered-case panic is dead code, whatever the heights. */
  lemma NothingUncovered(app: int, base: int, store: int, state: int, initial: int)
    ensures !Choose(app, base, store, state, initial).Uncovered?
  {
  }

  /** The decision for any heights at all: the errors, in this order, and the repairs. */
  lemma ChooseIff(app: int, base: int, store: int, state: int, initial: int)
    ensures var r := Choose(app, base, store, state, initial);
            var low := (app == 0 && initial < base) || 0 < app < base - 1;
            && (store == 0 ==> r.InSync?)
            && (r.AppTooLow? <==> store != 0 && low)
            && (r.AppTooHigh? <==> store != 0 && !low && store < app)
            && (r.StateAhead? <==> store != 0 && !low && app <= store < state)
            && (r.StoreAhead? <==> store != 0 && !low && app <= store && store > state + 1)
            && (store != 0 && !low && app <= store && state <= store <= state + 1 ==>
                  && (r.InSync? <==> app == store == state)
                  && (r == ReplayApp(false) <==> app < store == state)
                  && (r == ReplayApp(true) <==> app < state < store)
                  && (r.ReplayReal? <==> app == state < store)
                  && (r.ReplayMock? <==> state < app == store))
  {
  }

  /** The first block of a chain that starts above height 1 is stored and the state before it is the saved one. */
  predicate Stuck(w: World, d: Disk) { w.initial > 1 && d.store != [] && SavedCount(w, d) == 0 }

  /** A chain that starts above height 1 cannot recover from a crash while its first block is applied, whether
      or not the application has committed it: the store is then "too far" ahead of the state. That is the only
      way the store can be too far ahead on a coherent disk. */
  lemma StoreAheadIff(w: World, d: Disk)
    requires Coherent(w, d)
    ensures Plan(w, d).StoreAhead? <==> Stuck(w, d)
    ensures !Plan(w, d).AppTooLow? && !Plan(w, d).AppTooHigh? && !Plan(w, d).StateAhead? && !Plan(w, d).Uncovered?
    ensures Plan(w, d).ReplayApp? ==> d.appCount < SavedCount(w, d) && (Plan(w, d).mutateState <==> |d.store| > SavedCount(w, d))
    ensures Plan(w, d).ReplayReal? ==> d.appCount == SavedCount(w, d) < |d.store|
    ensures Plan(w, d).ReplayMock? ==> d.appCount == |d.store| > SavedCount(w, d)
    ensures Plan(w, d).InSync? ==> d.appCount == |d.store| == SavedCount(w, d)
  {
    hide StateAt, AppAt, Applies, ResponsesAt, ValidAt;
    InSightOf(w, d);
  }

  /** The case the handshake finds a disk in. */
  function Plan(w: World, d: Disk): Repair {
    Choose(HeightOf(w, d.appCount), if d.store == [] then 0 else w.initial, HeightOf(w, |d.store|),
           if d.saved.Some? then d.saved.value.height else 0, w.initial)
  }

  // ---------------------------------------------------------------- the node and its application

  datatype Outcome = Done(appHash: Bytes) | Failed | Panicked

  datatype Mock = Mock(appHash: Bytes, responses: Responses)

  class Replica {
    const w: World
    /** Survives a crash. */
    var disk: Disk
    /** The application's state in memory. */
    var working: AppState
    /** Every disk image so far, and the blocks the application has executed and committed, by number. */
    ghost var trace: seq<Disk>
    ghost var executed: seq<int>

    ghost predicate TraceOk(since: nat)
      reads this
    {
      since <= |trace| && forall k | since <= k < |trace| :: Coherent(w, trace[k])
    }

    ghost predicate Synced()
      reads this
    {
      && Coherent(w, disk) && disk.saved.Some?
      && |disk.store| == SavedCount(w, disk) == disk.appCount
      && working == AppAt(w, disk.appCount)
    }

    constructor (w: World)
      requires w.genesis.height == 0 && w.initial >= 1
      ensures this.w == w && Coherent(w, disk) && disk.store == [] && trace == [] && executed == []
    {
      this.w := w;
      disk := Disk([], None, map[], 0, w.initApp);
      working := w.initApp;
      trace := [];
      executed := [];
    }

    method Write(d: Disk)
      modifies this`disk, this`trace
      ensures disk == d && trace == old(trace) + [d]
    {
      disk := d;
      trace := trace + [d];
    }

    /** BeginBlock, DeliverTx and EndBlock change the application only in memory. */
    method Exec(b: Block) returns (r: Responses)
      modifies this`working
      ensures (working, r) == w.exec(old(working), b)
    {
      var res := w.exec(working, b);
      working := res.0;
      r := res.1;
    }

    /** The application's Commit makes its state durable. */
    method CommitApp() returns (hash: Bytes)
      modifies this`disk, this`trace, this`executed
      ensures disk == old(disk).(appCount := old(disk).appCount + 1, appState := working)
      ensures trace == old(trace) + [disk] && executed == old(executed) + [disk.appCount]
      ensures hash == w.hash(working)
    {
      Write(disk.(appCount := disk.appCount + 1, appState := working));
      executed := executed + [disk.appCount];
      hash := w.hash(working);
    }

    /** `ApplyBlock` on the last stored block, on the real application or on a mock that replays saved
        responses. Wherever it is cut off, the disk is coherent. */
    method ApplyBlock(s: State, b: Block, mock: Option<Mock>) returns (r: Option<State>)
      requires Coherent(w, disk) && disk.saved == Some(s) && |disk.store| == SavedCount(w, disk) + 1
      requires b == disk.store[|disk.store| - 1]
      requires mock.None? ==> disk.appCount == |disk.store| - 1 && working == AppAt(w, disk.appCount)
      requires mock.Some? ==> MockOk(mock.value)
      modifies this
      ensures old(trace) <= trace && TraceOk(|old(trace)|) && Coherent(w, disk) && disk.store == old(disk).store
      ensures r.Some? <==> Applies(w, |disk.store|)
      ensures r.Some? ==> r == disk.saved == Some(StateAt(w, |disk.store|)) && disk.appCount == |disk.store|
      ensures r.Some? && mock.None? ==> working == AppAt(w, disk.appCount)
      ensures mock.None? ==>
                var (app, answers) := w.exec(old(working), b);
                && disk.responses == old(disk).responses[b.height := answers]
                && (r.Some? <==> w.next(s, b, answers.rest).Some?)
                && (r.Some? ==> disk.appState == app && r.value == State(b.height, w.hash(app), [], w.next(s, b, answers.rest).value))
      ensures mock.Some? ==> working == old(working) && r.Some?
      ensures executed == old(executed) + (if mock.None? && r.Some? then [|disk.store|] else [])
      ensures mock.Some? ==>
                disk.responses == old(disk).responses[b.height := Responses([], mock.value.responses.rest)]
      ensures r.None? ==> disk.saved == old(disk).saved && disk.appCount == old(disk).appCount
    {
      hide Coherent, StateAt, ValidBlock, Applies, AppAt, ResponsesAt;
      ghost var n := |disk.store|;
      InSightOf(w, disk);
      StateNext(w, disk, ResponsesAt(w, n).rest);
      ExecNext(w, n);
      if !ValidBlock(w, s, b) { return None; }
      var responses;
      if mock.Some? {
        responses := Responses([], mock.value.responses.rest);
      } else {
        responses := Exec(b);
      }
      SaveResponsesKeeps(w, disk, responses);
      Write(disk.(responses := disk.responses[b.height := responses]));
      var content := w.next(s, b, responses.rest);
      if content.None? { return None; }
      var hash;
      if mock.Some? {
        hash := mock.value.appHash;
      } else {
        CommitAppKeeps(w, disk);
        hash := CommitApp();
      }
      SaveStateKeeps(w, disk);
      var s' := State(b.height, hash, [], content.value);
      Write(disk.(saved := Some(s')));
      r := Some(s');
    }

    /** The mock answers with what the application had answered, and with its hash. */
    ghost predicate MockOk(m: Mock)
      reads this
    {
      && disk.appCount == |disk.store| && m.appHash == w.hash(disk.appState)
      && HeightOf(w, |disk.store|) in disk.responses && m.responses == disk.responses[HeightOf(w, |disk.store|)]
    }

    /** The durable half of `finalizeAppend`: save the block, then apply it. */
    method FinalizeAppend(b: Block) returns (ok: bool)
      requires Synced() && b == w.block(|disk.store| + 1) && ValidBlock(w, disk.saved.value, b)
      modifies this
      ensures old(trace) <= trace && TraceOk(|old(trace)|) && Coherent(w, disk)
      ensures disk.store == old(disk).store + [b]
      ensures ok <==> Applies(w, |disk.store|)
      ensures ok ==> Synced() && executed == old(executed) + [|disk.store|]
    {
      hide Coherent, StateAt, AppAt, Applies, ValidBlock;
      InSightOf(w, disk);
      SaveBlockKeeps(w, disk, b);
      Write(disk.(store := disk.store + [b]));
      var r := ApplyBlock(disk.saved.value, b, None);
      ok := r.Some?;
      if ok { StateCount(w, |disk.store|); }
    }

    /** The process and the application die and come back with what they had made durable. */
    method Restart()
      modifies this`working
      ensures working == disk.appState
    {
      working := disk.appState;
    }

    /** The application is restored from an older snapshot of its own. */
    method RollBack(k: nat)
      requires Coherent(w, disk) && k <= disk.appCount
      modifies this`disk, this`working
      ensures Coherent(w, disk) && disk == old(disk).(appCount := k, appState := AppAt(w, k))
      ensures working == disk.appState
    {
      RollBackKeeps(w, disk, k);
      disk := disk.(appCount := k, appState := AppAt(w, k));
      working := disk.appState;
    }

    /** Run the next stored block on the application; its header carries the hash the application is at. */
    method ReplayNext(appHash: Bytes) returns (hash: Bytes)
      requires Coherent(w, disk) && disk.appCount < SavedCount(w, disk) && working == AppAt(w, disk.appCount)
      requires appHash == [] || (disk.appCount > 0 && appHash == w.hash(working))
      modifies this
      ensures trace == old(trace) + [disk] && Coherent(w, disk)
      ensures disk == old(disk).(appCount := old(disk).appCount + 1, appState := working)
      ensures working == AppAt(w, disk.appCount) && hash == w.hash(working)
      ensures executed == old(executed) + [disk.appCount]
    {
      hide Coherent, AppAt, StateAt, Applies, ResponsesAt;
      InSightOf(w, disk);
      StoredBlock(w, disk, disk.appCount + 1);
      ExecNext(w, disk.appCount + 1);
      CommitAppKeeps(w, disk);
      var b := disk.store[disk.appCount];
      if |appHash| > 0 && appHash != b.appHash { assert false; }
      var _ := Exec(b);
      hash := CommitApp();
    }

    /** The loop of `replayBlocks`: run the stored blocks the application has missed, up to the saved state. */
    method CatchUp() returns (appHash: Bytes)
      requires Coherent(w, disk) && disk.appCount < SavedCount(w, disk)
      requires working == AppAt(w, disk.appCount)
      modifies this
      ensures old(trace) <= trace && TraceOk(|old(trace)|) && Coherent(w, disk)
      ensures disk == old(disk).(appCount := disk.appCount, appState := disk.appState)
      ensures disk.appCount == SavedCount(w, disk) && working == AppAt(w, disk.appCount)
      ensures executed == old(executed) + Heights(old(disk.appCount), disk.appCount)
      ensures appHash == w.hash(working)
    {
      hide Coherent, AppAt;
      appHash := [];
      var i := disk.appCount + 1;
      var last := SavedCount(w, disk);
      while i <= last
        invariant old(disk.appCount) + 1 <= i <= last + 1 && i == disk.appCount + 1
        invariant disk == old(disk).(appCount := disk.appCount, appState := disk.appState)
        invariant Coherent(w, disk) && working == AppAt(w, disk.appCount)
        invariant old(trace) <= trace && TraceOk(|old(trace)|)
        invariant executed == old(executed) + Heights(old(disk.appCount), i - 1)
        invariant i == old(disk.appCount) + 1 ==> appHash == []
        invariant i > old(disk.appCount) + 1 ==> appHash == w.hash(working)
      {
        appHash := ReplayNext(appHash);
        i := i + 1;
      }
    }

    /** The first half of `ReplayBlocks`: an application without blocks is sent InitChain, and the genesis
        state takes over its answer. */
    method InitApplication() returns (state: State, appHash: Bytes, ok: bool)
      requires Coherent(w, disk) && (disk.appCount > 0 ==> working == disk.appState)
      modifies this`disk, this`working, this`trace
      ensures old(trace) <= trace && TraceOk(|old(trace)|) && Coherent(w, disk)
      ensures disk == old(disk).(saved := disk.saved) && (SavedCount(w, disk) == old(SavedCount(w, disk)))
      ensures ok <==> !NeedsInit(w, old(disk)) || InitOk(w)
      ensures ok ==> disk.saved == Some(state) && working == AppAt(w, disk.appCount)
      ensures ok ==> appHash == if disk.appCount == 0 then w.initResponse.appHash else w.hash(working)
      ensures ok && NeedsInit(w, old(disk)) ==>
                TakesOver(w.initResponse, w.emptyResults, if old(disk).saved.Some? then old(disk).saved.value else w.genesis, state)
      ensures !NeedsInit(w, old(disk)) ==> disk == old(disk)
    {
      ok := true;
      appHash := w.hash(disk.appState);
      state := if disk.saved.Some? then disk.saved.value else w.genesis;
      InSightOf(w, disk);
      StartOfChain(w);
      hide Coherent, AppAt, StateAt, Applies, ResponsesAt, Initialised;
      if disk.appCount == 0 {
        working := w.initApp;
        appHash := w.initResponse.appHash;
        if state.height == 0 {
          if w.initResponse.content.None? && !w.genesisHasValidators { return state, appHash, false; }
          InitKeeps(w, disk);
          StateCount(w, 0);
          InitTakesOver(w, state);
          state := Initialised(w, state);
          Write(disk.(saved := Some(state)));
        }
      }
    }

    /** `ReplayBlocks`. Whatever a crash left, the node and the application end where an uninterrupted run
        would be, each missing block having been run on the application once and in order; except that the
        first block of a chain that starts above height 1 is never recovered, a last block whose validator
        updates are refused fails again, and so does a genesis that names no validators or the wrong hash. */
    method ReplayBlocks() returns (r: Outcome)
      requires Coherent(w, disk) && (disk.appCount > 0 ==> working == disk.appState)
      modifies this
      ensures old(trace) <= trace && TraceOk(|old(trace)|) && Coherent(w, disk) && disk.store == old(disk).store
      ensures executed == old(executed) + Heights(old(disk.appCount), disk.appCount)
      ensures r.Done? ==> Synced() && r.appHash == StateAt(w, |disk.store|).appHash
      ensures r.Failed? <==>
                || (NeedsInit(w, old(disk)) && !InitOk(w))
                || (disk.store != [] && !Stuck(w, old(disk)) && !Applies(w, |disk.store|))
      ensures r.Panicked? <==>
                && !(NeedsInit(w, old(disk)) && !InitOk(w))
                && (Stuck(w, old(disk)) || (disk.store == [] && HashMismatch(w)))
    {
      hide Coherent, AppAt, StateAt, Applies;
      InSightOf(w, disk);
      var state, appHash, ok := InitApplication();
      if !ok { return Failed; }
      r := Repair(state, appHash);
    }

    /** The second half of `ReplayBlocks`: the case analysis on the three heights. */
    method Repair(state: State, hash: Bytes) returns (r: Outcome)
      requires Coherent(w, disk) && disk.saved == Some(state) && working == AppAt(w, disk.appCount)
      requires hash == if disk.appCount == 0 then w.initResponse.appHash else w.hash(working)
      modifies this
      ensures old(trace) <= trace && TraceOk(|old(trace)|) && Coherent(w, disk) && disk.store == old(disk).store
      ensures executed == old(executed) + Heights(old(disk.appCount), disk.appCount)
      ensures r.Done? ==> Synced() && r.appHash == StateAt(w, |disk.store|).appHash
      ensures r.Failed? <==> disk.store != [] && !Stuck(w, old(disk)) && !Applies(w, |disk.store|)
      ensures r.Panicked? <==> Stuck(w, old(disk)) || (disk.store == [] && HashMismatch(w))
    {
      hide Coherent, AppAt, StateAt, Applies, ResponsesAt;
      InSightOf(w, disk);
      StartOfChain(w);
      StoreAheadIff(w, disk);
      var n := |disk.store|;
      match Choose(HeightOf(w, disk.appCount), if n == 0 then 0 else w.initial, HeightOf(w, n), state.height, w.initial) {
        case InSync =>
          if hash != state.appHash { return Panicked; }
          return Done(hash);
        case ReplayApp(mutateState) =>
          r := ReplayMissing(state, mutateState);
        case ReplayReal =>
          r := ReplayLast(state, None);
        case ReplayMock =>
          r := ReplayLast(state, Some(Mock(hash, disk.responses[HeightOf(w, n)])));
        case StoreAhead =>
          return Panicked;
        case _ =>
          assert false;
      }
    }

    /** `replayBlocks`: catch up with the saved state and, if the store is ahead of it, apply the last block. */
    method ReplayMissing(state: State, mutateState: bool) returns (r: Outcome)
      requires Coherent(w, disk) && disk.saved == Some(state) && working == AppAt(w, disk.appCount)
      requires disk.appCount < SavedCount(w, disk) && (mutateState <==> |disk.store| > SavedCount(w, disk))
      modifies this
      ensures old(trace) <= trace && TraceOk(|old(trace)|) && Coherent(w, disk) && disk.store == old(disk).store
      ensures executed == old(executed) + Heights(old(disk.appCount), disk.appCount)
      ensures r == if Applies(w, |disk.store|) then Done(StateAt(w, |disk.store|).appHash) else Failed
      ensures r.Done? ==> Synced()
    {
      hide Coherent, AppAt, StateAt, Applies, Heights;
      InSightOf(w, disk);
      SavedHash(w, disk);
      var appHash := CatchUp();
      if mutateState {
        ghost var mid := disk.appCount;
        r := ReplayLast(state, None);
        HeightsJoin(old(disk.appCount), mid, disk.appCount);
      } else {
        if appHash != state.appHash { assert false; }
        r := Done(appHash);
      }
    }

    /** `replayBlock` on the last stored block. */
    method ReplayLast(state: State, mock: Option<Mock>) returns (r: Outcome)
      requires Coherent(w, disk) && disk.saved == Some(state) && |disk.store| == SavedCount(w, disk) + 1
      requires working == AppAt(w, disk.appCount)
      requires mock.None? ==> disk.appCount == |disk.store| - 1
      requires mock.Some? ==> MockOk(mock.value)
      modifies this
      ensures old(trace) <= trace && TraceOk(|old(trace)|) && Coherent(w, disk) && disk.store == old(disk).store
      ensures executed == old(executed) + Heights(old(disk.appCount), disk.appCount)
      ensures r == if Applies(w, |disk.store|) then Done(StateAt(w, |disk.store|).appHash) else Failed
      ensures r.Done? ==> Synced()
      ensures old(disk.appCount) <= disk.appCount
      ensures mock.Some? ==>
                disk.responses == old(disk).responses[HeightOf(w, |disk.store|) := Responses([], mock.value.responses.rest)]
    {
      hide Coherent, AppAt, StateAt, Applies;
      InSightOf(w, disk);
      StateCount(w, |disk.store|);
      StoredHeight(w, disk);
      var res := ApplyBlock(state, disk.store[|disk.store| - 1], mock);
      if res.None? { return Failed; }
      r := Done(res.value.appHash);
    }
  }

  /** The handshake sends InitChain to an application that has no blocks. */
  predicate NeedsInit(w: World, d: Disk) { d.appCount == 0 && SavedCount(w, d) == 0 }

  predicate InitOk(w: World) { w.initResponse.content.Some? || w.genesisHasValidators }

  /** The application keeps silent about its hash although the genesis document fixes one. */
  predicate HashMismatch(w: World) { w.initResponse.appHash == [] && w.genesis.appHash != [] }

  lemma StartOfChain(w: World)
    ensures AppAt(w, 0) == w.initApp
    ensures w.initResponse.appHash == StateAt(w, 0).appHash <==> !HashMismatch(w)
    ensures forall n | n > 0 :: StateAt(w, n).appHash == w.hash(AppAt(w, n))
  {
  }

  lemma StateCount(w: World, n: nat)
    requires w.genesis.height == 0 && w.initial >= 1
    ensures StateAt(w, n).height == HeightOf(w, n) && CountOf(w, StateAt(w, n).height) == n
  {
  }

  lemma StoredHeight(w: World, d: Disk)
    requires Coherent(w, d) && d.store != []
    ensures d.store[|d.store| - 1].height == HeightOf(w, |d.store|)
  {
    var n := |d.store|;
    assert ValidAt(w, n);
    hide AppAt, Applies, Initialised;
    StateCount(w, n - 1);
  }

  lemma StoredBlock(w: World, d: Disk, i: int)
    requires Coherent(w, d) && 1 <= i <= |d.store|
    ensures d.store[i - 1] == w.block(i) && d.store[i - 1].appHash == StateAt(w, i - 1).appHash
    ensures i > 1 ==> d.store[i - 1].appHash == w.hash(AppAt(w, i - 1))
  {
    assert ValidAt(w, i);
  }
}
