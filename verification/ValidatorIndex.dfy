/** `state/store.go`: the validator list of every height, stored only where it changes and at checkpoints. */
module ValidatorIndex {
  import opened Types
  import opened ValidatorUpdates

  const CHECKPOINT_INTERVAL: int := 100000

  /** The part of `State` that concerns validators. */
  datatype ChainState = ChainState(initialHeight: int, lastHeight: int, lastVals: seq<Validator>,
                                   vals: seq<Validator>, nextVals: seq<Validator>, lastChanged: int)

  /** `ValidatorsInfo`: the list itself is present only at some heights. */
  datatype Info = Info(lastChanged: int, vals: Option<seq<Validator>>)

  // ---------------------------------------------------------------- who is in force when

  /** A chain as far as validators go: its first height, the genesis list, and the changes each block makes. */
  datatype Chain = Chain(initial: int, genesis: seq<Validator>, changes: int -> seq<Validator>)

  /** The list in force at a height: the changes of block `H` take effect at `H + 2`. */
  ghost function InForce(c: Chain, h: int): seq<Validator>
    decreases h - c.initial
  {
    if h <= c.initial + 1 then c.genesis
    else
      var u := Updated(InForce(c, h - 1), c.changes(h - 2));
      if u.Some? then u.value else InForce(c, h - 1)
  }

  /** The last height at or before `h` at which a change took effect. */
  function LastChange(c: Chain, h: int): int
    decreases h - c.initial
  {
    if h <= c.initial + 1 then c.initial
    else if c.changes(h - 2) != [] then h
    else LastChange(c, h - 1)
  }

  ghost predicate Wellformed(c: Chain) { c.initial >= 1 && Strict(c.genesis) }

  lemma {:induction false} InForceStrict(c: Chain, h: int)
    requires Wellformed(c)
    ensures Strict(InForce(c, h))
    decreases h - c.initial
  {
    if h > c.initial + 1 {
      InForceStrict(c, h - 1);
      if Updated(InForce(c, h - 1), c.changes(h - 2)).Some? { UpdatedStrict(InForce(c, h - 1), c.changes(h - 2)); }
    }
  }

  lemma {:induction false} LastChangeBounds(c: Chain, h: int)
    requires c.initial <= h
    ensures c.initial <= LastChange(c, h) <= h
    decreases h - c.initial
  {
    if h > c.initial + 1 { LastChangeBounds(c, h - 1); }
  }

  /** Between the last change and `h` nothing changes. */
  lemma {:induction false} UnchangedSince(c: Chain, h: int, k: int)
    requires c.initial <= h && LastChange(c, h) <= k <= h
    ensures LastChange(c, k) == LastChange(c, h) && InForce(c, k) == InForce(c, h)
    decreases h - c.initial
  {
    LastChangeBounds(c, h);
    if k < h && h > c.initial + 1 && c.changes(h - 2) == [] { UnchangedSince(c, h - 1, k); }
  }

  // ---------------------------------------------------------------- the stored index

  predicate IsStored(lastChanged: int, h: int) { h == lastChanged || h % CHECKPOINT_INTERVAL == 0 }

  /** What is stored for a height. */
  ghost function InfoAt(c: Chain, h: int): Info {
    Info(LastChange(c, h), if IsStored(LastChange(c, h), h) then Some(InForce(c, h)) else None)
  }

  /** `lastStoredHeightFor`. */
  function LastStoredHeightFor(height: int, lastChanged: int): int {
    var checkpoint := height - height % CHECKPOINT_INTERVAL;
    if checkpoint > lastChanged then checkpoint else lastChanged
  }

  lemma CheckpointBelow(h: int)
    ensures h - h % CHECKPOINT_INTERVAL <= h && (h - h % CHECKPOINT_INTERVAL) % CHECKPOINT_INTERVAL == 0
  {
  }

  /** One block's changes, seen from the height they take effect at. */
  lemma TakesEffect(c: Chain, h: int)
    requires h > c.initial + 1
    ensures Updated(InForce(c, h - 1), c.changes(h - 2)).Some? ==>
              InForce(c, h) == Updated(InForce(c, h - 1), c.changes(h - 2)).value
    ensures LastChange(c, h) == if c.changes(h - 2) != [] then h else LastChange(c, h - 1)
  {
  }

  /** The height looked up instead holds a list, and it is the list in force at the height asked for. */
  lemma StoredHeightServes(c: Chain, h: int)
    requires Wellformed(c) && c.initial <= h
    ensures var k := LastStoredHeightFor(h, LastChange(c, h));
            c.initial <= k <= h && InfoAt(c, k) == Info(LastChange(c, h), Some(InForce(c, h)))
  {
    LastChangeBounds(c, h);
    var k := LastStoredHeightFor(h, LastChange(c, h));
    CheckpointBelow(h);
    UnchangedSince(c, h, k);
    hide Strict, InForce, LastChange;
  }

  /** No later height up to the one asked for holds a list, so earlier ones are not needed. */
  lemma LatestStored(c: Chain, h: int, k: int)
    requires Wellformed(c) && c.initial <= h && LastStoredHeightFor(h, LastChange(c, h)) < k <= h
    ensures InfoAt(c, k).vals == None
  {
    LastChangeBounds(c, h);
    UnchangedSince(c, h, k);
    BetweenCheckpoints(h, k);
    hide Strict, InForce, LastChange;
  }

  lemma BetweenCheckpoints(h: int, k: int)
    requires h - h % CHECKPOINT_INTERVAL < k <= h
    ensures k % CHECKPOINT_INTERVAL != 0
  {
  }

  /** The height of the block that comes next. */
  function NextHeight(s: ChainState): int { if s.lastHeight == 0 then s.initialHeight else s.lastHeight + 1 }

  /** The state is the chain's state before its next block. */
  ghost predicate Represents(c: Chain, s: ChainState) {
    && Wellformed(c) && s.initialHeight == c.initial && (s.lastHeight == 0 || c.initial <= s.lastHeight)
    && s.vals == InForce(c, NextHeight(s))
    && s.nextVals == InForce(c, NextHeight(s) + 1)
    && s.lastChanged == LastChange(c, NextHeight(s) + 1)
    && s.lastVals == if s.lastHeight == 0 then [] else InForce(c, s.lastHeight)
  }

  /** `MakeGenesisState`. */
  method GenesisState(initial: int, genesis: seq<Validator>, ghost changes: int -> seq<Validator>) returns (s: ChainState)
    requires initial >= 1 && Strict(genesis)
    ensures Represents(Chain(initial, genesis, changes), s) && s.lastHeight == 0
  {
    s := ChainState(initial, 0, [], genesis, genesis, initial);
  }

  /** The state one block later. */
  ghost function Successor(s: ChainState, changes: seq<Validator>): Option<ChainState> {
    var u := Updated(s.nextVals, changes);
    if u.None? then None
    else Some(ChainState(s.initialHeight, NextHeight(s), s.vals, s.nextVals, u.value,
                         if changes != [] then NextHeight(s) + 2 else s.lastChanged))
  }

  lemma SuccessorExists(s: ChainState, changes: seq<Validator>)
    ensures Successor(s, changes).Some? <==> changes == [] || Acceptable(changes)
    ensures changes == [] ==> Updated(s.nextVals, changes) == Some(s.nextVals)
  {
    hide Strict, Acceptable;
  }

  lemma SuccessorRepresents(c: Chain, s: ChainState, changes: seq<Validator>)
    requires Represents(c, s) && changes == c.changes(NextHeight(s)) && Successor(s, changes).Some?
    ensures Represents(c, Successor(s, changes).value)
  {
    hide Strict, Acceptable, InForce, LastChange, Updated;
    var h := NextHeight(s) + 2;
    TakesEffect(c, h);
    assert c.changes(h - 2) == changes && InForce(c, h - 1) == s.nextVals;
    assert NextHeight(Successor(s, changes).value) == h - 1;
  }

  /** `updateState` for the next block: on success the state represents the same chain one block later; it
      fails exactly when the block's changes are refused. */
  method UpdateState(ghost c: Chain, s: ChainState, changes: seq<Validator>) returns (r: Option<ChainState>)
    requires Represents(c, s) && changes == c.changes(NextHeight(s))
    ensures r == Successor(s, changes)
    ensures r.Some? <==> changes == [] || Acceptable(changes)
    ensures r.Some? ==> Represents(c, r.value) && r.value.lastHeight == NextHeight(s)
  {
    hide Strict, Acceptable, Overrides, InForce, LastChange, Updated;
    SuccessorExists(s, changes);
    if Successor(s, changes).Some? { SuccessorRepresents(c, s, changes); }
    InForceStrict(c, NextHeight(s) + 1);
    var height := NextHeight(s);
    var nextVals := s.nextVals;
    var lastChanged := s.lastChanged;
    if |changes| > 0 {
      var u := UpdateWithChangeSet(s.nextVals, changes);
      if u.None? { return None; }
      nextVals := u.value;
      lastChanged := height + 1 + 1;
    }
    r := Some(ChainState(s.initialHeight, height, s.vals, s.nextVals, nextVals, lastChanged));
  }

  lemma FirstHeights(c: Chain)
    ensures LastChange(c, c.initial) == c.initial
  {
  }

  class StateStore {
    var infos: map<int, Info>
    var saved: Option<ChainState>

    constructor ()
      ensures infos == map[] && saved == None
    {
      infos := map[];
      saved := None;
    }

    ghost predicate Indexed(c: Chain, top: int)
      reads this
    {
      forall h | c.initial <= h <= top :: h in infos && infos[h] == InfoAt(c, h)
    }

    /** `saveValidatorsInfo`. */
    method SaveValidatorsInfo(height: int, lastChanged: int, vals: seq<Validator>) returns (ok: bool)
      modifies this`infos
      ensures ok <==> lastChanged <= height
      ensures infos == if ok then old(infos)[height := Info(lastChanged,
                                    if IsStored(lastChanged, height) then Some(vals) else None)] else old(infos)
    {
      if lastChanged > height { return false; }
      var info := Info(lastChanged, None);
      if height == lastChanged || height % CHECKPOINT_INTERVAL == 0 { info := info.(vals := Some(vals)); }
      infos := infos[height := info];
      ok := true;
    }

    /** `save`: from genesis on, consecutive saves never fail and extend the index by one height. */
    method Save(ghost c: Chain, s: ChainState) returns (ok: bool)
      requires Represents(c, s) && (s.lastHeight == 0 || Indexed(c, NextHeight(s)))
      modifies this
      ensures ok && saved == Some(s) && Indexed(c, NextHeight(s) + 1)
    {
      hide Strict, LastChange, InForce;
      LastChangeBounds(c, NextHeight(s) + 1);
      FirstHeights(c);
      var nextHeight := s.lastHeight + 1;
      if nextHeight == 1 {
        nextHeight := s.initialHeight;
        ok := SaveValidatorsInfo(nextHeight, nextHeight, s.vals);
        if !ok { assert false; }
      }
      assert Indexed(c, nextHeight);
      ok := SaveValidatorsInfo(nextHeight + 1, s.lastChanged, s.nextVals);
      if !ok { assert false; }
      saved := Some(s);
    }

    /** `LoadValidators`: at every saved height, exactly the list in force there. An empty list is reported as
        an error, as is a height that was never saved. */
    method LoadValidators(ghost c: Chain, ghost top: int, height: int) returns (r: Option<seq<Validator>>)
      requires Wellformed(c) && Indexed(c, top)
      ensures c.initial <= height <= top ==>
                r == if InForce(c, height) == [] then None else Some(InForce(c, height))
      ensures height !in infos ==> r == None
    {
      if height !in infos { return None; }
      var info := infos[height];
      ghost var within := c.initial <= height <= top;
      if within { StoredHeightServes(c, height); }
      hide Strict, LastChange, InForce;
      if info.vals.None? {
        var k := LastStoredHeightFor(height, info.lastChanged);
        if k !in infos || infos[k].vals.None? { return None; }
        info := infos[k];
      }
      if info.vals.value == [] { return None; }
      r := info.vals;
    }
  }
}
