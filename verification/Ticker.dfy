/** `consensus/ticker.go`: one timer, replaced by ticks for later steps. */
module Tickers {
  import opened Types
  import opened RoundStates
  import opened Invariants

  datatype Input = Tick(ti: TimeoutInfo) | Expire

  predicate Before(a: TimeoutInfo, b: TimeoutInfo) {
    LexLt(a.height, a.round, a.step, b.height, b.round, b.step)
  }

  predicate NotAfter(a: TimeoutInfo, b: TimeoutInfo) {
    LexLe(a.height, a.round, a.step, b.height, b.round, b.step)
  }

  /** What the consensus routine schedules: real steps of real rounds. */
  predicate WellFormed(inputs: seq<Input>) {
    forall k | 0 <= k < |inputs| && inputs[k].Tick? ::
      inputs[k].ti.height >= 0 && inputs[k].ti.round >= 0 && inputs[k].ti.step > 0
  }

  /** The latest step ticked for among the first `n` inputs; the zero value when there is none. */
  function Latest(inputs: seq<Input>, n: nat): TimeoutInfo
    requires n <= |inputs|
  {
    if n == 0 then TimeoutInfo(0, 0, 0)
    else
      var prev := Latest(inputs, n - 1);
      if inputs[n - 1].Tick? && Before(prev, inputs[n - 1].ti) then inputs[n - 1].ti else prev
  }

  /** What should be delivered: on expiry, the latest step ticked for, unless it was delivered already. */
  function Due(inputs: seq<Input>, n: nat): seq<TimeoutInfo>
    requires n <= |inputs|
  {
    if n == 0 then []
    else
      var prev := Due(inputs, n - 1);
      var latest := Latest(inputs, n - 1);
      if inputs[n - 1].Expire? && latest.step > 0 && (prev == [] || prev[|prev| - 1] != latest)
      then prev + [latest] else prev
  }

  lemma {:induction false} LatestGreatest(inputs: seq<Input>, n: nat)
    requires n <= |inputs| && WellFormed(inputs)
    ensures forall k | 0 <= k < n && inputs[k].Tick? :: NotAfter(inputs[k].ti, Latest(inputs, n))
    ensures Latest(inputs, n).step > 0 ==> exists k :: 0 <= k < n && inputs[k] == Tick(Latest(inputs, n))
    ensures Latest(inputs, n).step <= 0 ==> Latest(inputs, n) == TimeoutInfo(0, 0, 0)
  {
    if n > 0 {
      LatestGreatest(inputs, n - 1);
      if Latest(inputs, n) != Latest(inputs, n - 1) { assert inputs[n - 1] == Tick(Latest(inputs, n)); }
    }
  }

  /** Every timeout delivered was scheduled earlier, is later than all delivered before it, and is at or
      after everything scheduled by then. */
  lemma {:induction false} DeliveriesAdvance(inputs: seq<Input>, n: nat)
    requires n <= |inputs| && WellFormed(inputs)
    ensures forall i, j | 0 <= i < j < |Due(inputs, n)| :: Before(Due(inputs, n)[i], Due(inputs, n)[j])
    ensures forall j | 0 <= j < |Due(inputs, n)| ::
              && NotAfter(Due(inputs, n)[j], Latest(inputs, n))
              && exists k :: 0 <= k < n && inputs[k] == Tick(Due(inputs, n)[j])
  {
    if n > 0 {
      DeliveriesAdvance(inputs, n - 1);
      LatestGreatest(inputs, n - 1);
    }
  }

  /** `d` was ticked for among the first `n` inputs, and nothing after it was. */
  ghost predicate Greatest(inputs: seq<Input>, n: nat, d: TimeoutInfo)
    requires n <= |inputs|
  {
    && (exists k :: 0 <= k < n && inputs[k] == Tick(d))
    && (forall k | 0 <= k < n && inputs[k].Tick? :: NotAfter(inputs[k].ti, d))
  }

  /** The timer ran out after the first `m` inputs, with `d` the greatest timeout ticked for. */
  ghost predicate RunsOut(inputs: seq<Input>, m: nat, d: TimeoutInfo) {
    m < |inputs| && inputs[m].Expire? && Greatest(inputs, m, d)
  }

  lemma LatestIs(inputs: seq<Input>, n: nat, d: TimeoutInfo)
    requires n <= |inputs| && WellFormed(inputs)
    ensures Greatest(inputs, n, d) <==> Latest(inputs, n) == d && d.step > 0
  {
    LatestGreatest(inputs, n);
    if Greatest(inputs, n, d) {
      var k :| 0 <= k < n && inputs[k] == Tick(d);
      assert NotAfter(inputs[k].ti, Latest(inputs, n));
    }
  }

  /** Exactly the timeouts are due that were the greatest ticked for when the timer ran out. */
  lemma {:induction false} DueExactly(inputs: seq<Input>, n: nat)
    requires n <= |inputs| && WellFormed(inputs)
    ensures forall d :: d in Due(inputs, n) <==> exists m: nat | m < n :: RunsOut(inputs, m, d)
  {
    if n > 0 {
      DueExactly(inputs, n - 1);
      forall d ensures d in Due(inputs, n) <==> exists m: nat | m < n :: RunsOut(inputs, m, d) {
        LatestIs(inputs, n - 1, d);
        assert RunsOut(inputs, n - 1, d) <==> inputs[n - 1].Expire? && Latest(inputs, n - 1) == d && d.step > 0;
        assert d in Due(inputs, n) <==> d in Due(inputs, n - 1) || RunsOut(inputs, n - 1, d);
      }
    }
  }

  /** `timeoutRoutine` over the inputs its select loop receives: `ti` is the timeout the timer was last set
      for and `armed` says that the timer is running. It delivers exactly what is due. */
  method TimeoutRoutine(inputs: seq<Input>) returns (tocks: seq<TimeoutInfo>)
    requires WellFormed(inputs)
    ensures tocks == Due(inputs, |inputs|)
    ensures forall d :: d in tocks <==> exists m: nat :: RunsOut(inputs, m, d)
    ensures forall i, j | 0 <= i < j < |tocks| :: Before(tocks[i], tocks[j])
  {
    DueExactly(inputs, |inputs|);
    DeliveriesAdvance(inputs, |inputs|);
    tocks := [];
    var ti := TimeoutInfo(0, 0, 0);
    var armed := false;
    var k := 0;
    while k < |inputs|
      invariant 0 <= k <= |inputs|
      invariant ti == Latest(inputs, k) && tocks == Due(inputs, k)
      invariant armed <==> ti.step > 0 && (tocks == [] || tocks[|tocks| - 1] != ti)
      invariant forall j | 0 <= j < |tocks| :: NotAfter(tocks[j], ti)
      invariant ti.step > 0 || ti == TimeoutInfo(0, 0, 0)
    {
      match inputs[k] {
        case Tick(newti) =>
          if newti.height < ti.height {
          } else if newti.height == ti.height && newti.round < ti.round {
          } else if newti.height == ti.height && newti.round == ti.round && ti.step > 0 && newti.step <= ti.step {
          } else {
            ti := newti;
            armed := true;
          }
        case Expire =>
          if armed {
            tocks := tocks + [ti];
            armed := false;
          }
      }
      k := k + 1;
    }
  }
}
