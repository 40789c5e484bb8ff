/** `libs/time/time.go` and `MedianTime` of `state/state.go`: the block time is a weighted median. */
module Medians {
  import opened Types
  import opened Certificates

  datatype WeightedTime = WeightedTime(time: int, weight: nat)

  /** An absent signature leaves a nil entry. */
  type Times = seq<Option<WeightedTime>>

  function WeightOf(e: Option<WeightedTime>, f: WeightedTime -> bool): nat {
    if e.Some? && f(e.value) then e.value.weight else 0
  }

  /** Total weight of the entries that satisfy `f`. */
  function WeightWhere(s: Times, f: WeightedTime -> bool): nat {
    if s == [] then 0 else WeightOf(s[0], f) + WeightWhere(s[1..], f)
  }

  function AtMost(t: int): WeightedTime -> bool { (w: WeightedTime) => w.time <= t }

  function Before(t: int): WeightedTime -> bool { (w: WeightedTime) => w.time < t }

  function Any(): WeightedTime -> bool { (w: WeightedTime) => true }

  // ---------------------------------------------------------------- sorting

  predicate Less(a: Option<WeightedTime>, b: Option<WeightedTime>) {
    a.Some? && (b.None? || a.value.time < b.value.time)
  }

  ghost predicate Sorted(s: Times) { forall i, j | 0 <= i < j < |s| :: !Less(s[j], s[i]) }

  function Insert(s: Times, e: Option<WeightedTime>): Times {
    if s == [] || !Less(s[0], e) then [e] + s else [s[0]] + Insert(s[1..], e)
  }

  function Sort(s: Times): Times { if s == [] then [] else Insert(Sort(s[1..]), s[0]) }

  lemma {:induction false} InsertSorted(s: Times, e: Option<WeightedTime>)
    requires Sorted(s)
    ensures Sorted(Insert(s, e)) && forall x :: x in Insert(s, e) <==> x == e || x in s
  {
    if s != [] && Less(s[0], e) {
      InsertSorted(s[1..], e);
      var r := Insert(s[1..], e);
      forall j | 0 <= j < |r| ensures !Less(r[j], s[0]) { assert r[j] in r; }
    }
  }

  lemma {:induction false} SortSorted(s: Times)
    ensures Sorted(Sort(s)) && forall x :: x in Sort(s) <==> x in s
  {
    if s != [] {
      SortSorted(s[1..]);
      InsertSorted(Sort(s[1..]), s[0]);
    }
  }

  lemma {:induction false} InsertWeight(s: Times, e: Option<WeightedTime>, f: WeightedTime -> bool)
    ensures WeightWhere(Insert(s, e), f) == WeightWhere(s, f) + WeightOf(e, f)
  {
    if s != [] && Less(s[0], e) {
      InsertWeight(s[1..], e, f);
      assert ([s[0]] + Insert(s[1..], e))[1..] == Insert(s[1..], e);
    } else {
      assert ([e] + s)[1..] == s;
    }
  }

  lemma {:induction false} SortWeight(s: Times, f: WeightedTime -> bool)
    ensures WeightWhere(Sort(s), f) == WeightWhere(s, f)
  {
    if s != [] {
      SortWeight(s[1..], f);
      InsertWeight(Sort(s[1..]), s[0], f);
    }
  }

  // ---------------------------------------------------------------- the median

  /** The earliest time at which the weight so far reaches the target. */
  ghost predicate IsMedian(s: Times, target: nat, t: int) {
    && (exists w :: Some(w) in s && w.time == t)
    && WeightWhere(s, AtMost(t)) >= target
    && (target > 0 ==> WeightWhere(s, Before(t)) < target)
    && (target == 0 ==> forall w | Some(w) in s :: t <= w.time)
  }

  lemma {:induction false} WeightSplit(s: Times, k: nat, f: WeightedTime -> bool)
    requires k <= |s|
    ensures WeightWhere(s, f) == WeightWhere(s[..k], f) + WeightWhere(s[k..], f)
  {
    if k > 0 {
      WeightSplit(s[1..], k - 1, f);
      assert s[..k][1..] == s[1..][..k - 1] && s[1..][k - 1..] == s[k..];
    } else {
      assert s[k..] == s;
    }
  }

  lemma {:induction false} WeightMonotone(s: Times, f: WeightedTime -> bool, g: WeightedTime -> bool)
    requires forall w | Some(w) in s && f(w) :: g(w)
    ensures WeightWhere(s, f) <= WeightWhere(s, g)
  {
    if s != [] {
      forall w | Some(w) in s[1..] && f(w) ensures g(w) { assert Some(w) in s; }
      WeightMonotone(s[1..], f, g);
      if s[0].Some? { assert Some(s[0].value) in s; }
    }
  }

  lemma {:induction false} WeightNone(s: Times, f: WeightedTime -> bool)
    requires forall w | Some(w) in s :: !f(w)
    ensures WeightWhere(s, f) == 0
  {
    if s != [] {
      forall w | Some(w) in s[1..] ensures !f(w) { assert Some(w) in s; }
      WeightNone(s[1..], f);
      if s[0].Some? { assert Some(s[0].value) in s; }
    }
  }

  /** Stopping at entry `k` of a sorted list finds the median. */
  lemma FoundMedian(s: Times, target: nat, k: nat)
    requires Sorted(s) && k < |s| && s[k].Some?
    requires WeightWhere(s[..k + 1], Any()) >= target
    requires if target == 0 then forall i | 0 <= i < k :: s[i].None? else WeightWhere(s[..k], Any()) < target
    ensures IsMedian(s, target, s[k].value.time)
  {
    var t := s[k].value.time;
    assert Some(s[k].value) in s;
    WeightSplit(s, k + 1, AtMost(t));
    WeightMonotone(s[..k + 1], Any(), AtMost(t));
    WeightSplit(s, k, Before(t));
    WeightNone(s[k..], Before(t));
    WeightMonotone(s[..k], Before(t), Any());
  }

  /** There is at most one median. */
  lemma MedianUnique(s: Times, target: nat, t: int, u: int)
    requires IsMedian(s, target, t) && IsMedian(s, target, u)
    ensures t == u
  {
    if t < u { WeightMonotone(s, AtMost(t), Before(u)); }
    if u < t { WeightMonotone(s, AtMost(u), Before(t)); }
  }

  /** `WeightedMedian`; `None` is the zero time it returns when the weights do not reach half of the total. */
  method WeightedMedian(times: Times, total: nat) returns (r: Option<int>)
    ensures r.Some? ==> IsMedian(times, total / 2, r.value)
    ensures r.None? <==> (forall i | 0 <= i < |times| :: times[i].None?) || WeightWhere(times, Any()) < total / 2
  {
    var median := total / 2;
    var s := Sort(times);
    SortSorted(times);
    SortWeight(times, Any());
    var k := 0;
    while k < |s|
      invariant 0 <= k <= |s| && 0 <= median
      invariant median == total / 2 - WeightWhere(s[..k], Any())
      invariant median == 0 ==> total / 2 == 0 && forall i | 0 <= i < k :: s[i].None?
    {
      WeightSplit(s[..k + 1], k, Any());
      assert s[..k + 1][..k] == s[..k] && s[..k + 1][k..] == [s[k]];
      if s[k].Some? {
        if median <= s[k].value.weight {
          FoundMedian(s, total / 2, k);
          SortedMedian(times, total / 2, s[k].value.time);
          WeightSplit(s, k + 1, Any());
          return Some(s[k].value.time);
        }
        median := median - s[k].value.weight;
      }
      k := k + 1;
    }
    assert s[..k] == s;
    if median == 0 {
      forall i | 0 <= i < |times| ensures times[i].None? {
        assert times[i] in s;
      }
    }
    r := None;
  }

  lemma SortedMedian(s: Times, target: nat, t: int)
    requires IsMedian(Sort(s), target, t)
    ensures IsMedian(s, target, t)
    ensures exists i :: 0 <= i < |s| && s[i].Some?
  {
    SortSorted(s);
    SortWeight(s, AtMost(t));
    SortWeight(s, Before(t));
    var w :| Some(w) in Sort(s) && w.time == t;
    assert Some(w) in s;
  }

  // ---------------------------------------------------------------- order does not matter

  function Without(t: Times, k: nat): Times
    requires k < |t|
  {
    t[..k] + t[k + 1..]
  }

  lemma WithoutWeight(t: Times, k: nat, f: WeightedTime -> bool)
    requires k < |t|
    ensures WeightWhere(t, f) == WeightOf(t[k], f) + WeightWhere(Without(t, k), f)
  {
    var rest := Without(t, k);
    WeightSplit(t, k, f);
    WeightSplit(rest, k, f);
    assert rest[..k] == t[..k] && rest[k..] == t[k + 1..] && t[k..][1..] == t[k + 1..];
  }

  lemma WithoutMembers(t: Times, k: nat)
    requires k < |t|
    ensures multiset(Without(t, k)) == multiset(t) - multiset{t[k]}
  {
    assert t == t[..k] + [t[k]] + t[k + 1..];
  }

  lemma {:induction false} WeightOfPermutation(s: Times, t: Times, f: WeightedTime -> bool)
    requires multiset(s) == multiset(t)
    ensures WeightWhere(s, f) == WeightWhere(t, f)
    decreases |s|
  {
    hide WeightOf;
    if s == [] {
      assert |multiset(t)| == 0;
    } else {
      assert s[0] in multiset(t);
      var k :| 0 <= k < |t| && t[k] == s[0];
      WithoutMembers(s, 0);
      WithoutMembers(t, k);
      assert Without(s, 0) == s[1..];
      WeightOfPermutation(s[1..], Without(t, k), f);
      WithoutWeight(t, k, f);
    }
  }

  /** The median is the same for the same entries in any order. */
  lemma MedianOrderIndependent(s: Times, t: Times, target: nat, m: int)
    requires multiset(s) == multiset(t) && IsMedian(s, target, m)
    ensures IsMedian(t, target, m)
  {
    WeightOfPermutation(s, t, AtMost(m));
    WeightOfPermutation(s, t, Before(m));
    forall e ensures e in s <==> e in t { assert e in multiset(s) <==> e in multiset(t); }
  }

  // ---------------------------------------------------------------- how far faulty votes can move it

  /** Weight of the entries at the indices in `who`. */
  function WeightAt(s: Times, who: set<int>, f: WeightedTime -> bool, n: nat): nat
    requires n <= |s|
  {
    if n == 0 then 0 else WeightAt(s, who, f, n - 1) + (if n - 1 in who then WeightOf(s[n - 1], f) else 0)
  }

  lemma {:induction false} WeightByIndex(s: Times, who: set<int>, f: WeightedTime -> bool, n: nat)
    requires n <= |s| && forall i | 0 <= i < n && s[i].Some? && f(s[i].value) :: i in who
    ensures WeightWhere(s[..n], f) == WeightAt(s, who, f, n)
  {
    if n > 0 {
      WeightByIndex(s, who, f, n - 1);
      WeightSplit(s[..n], n - 1, f);
      assert s[..n][..n - 1] == s[..n - 1] && s[..n][n - 1..] == [s[n - 1]];
    }
  }

  lemma {:induction false} WeightAtMonotone(s: Times, who: set<int>, f: WeightedTime -> bool, n: nat)
    requires n <= |s|
    ensures WeightAt(s, who, f, n) <= WeightAt(s, who, Any(), n)
  {
    if n > 0 { WeightAtMonotone(s, who, f, n - 1); }
  }

  lemma {:induction false} WeightsAddUp(s: Times, faulty: set<int>, n: nat)
    requires n <= |s|
    ensures WeightWhere(s[..n], Any()) == WeightAt(s, faulty, Any(), n) + HonestWeight(s, faulty, Any(), n)
  {
    if n > 0 {
      WeightsAddUp(s, faulty, n - 1);
      WeightSplit(s[..n], n - 1, Any());
      assert s[..n][..n - 1] == s[..n - 1] && s[..n][n - 1..] == [s[n - 1]];
    }
  }

  function HonestWeight(s: Times, faulty: set<int>, f: WeightedTime -> bool, n: nat): nat
    requires n <= |s|
  {
    if n == 0 then 0 else HonestWeight(s, faulty, f, n - 1) + (if n - 1 in faulty then 0 else WeightOf(s[n - 1], f))
  }

  lemma {:induction false} HonestWithin(s: Times, faulty: set<int>, f: WeightedTime -> bool, n: nat)
    requires n <= |s| && forall i | 0 <= i < n && i !in faulty && s[i].Some? :: f(s[i].value)
    ensures HonestWeight(s, faulty, Any(), n) <= WeightWhere(s[..n], f)
  {
    if n > 0 {
      HonestWithin(s, faulty, f, n - 1);
      WeightSplit(s[..n], n - 1, f);
      assert s[..n][..n - 1] == s[..n - 1] && s[..n][n - 1..] == [s[n - 1]];
    }
  }

  /** If the faulty entries weigh less than half of the total, rounded down, then some honest time is not after
      the median and some honest time is not before it. */
  lemma MedianBetweenHonest(s: Times, faulty: set<int>, t: int)
    requires var total := WeightWhere(s, Any());
             IsMedian(s, total / 2, t) && WeightAt(s, faulty, Any(), |s|) < total / 2
    ensures exists i :: 0 <= i < |s| && i !in faulty && s[i].Some? && s[i].value.time <= t
    ensures exists i :: 0 <= i < |s| && i !in faulty && s[i].Some? && t <= s[i].value.time
  {
    var n := |s|;
    assert s[..n] == s;
    if forall i | 0 <= i < n && i !in faulty && s[i].Some? :: t < s[i].value.time {
      WeightByIndex(s, faulty, AtMost(t), n);
      WeightAtMonotone(s, faulty, AtMost(t), n);
      assert false;
    }
    if forall i | 0 <= i < n && i !in faulty && s[i].Some? :: s[i].value.time < t {
      HonestWithin(s, faulty, Before(t), n);
      WeightsAddUp(s, faulty, n);
      assert false;
    }
  }

  lemma {:induction false} FaultyWithin(s: Times, faulty: set<int>, f: WeightedTime -> bool, n: nat)
    requires n <= |s| && forall i | 0 <= i < n && i in faulty && s[i].Some? :: f(s[i].value)
    ensures WeightAt(s, faulty, Any(), n) <= WeightWhere(s[..n], f)
  {
    if n > 0 {
      FaultyWithin(s, faulty, f, n - 1);
      WeightSplit(s[..n], n - 1, f);
      assert s[..n][..n - 1] == s[..n - 1] && s[..n][n - 1..] == [s[n - 1]];
    }
  }

  // ---------------------------------------------------------------- exactly when they cannot

  /** The same weights with other times. */
  function Timed(weights: seq<Option<nat>>, times: int -> int): (s: Times)
    ensures |s| == |weights|
    ensures forall i | 0 <= i < |s| ::
              s[i] == if weights[i].Some? then Some(WeightedTime(times(i), weights[i].value)) else None
  {
    seq(|weights|, i requires 0 <= i < |weights| =>
      if weights[i].Some? then Some(WeightedTime(times(i), weights[i].value)) else None)
  }

  function Half(weights: seq<Option<nat>>): nat { WeightWhere(Timed(weights, _ => 0), Any()) / 2 }

  /** Weight of the faulty entries, and of the others; it does not depend on the times. */
  function FaultyWeight(weights: seq<Option<nat>>, faulty: set<int>): nat {
    WeightAt(Timed(weights, _ => 0), faulty, Any(), |weights|)
  }

  function CorrectWeight(weights: seq<Option<nat>>, faulty: set<int>): nat {
    HonestWeight(Timed(weights, _ => 0), faulty, Any(), |weights|)
  }

  lemma {:induction false} TimesDoNotWeigh(s: Times, t: Times, faulty: set<int>, n: nat)
    requires n <= |s| == |t|
    requires forall i | 0 <= i < |s| :: s[i].Some? == t[i].Some? && (s[i].Some? ==> s[i].value.weight == t[i].value.weight)
    ensures WeightAt(s, faulty, Any(), n) == WeightAt(t, faulty, Any(), n)
    ensures HonestWeight(s, faulty, Any(), n) == HonestWeight(t, faulty, Any(), n)
    ensures WeightWhere(s[..n], Any()) == WeightWhere(t[..n], Any())
  {
    if n > 0 { TimesDoNotWeigh(s, t, faulty, n - 1); }
    WeightsAddUp(s, faulty, n);
    WeightsAddUp(t, faulty, n);
  }

  lemma TimedWeights(weights: seq<Option<nat>>, times: int -> int, faulty: set<int>)
    ensures var s := Timed(weights, times);
            && WeightWhere(s, Any()) / 2 == Half(weights)
            && WeightAt(s, faulty, Any(), |s|) == FaultyWeight(weights, faulty)
            && HonestWeight(s, faulty, Any(), |s|) == CorrectWeight(weights, faulty)
            && WeightWhere(s, Any()) == FaultyWeight(weights, faulty) + CorrectWeight(weights, faulty)
  {
    var s, z := Timed(weights, times), Timed(weights, _ => 0);
    assert s[..|s|] == s && z[..|z|] == z;
    TimesDoNotWeigh(s, z, faulty, |s|);
    WeightsAddUp(s, faulty, |s|);
  }

  ghost predicate Present(weights: seq<Option<nat>>, i: int) { 0 <= i < |weights| && weights[i].Some? }

  /** Whatever times the entries carry, the median is never earlier than every honest time. */
  ghost predicate NeverTooEarly(weights: seq<Option<nat>>, faulty: set<int>) {
    forall times: int -> int, t: int | IsMedian(Timed(weights, times), Half(weights), t) ::
      exists i :: Present(weights, i) && i !in faulty && times(i) <= t
  }

  ghost predicate NeverTooLate(weights: seq<Option<nat>>, faulty: set<int>) {
    forall times: int -> int, t: int | IsMedian(Timed(weights, times), Half(weights), t) ::
      exists i :: Present(weights, i) && i !in faulty && t <= times(i)
  }

  /** Faulty entries earlier than all honest ones are the median exactly when they weigh half of the total. */
  lemma EarlyMedian(weights: seq<Option<nat>>, faulty: set<int>, times: int -> int)
    requires times == (i => if i in faulty then 0 else 1) && FaultyWeight(weights, faulty) >= Half(weights)
    requires exists i :: Present(weights, i) && i in faulty
    ensures IsMedian(Timed(weights, times), Half(weights), 0)
  {
    var s := Timed(weights, times);
    var n := |s|;
    assert s[..n] == s;
    TimedWeights(weights, times, faulty);
    FaultyWithin(s, faulty, AtMost(0), n);
    WeightNone(s, Before(0));
    var i :| Present(weights, i) && i in faulty;
    assert s[i] in s;
  }

  /** Faulty entries later than all honest ones are the median exactly when the honest ones weigh less than half. */
  lemma LateMedian(weights: seq<Option<nat>>, faulty: set<int>, times: int -> int)
    requires times == (i => if i in faulty then 1 else 0) && CorrectWeight(weights, faulty) < Half(weights)
    ensures IsMedian(Timed(weights, times), Half(weights), 1)
  {
    var s := Timed(weights, times);
    var n := |s|;
    assert s[..n] == s;
    TimedWeights(weights, times, faulty);
    WeightMonotone(s, Any(), AtMost(1));
    BeforeIsHonest(s, faulty, n);
    if forall i | 0 <= i < n && s[i].Some? :: i !in faulty {
      NoFaulty(s, faulty, n);
      assert false;
    }
    var i :| 0 <= i < n && s[i].Some? && i in faulty;
    assert s[i] in s;
  }

  lemma {:induction false} NoFaulty(s: Times, faulty: set<int>, n: nat)
    requires n <= |s| && forall i | 0 <= i < n && s[i].Some? :: i !in faulty
    ensures WeightAt(s, faulty, Any(), n) == 0
  {
    if n > 0 { NoFaulty(s, faulty, n - 1); }
  }

  lemma {:induction false} BeforeIsHonest(s: Times, faulty: set<int>, n: nat)
    requires n <= |s| && forall i | 0 <= i < |s| && s[i].Some? :: s[i].value.time == if i in faulty then 1 else 0
    ensures WeightWhere(s[..n], Before(1)) == HonestWeight(s, faulty, Any(), n)
  {
    if n > 0 {
      BeforeIsHonest(s, faulty, n - 1);
      WeightSplit(s[..n], n - 1, Before(1));
      assert s[..n][..n - 1] == s[..n - 1] && s[..n][n - 1..] == [s[n - 1]];
    }
  }

  /** Faulty entries cannot pull the median before every honest time exactly when they weigh less than half of
      the total, rounded down, or there are none. */
  lemma NeverTooEarlyIff(weights: seq<Option<nat>>, faulty: set<int>)
    ensures NeverTooEarly(weights, faulty)
       <==> FaultyWeight(weights, faulty) < Half(weights) || !exists i :: Present(weights, i) && i in faulty
  {
    hide IsMedian;
    if FaultyWeight(weights, faulty) >= Half(weights) && exists i :: Present(weights, i) && i in faulty {
      var times: int -> int := i => if i in faulty then 0 else 1;
      EarlyMedian(weights, faulty, times);
      assert !exists i :: Present(weights, i) && i !in faulty && times(i) <= 0;
    } else {
      forall times: int -> int, t: int | IsMedian(Timed(weights, times), Half(weights), t)
        ensures exists i :: Present(weights, i) && i !in faulty && times(i) <= t
      {
        NotTooEarly(weights, faulty, times, t);
      }
    }
  }

  lemma NotTooEarly(weights: seq<Option<nat>>, faulty: set<int>, times: int -> int, t: int)
    requires IsMedian(Timed(weights, times), Half(weights), t)
    requires FaultyWeight(weights, faulty) < Half(weights) || !exists i :: Present(weights, i) && i in faulty
    ensures exists i :: Present(weights, i) && i !in faulty && times(i) <= t
  {
    var s := Timed(weights, times);
    TimedWeights(weights, times, faulty);
    if FaultyWeight(weights, faulty) < Half(weights) {
      MedianBetweenHonest(s, faulty, t);
      var i :| 0 <= i < |s| && i !in faulty && s[i].Some? && s[i].value.time <= t;
      assert Present(weights, i);
    } else {
      var w :| Some(w) in s && w.time == t;
      var i :| 0 <= i < |s| && s[i] == Some(w);
      assert Present(weights, i);
    }
  }

  /** They cannot push it after every honest time exactly when the honest ones weigh at least half. */
  lemma NeverTooLateIff(weights: seq<Option<nat>>, faulty: set<int>)
    requires exists i :: Present(weights, i) && i !in faulty
    ensures NeverTooLate(weights, faulty) <==> CorrectWeight(weights, faulty) >= Half(weights)
  {
    hide IsMedian;
    if CorrectWeight(weights, faulty) < Half(weights) {
      var times: int -> int := i => if i in faulty then 1 else 0;
      LateMedian(weights, faulty, times);
      assert !exists i :: Present(weights, i) && i !in faulty && 1 <= times(i);
    } else {
      forall times: int -> int, t: int | IsMedian(Timed(weights, times), Half(weights), t)
        ensures exists i :: Present(weights, i) && i !in faulty && t <= times(i)
      {
        NotTooLate(weights, faulty, times, t);
      }
    }
  }

  lemma NotTooLate(weights: seq<Option<nat>>, faulty: set<int>, times: int -> int, t: int)
    requires IsMedian(Timed(weights, times), Half(weights), t) && CorrectWeight(weights, faulty) >= Half(weights)
    requires exists i :: Present(weights, i) && i !in faulty
    ensures exists i :: Present(weights, i) && i !in faulty && t <= times(i)
  {
    var s := Timed(weights, times);
    var n := |s|;
    assert s[..n] == s;
    TimedWeights(weights, times, faulty);
    var i :| Present(weights, i) && i !in faulty;
    assert s[i] in s;
    if forall i | Present(weights, i) && i !in faulty :: times(i) < t {
      HonestWithin(s, faulty, Before(t), n);
      assert false;
    }
  }

  // ---------------------------------------------------------------- MedianTime

  /** The entry of one signature: the weight of a validator is the first byte of its address. */
  function EntryOf(sig: ReplySig, vals: seq<Validator>): Option<WeightedTime>
    requires forall i | 0 <= i < |vals| :: vals[i].address != []
  {
    var j := FindAddress(vals, sig.address);
    if sig.flag == FlagAbsent || j == -1 then None else Some(WeightedTime(sig.time, vals[j].address[0] as nat))
  }

  function TimesOf(reply: Reply, vals: seq<Validator>): (r: Times)
    requires forall i | 0 <= i < |vals| :: vals[i].address != []
    ensures |r| == |reply.signatures| && forall i | 0 <= i < |r| :: r[i] == EntryOf(reply.signatures[i], vals)
  {
    seq(|reply.signatures|, i requires 0 <= i < |reply.signatures| => EntryOf(reply.signatures[i], vals))
  }

  /** A signature counts unless it is absent or by nobody in the list, nil votes included; it counts with its own time
      and the first byte of its validator's address. */
  lemma SignatureCounts(sig: ReplySig, vals: seq<Validator>)
    requires forall i | 0 <= i < |vals| :: vals[i].address != []
    ensures EntryOf(sig, vals).Some? <==> sig.flag != FlagAbsent && exists i :: 0 <= i < |vals| && vals[i].address == sig.address
    ensures EntryOf(sig, vals).Some? ==>
              EntryOf(sig, vals).value.time == sig.time && sig.address != [] && EntryOf(sig, vals).value.weight == sig.address[0] as int
  {
  }

  /** `MedianTime`: the median of the present signatures' times; the zero time only if there are none. */
  method MedianTime(reply: Reply, vals: seq<Validator>) returns (r: Option<int>)
    requires forall i | 0 <= i < |vals| :: vals[i].address != []
    ensures var times := TimesOf(reply, vals);
            && (r.Some? ==> IsMedian(times, WeightWhere(times, Any()) / 2, r.value))
            && (r.None? <==> forall i | 0 <= i < |times| :: times[i].None?)
  {
    var times: Times := [];
    var total := 0;
    var i := 0;
    while i < |reply.signatures|
      invariant 0 <= i <= |reply.signatures| && times == TimesOf(reply, vals)[..i]
      invariant total == WeightWhere(times, Any())
    {
      var sig := reply.signatures[i];
      var entry: Option<WeightedTime> := None;
      if sig.flag != FlagAbsent {
        var j := FindAddress(vals, sig.address);
        if j != -1 {
          total := total + vals[j].address[0] as nat;
          entry := Some(WeightedTime(sig.time, vals[j].address[0] as nat));
        }
      }
      WeightSplit(times + [entry], i, Any());
      assert (times + [entry])[..i] == times && (times + [entry])[i..] == [entry];
      times := times + [entry];
      i := i + 1;
    }
    assert times == TimesOf(reply, vals);
    r := WeightedMedian(times, total);
  }

  /** The same validators with other voting powers. */
  ghost predicate SameButPower(vals: seq<Validator>, others: seq<Validator>) {
    |vals| == |others| && forall i | 0 <= i < |vals| :: others[i] == vals[i].(power := others[i].power)
  }

  /** Voting power does not enter the block time at all, so no bound on faulty voting power bounds it. */
  lemma PowerDoesNotMatter(reply: Reply, vals: seq<Validator>, others: seq<Validator>)
    requires SameButPower(vals, others) && forall i | 0 <= i < |vals| :: vals[i].address != []
    ensures forall i | 0 <= i < |others| :: others[i].address != []
    ensures TimesOf(reply, vals) == TimesOf(reply, others)
  {
    forall i | 0 <= i < |reply.signatures|
      ensures EntryOf(reply.signatures[i], vals) == EntryOf(reply.signatures[i], others)
    {
      SameFound(vals, others, reply.signatures[i].address);
    }
  }

  lemma SameFound(vals: seq<Validator>, others: seq<Validator>, address: Bytes)
    requires SameButPower(vals, others)
    ensures FindAddress(vals, address) == FindAddress(others, address)
  {
    var i, j := FindAddress(vals, address), FindAddress(others, address);
    if i != -1 { assert others[i].address == address; }
    if j != -1 { assert vals[j].address == address; }
  }

  /** Of two validators, the faulty one sets the block time by itself, before the honest one's, exactly when its
      first address byte is at least the other's less one, however little voting power it has. */
  lemma LittlePowerSetsTime(reply: Reply, vals: seq<Validator>, honest: int, forged: int)
    requires |vals| == |reply.signatures| == 2 && forged < honest
    requires vals[0].address != [] && vals[1].address != [] && vals[0].address != vals[1].address
    requires forall i | 0 <= i < 2 ::
               reply.signatures[i].flag == FlagCommit && reply.signatures[i].address == vals[i].address
    requires reply.signatures[0].time == honest && reply.signatures[1].time == forged
    ensures IsMedian(TimesOf(reply, vals), WeightWhere(TimesOf(reply, vals), Any()) / 2, forged)
       <==> vals[0].address[0] as int <= vals[1].address[0] as int + 1
  {
    var s := TimesOf(reply, vals);
    var a, b := WeightedTime(honest, vals[0].address[0] as nat), WeightedTime(forged, vals[1].address[0] as nat);
    assert FindAddress(vals, vals[0].address) == 0 && FindAddress(vals, vals[1].address) == 1;
    assert s == [Some(a), Some(b)];
    WeightOfTwo(a, b, Any());
    WeightOfTwo(a, b, AtMost(forged));
    WeightOfTwo(a, b, Before(forged));
    assert s[1] == Some(b);
  }

  lemma WeightOfTwo(a: WeightedTime, b: WeightedTime, f: WeightedTime -> bool)
    ensures WeightWhere([Some(a), Some(b)], f) == WeightOf(Some(a), f) + WeightOf(Some(b), f)
  {
    var s: Times := [Some(a), Some(b)];
    assert s[1..] == [Some(b)] && s[1..][1..] == [];
    assert WeightWhere(s[1..], f) == WeightOf(s[1..][0], f) + WeightWhere(s[1..][1..], f);
    assert WeightWhere(s, f) == WeightOf(s[0], f) + WeightWhere(s[1..], f);
  }
}
