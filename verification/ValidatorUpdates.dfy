/** `types/validator_set.go`: merging a block's validator changes into the sorted validator list. */
module ValidatorUpdates {
  import opened Types
  import opened Power

  // ---------------------------------------------------------------- order of addresses

  /** `bytes.Compare(a, b) < 0`. */
  predicate Less(a: Bytes, b: Bytes) {
    b != [] && (a == [] || a[0] < b[0] || (a[0] == b[0] && Less(a[1..], b[1..])))
  }

  /** `a` and `b` agree on their first `k` bytes, and then `a` ends or has the smaller byte. */
  ghost predicate SmallerAt(a: Bytes, b: Bytes, k: nat) {
    k <= |a| && k < |b| && a[..k] == b[..k] && (k == |a| || a[k] < b[k])
  }

  /** Addresses are ordered byte by byte. */
  lemma {:induction false} LessIff(a: Bytes, b: Bytes)
    ensures Less(a, b) <==> exists k: nat :: SmallerAt(a, b, k)
  {
    if a == [] || b == [] || a[0] < b[0] {
      assert b != [] ==> SmallerAt(a, b, 0);
    } else if a[0] == b[0] {
      LessIff(a[1..], b[1..]);
      if Less(a, b) {
        var k: nat :| SmallerAt(a[1..], b[1..], k);
        assert a[..k + 1] == [a[0]] + a[1..][..k] && b[..k + 1] == [b[0]] + b[1..][..k];
        assert SmallerAt(a, b, k + 1);
      }
      if exists k: nat :: SmallerAt(a, b, k) {
        var k: nat :| SmallerAt(a, b, k);
        assert a[1..][..k - 1] == a[..k][1..] && b[1..][..k - 1] == b[..k][1..];
        assert SmallerAt(a[1..], b[1..], k - 1);
      }
    } else {
      forall k: nat ensures !SmallerAt(a, b, k) {
        if 0 < k <= |a| && k <= |b| { assert a[..k][0] == a[0] && b[..k][0] == b[0]; }
      }
    }
  }

  lemma {:induction false} LessIrreflexive(a: Bytes)
    ensures !Less(a, a)
  {
    if a != [] { LessIrreflexive(a[1..]); }
  }

  lemma {:induction false} LessTransitive(a: Bytes, b: Bytes, c: Bytes)
    requires Less(a, b) && Less(b, c)
    ensures Less(a, c)
  {
    if a != [] && a[0] == b[0] && b[0] == c[0] { LessTransitive(a[1..], b[1..], c[1..]); }
  }

  lemma {:induction false} LessTotal(a: Bytes, b: Bytes)
    ensures a == b || Less(a, b) || Less(b, a)
  {
    if a != [] && b != [] && a[0] == b[0] {
      LessTotal(a[1..], b[1..]);
      if a[1..] == b[1..] { assert a == [a[0]] + a[1..] && b == [b[0]] + b[1..]; }
    }
  }

  // ---------------------------------------------------------------- sorted lists

  ghost predicate Sorted(s: seq<Validator>) {
    forall i, j | 0 <= i < j < |s| :: !Less(s[j].address, s[i].address)
  }

  /** Strictly sorted, hence free of duplicate addresses. */
  ghost predicate Strict(s: seq<Validator>) {
    forall i, j | 0 <= i < j < |s| :: Less(s[i].address, s[j].address)
  }

  ghost predicate Distinct(s: seq<Validator>) {
    forall i, j | 0 <= i < j < |s| :: s[i].address != s[j].address
  }

  ghost predicate HasAddress(s: seq<Validator>, address: Bytes) {
    exists i :: 0 <= i < |s| && s[i].address == address
  }

  /** Where `v` goes in a sorted list. */
  function Insert(s: seq<Validator>, v: Validator): (r: seq<Validator>)
    ensures multiset(r) == multiset(s) + multiset{v}
  {
    if s == [] then [v]
    else if Less(s[0].address, v.address) then
      assert s == [s[0]] + s[1..];
      [s[0]] + Insert(s[1..], v)
    else [v] + s
  }

  /** `sort.Sort(ValidatorsByAddress(s))`. */
  function Sort(s: seq<Validator>): (r: seq<Validator>)
    ensures multiset(r) == multiset(s)
  {
    if s == [] then [] else
      assert s == [s[0]] + s[1..];
      Insert(Sort(s[1..]), s[0])
  }

  lemma {:induction false} InsertSorted(s: seq<Validator>, v: Validator)
    requires Sorted(s)
    ensures Sorted(Insert(s, v))
  {
    if s != [] {
      var r := Insert(s, v);
      if Less(s[0].address, v.address) {
        InsertSorted(s[1..], v);
        forall j | 1 <= j < |r| ensures !Less(r[j].address, s[0].address) {
          assert r[j] == r[1..][j - 1] && r[j] in multiset(r[1..]);
          if Less(v.address, s[0].address) {
            LessTransitive(s[0].address, v.address, s[0].address);
            LessIrreflexive(s[0].address);
          }
          assert r[j] == v || r[j] in multiset(s[1..]);
        }
      } else {
        forall j | 0 <= j < |s| ensures !Less(s[j].address, v.address) {
          if Less(s[j].address, v.address) {
            LessTotal(s[0].address, v.address);
            if Less(v.address, s[0].address) { LessTransitive(s[j].address, v.address, s[0].address); }
          }
        }
      }
    }
  }

  lemma {:induction false} SortSorted(s: seq<Validator>)
    ensures Sorted(Sort(s))
  {
    if s != [] {
      SortSorted(s[1..]);
      InsertSorted(Sort(s[1..]), s[0]);
    }
  }

  /** Strictly sorted lists with the same members are the same list. */
  lemma {:induction false} StrictUnique(s: seq<Validator>, t: seq<Validator>)
    requires Strict(s) && Strict(t) && forall v :: v in s <==> v in t
    ensures s == t
  {
    if s == [] {
      Inhabited(t);
    } else {
      assert s[0] in t && (t != [] ==> t[0] in s);
      FirstAgrees(s, t);
      forall v ensures v in s[1..] <==> v in t[1..] {
        LessIrreflexive(s[0].address);
        if v in s[1..] { assert v != s[0] && v in t; }
        if v in t[1..] { assert v != t[0] && v in s; }
      }
      StrictUnique(s[1..], t[1..]);
    }
  }

  lemma FirstAgrees(s: seq<Validator>, t: seq<Validator>)
    requires Strict(s) && Strict(t) && s != [] && t != [] && s[0] in t && t[0] in s
    ensures s[0] == t[0]
  {
    if s[0] != t[0] {
      LessTransitive(s[0].address, t[0].address, s[0].address);
      LessIrreflexive(s[0].address);
    }
  }

  // ---------------------------------------------------------------- processChanges

  /** The changes of one block are acceptable: no address twice, none empty, no negative power. */
  ghost predicate Acceptable(changes: seq<Validator>) {
    && Distinct(changes)
    && forall v | v in changes :: v.address != [] && v.power >= 0.0
  }

  lemma SortedDistinct(s: seq<Validator>, t: seq<Validator>)
    requires Sorted(s) && multiset(s) == multiset(t)
    ensures Distinct(t) <==> Strict(s)
  {
    if Strict(s) { StrictDistinct(s); PermutationDistinct(s, t); }
    if Distinct(t) {
      PermutationDistinct(t, s);
      forall i, j | 0 <= i < j < |s| ensures Less(s[i].address, s[j].address) {
        LessTotal(s[i].address, s[j].address);
      }
    }
  }

  lemma StrictDistinct(s: seq<Validator>)
    requires Strict(s)
    ensures Distinct(s)
  {
    forall i, j | 0 <= i < j < |s| ensures s[i].address != s[j].address { LessIrreflexive(s[i].address); }
  }

  lemma PermutationDistinct(s: seq<Validator>, t: seq<Validator>)
    requires Distinct(s) && multiset(s) == multiset(t)
    ensures Distinct(t)
  {
    forall i, j | 0 <= i < j < |t| ensures t[i].address != t[j].address {
      if t[i].address == t[j].address {
        assert t[i] in multiset(s) && t[j] in multiset(s);
        var p, q :| 0 <= p < |s| && s[p] == t[i] && 0 <= q < |s| && s[q] == t[j];
        assert p == q;
        Twice(t, i, j);
        OnlyOnce(s, p);
      }
    }
  }

  lemma Twice(t: seq<Validator>, i: nat, j: nat)
    requires i < j < |t| && t[i] == t[j]
    ensures multiset(t)[t[i]] >= 2
  {
    assert t == t[..i] + [t[i]] + t[i + 1..j] + [t[j]] + t[j + 1..];
  }

  lemma OnlyOnce(s: seq<Validator>, p: nat)
    requires Distinct(s) && p < |s|
    ensures multiset(s)[s[p]] == 1
  {
    assert s == s[..p] + [s[p]] + s[p + 1..];
    assert s[p] !in s[..p] && s[p] !in s[p + 1..];
  }

  /** `processChanges`: succeeds exactly on acceptable changes, and sorts them. */
  method ProcessChanges(origChanges: seq<Validator>) returns (r: Option<seq<Validator>>)
    ensures r.Some? <==> Acceptable(origChanges)
    ensures r.Some? ==> Strict(r.value) && multiset(r.value) == multiset(origChanges)
  {
    hide Sort, Less, Strict, Sorted, Distinct, HasAddress, Acceptable;
    var changes := Sort(origChanges);
    SortSorted(origChanges);
    AcceptableSorted(changes, origChanges);
    StrictNone(changes);
    var updates := [];
    var prevAddr: Bytes := [];
    var k := 0;
    while k < |changes|
      invariant 0 <= k <= |changes| && updates == changes[..k]
      invariant prevAddr == if k == 0 then [] else changes[k - 1].address
      invariant forall i | 0 <= i < k :: changes[i].address != [] && changes[i].power >= 0.0
      invariant Strict(changes[..k])
    {
      var u := changes[k];
      if u.address == prevAddr {
        if k > 0 { Adjacent(changes, k); }
        return None;
      }
      if u.power < 0.0 { return None; }
      ExtendStrict(changes, k);
      updates := updates + [u];
      prevAddr := u.address;
      k := k + 1;
    }
    assert changes[..k] == changes;
    r := Some(updates);
  }

  /** Whether changes are acceptable can be read off them in order. */
  lemma AcceptableSorted(s: seq<Validator>, changes: seq<Validator>)
    requires Sorted(s) && multiset(s) == multiset(changes)
    ensures Acceptable(changes) <==> Strict(s) && forall i | 0 <= i < |s| :: s[i].address != [] && s[i].power >= 0.0
  {
    hide Sorted, Strict, Distinct;
    SortedDistinct(s, changes);
    SameMembers(s, changes);
    forall i | 0 <= i < |s| ensures s[i] in changes {
      assert s[i] in s;
    }
    forall v | v in changes ensures exists i :: 0 <= i < |s| && s[i] == v {
      assert v in s;
    }
  }

  lemma StrictNone(s: seq<Validator>)
    ensures Strict(s[..0])
  {
  }

  lemma Adjacent(s: seq<Validator>, k: nat)
    requires 0 < k < |s| && s[k].address == s[k - 1].address
    ensures !Strict(s)
  {
    LessIrreflexive(s[k].address);
    assert !Less(s[k - 1].address, s[k].address);
  }

  lemma ExtendStrict(s: seq<Validator>, k: nat)
    requires Sorted(s) && k < |s| && Strict(s[..k])
    requires s[k].address != if k == 0 then [] else s[k - 1].address
    ensures Strict(s[..k + 1])
    ensures s[k].address != []
  {
    if k > 0 {
      LessTotal(s[k - 1].address, s[k].address);
      forall i | 0 <= i < k ensures Less(s[i].address, s[k].address) {
        if i < k - 1 { LessTransitive(s[..k][i].address, s[..k][k - 1].address, s[k].address); }
      }
    }
  }

  // ---------------------------------------------------------------- applyUpdates

  /** Merge two sorted lists; at equal addresses the update wins. */
  function Merge(existing: seq<Validator>, updates: seq<Validator>): seq<Validator>
    decreases |existing| + |updates|
  {
    if existing == [] then updates
    else if updates == [] then existing
    else if Less(existing[0].address, updates[0].address) then [existing[0]] + Merge(existing[1..], updates)
    else [updates[0]] + Merge(if existing[0].address == updates[0].address then existing[1..] else existing, updates[1..])
  }

  /** Every address strictly above `a`. */
  ghost predicate Above(s: seq<Validator>, a: Bytes) {
    forall i | 0 <= i < |s| :: Less(a, s[i].address)
  }

  lemma {:induction false} MergeAbove(existing: seq<Validator>, updates: seq<Validator>, a: Bytes)
    requires Above(existing, a) && Above(updates, a)
    ensures Above(Merge(existing, updates), a)
    decreases |existing| + |updates|
  {
    if existing == [] || updates == [] {
    } else if Less(existing[0].address, updates[0].address) {
      MergeAbove(existing[1..], updates, a);
    } else {
      MergeAbove(if existing[0].address == updates[0].address then existing[1..] else existing, updates[1..], a);
    }
  }

  lemma AboveTail(s: seq<Validator>, a: Bytes)
    requires Strict(s) && s != [] && (a == s[0].address || Less(a, s[0].address))
    ensures Above(s[1..], a) && (Less(a, s[0].address) ==> Above(s, a))
  {
    forall i | 1 <= i < |s| ensures Less(a, s[i].address) {
      if a != s[0].address { LessTransitive(a, s[0].address, s[i].address); }
    }
  }

  lemma {:induction false} MergeStrict(existing: seq<Validator>, updates: seq<Validator>)
    requires Strict(existing) && Strict(updates)
    ensures Strict(Merge(existing, updates))
    decreases |existing| + |updates|
  {
    if existing == [] || updates == [] {
    } else if Less(existing[0].address, updates[0].address) {
      var a := existing[0].address;
      AboveTail(existing, a);
      AboveTail(updates, a);
      MergeAbove(existing[1..], updates, a);
      MergeStrict(existing[1..], updates);
    } else {
      var a := updates[0].address;
      LessTotal(a, existing[0].address);
      var rest := if existing[0].address == a then existing[1..] else existing;
      AboveTail(existing, a);
      AboveTail(updates, a);
      MergeAbove(rest, updates[1..], a);
      MergeStrict(rest, updates[1..]);
    }
  }

  ghost predicate Overrides(existing: seq<Validator>, updates: seq<Validator>, v: Validator) {
    v in updates || (v in existing && !HasAddress(updates, v.address))
  }

  /** The merged list is the override of the existing validators by the updates, keyed by address. */
  lemma {:induction false} MergeOverrides(existing: seq<Validator>, updates: seq<Validator>, v: Validator)
    requires Strict(existing) && Strict(updates)
    ensures v in Merge(existing, updates) <==> Overrides(existing, updates, v)
    decreases |existing| + |updates|
  {
    if existing == [] {
    } else if updates == [] {
      assert !HasAddress(updates, v.address);
    } else if Less(existing[0].address, updates[0].address) {
      MergeOverrides(existing[1..], updates, v);
      AboveTail(updates, existing[0].address);
      LessIrreflexive(existing[0].address);
      assert !HasAddress(updates, existing[0].address);
    } else {
      var a := updates[0].address;
      LessTotal(a, existing[0].address);
      var rest := if existing[0].address == a then existing[1..] else existing;
      MergeOverrides(rest, updates[1..], v);
      AboveTail(existing, a);
      LessIrreflexive(a);
      assert v in rest ==> v.address != a;
      HasAddressSplit(updates, v.address);
      if v in existing && v !in rest { assert v.address == a && HasAddress(updates, a); }
    }
  }

  lemma HasAddressSplit(s: seq<Validator>, address: Bytes)
    requires s != []
    ensures HasAddress(s, address) <==> s[0].address == address || HasAddress(s[1..], address)
  {
    if HasAddress(s[1..], address) {
      var i :| 0 <= i < |s| - 1 && s[1..][i].address == address;
      assert s[i + 1].address == address;
    }
    if HasAddress(s, address) && s[0].address != address {
      var i :| 0 <= i < |s| && s[i].address == address;
      assert s[1..][i - 1].address == address;
    }
  }

  lemma {:induction false} SortStrict(s: seq<Validator>)
    requires Strict(s)
    ensures Sort(s) == s
  {
    if s != [] {
      SortStrict(s[1..]);
      if |s| > 1 {
        if Less(s[1].address, s[0].address) {
          LessTransitive(s[0].address, s[1].address, s[0].address);
          LessIrreflexive(s[0].address);
        }
      }
    }
  }

  /** `applyUpdates` on the sorted list that a validator set always is: two shrinking slices are merged. */
  method ApplyUpdates(validators: seq<Validator>, changes: seq<Validator>) returns (merged: seq<Validator>)
    requires Strict(validators) && Strict(changes)
    ensures merged == Merge(validators, changes)
    ensures Strict(merged) && forall v :: v in merged <==> Overrides(validators, changes, v)
  {
    hide Less, Strict, Sort, Overrides;
    var existing := Sort(validators);
    SortStrict(validators);
    var updates := changes;
    merged := [];
    while |existing| > 0 && |updates| > 0
      invariant merged + Merge(existing, updates) == Merge(validators, changes)
      decreases |existing| + |updates|
    {
      if Less(existing[0].address, updates[0].address) {
        merged := merged + [existing[0]];
        existing := existing[1..];
      } else {
        merged := merged + [updates[0]];
        if existing[0].address == updates[0].address { existing := existing[1..]; }
        updates := updates[1..];
      }
    }
    merged := merged + existing + updates;
    MergeStrict(validators, changes);
    forall v ensures v in merged <==> Overrides(validators, changes, v) { MergeOverrides(validators, changes, v); }
  }

  /** `UpdateWithChangeSet` as a function of the list and the changes; `None` when the changes are refused. */
  ghost function Updated(validators: seq<Validator>, changes: seq<Validator>): Option<seq<Validator>> {
    if changes == [] then Some(validators)
    else if Acceptable(changes) then Some(Merge(validators, Sort(changes)))
    else None
  }

  /** `UpdateWithChangeSet`. */
  method UpdateWithChangeSet(validators: seq<Validator>, changes: seq<Validator>) returns (r: Option<seq<Validator>>)
    requires Strict(validators)
    ensures r == Updated(validators, changes)
    ensures r.Some? ==> Strict(r.value) && forall v :: v in r.value <==> Overrides(validators, changes, v)
  {
    if |changes| == 0 {
      assert forall a :: !HasAddress(changes, a);
      return Some(validators);
    }
    var updates := ProcessChanges(changes);
    if updates.None? { return None; }
    SortSorted(changes);
    SortedDistinct(Sort(changes), changes);
    SameMembers(updates.value, Sort(changes));
    StrictUnique(updates.value, Sort(changes));
    SameMembers(updates.value, changes);
    var merged := ApplyUpdates(validators, updates.value);
    SortStrict(merged);
    r := Some(Sort(merged));
  }

  lemma SameMembers(s: seq<Validator>, t: seq<Validator>)
    requires multiset(s) == multiset(t)
    ensures forall v :: v in s <==> v in t
    ensures forall a :: HasAddress(s, a) <==> HasAddress(t, a)
  {
    forall v ensures v in s <==> v in t { assert v in multiset(s) <==> v in multiset(t); }
    forall a ensures HasAddress(s, a) <==> HasAddress(t, a) {
      if HasAddress(s, a) { var i :| 0 <= i < |s| && s[i].address == a; assert s[i] in t; }
      if HasAddress(t, a) { var i :| 0 <= i < |t| && t[i].address == a; assert t[i] in s; }
    }
  }

  /** A validator list stays strictly sorted by address through every accepted update. */
  lemma UpdatedStrict(validators: seq<Validator>, changes: seq<Validator>)
    requires Strict(validators) && Updated(validators, changes).Some?
    ensures Strict(Updated(validators, changes).value)
    ensures forall v :: v in Updated(validators, changes).value <==> Overrides(validators, changes, v)
  {
    if changes == [] {
      assert forall a :: !HasAddress(changes, a);
    } else {
      SortSorted(changes);
      SortedDistinct(Sort(changes), changes);
      SameMembers(Sort(changes), changes);
      MergeStrict(validators, Sort(changes));
      forall v ensures v in Merge(validators, Sort(changes)) <==> Overrides(validators, changes, v) {
        MergeOverrides(validators, Sort(changes), v);
      }
    }
  }

  /** No update removes anyone: the addresses afterwards are the old ones and those of the changes. */
  lemma UpdatedAddresses(validators: seq<Validator>, changes: seq<Validator>, a: Bytes)
    requires Strict(validators) && Updated(validators, changes).Some?
    ensures HasAddress(Updated(validators, changes).value, a) <==> HasAddress(validators, a) || HasAddress(changes, a)
  {
    hide Strict, Updated;
    UpdatedStrict(validators, changes);
    var r := Updated(validators, changes).value;
    if HasAddress(r, a) {
      var i :| 0 <= i < |r| && r[i].address == a;
      assert Overrides(validators, changes, r[i]);
    }
    if HasAddress(changes, a) {
      var i :| 0 <= i < |changes| && changes[i].address == a;
      assert Overrides(validators, changes, changes[i]);
    } else if HasAddress(validators, a) {
      var i :| 0 <= i < |validators| && validators[i].address == a;
      assert Overrides(validators, changes, validators[i]);
    }
  }

  /** In particular an update to power 0, which the source's comment calls a removal, is accepted and leaves the
      validator in the list with power 0. */
  lemma ZeroPowerStays(validators: seq<Validator>, v: Validator)
    requires Strict(validators) && v.address != [] && v.power == 0.0
    ensures Updated(validators, [v]).Some? && v in Updated(validators, [v]).value
    ensures HasAddress(Updated(validators, [v]).value, v.address)
  {
    assert Acceptable([v]);
    hide Strict, Updated;
    OneUpdate(validators, v);
    UpdatedStrict(validators, [v]);
    UpdatedAddresses(validators, [v], v.address);
    assert [v][0].address == v.address;
  }

  lemma OneUpdate(validators: seq<Validator>, v: Validator)
    requires Acceptable([v])
    ensures Updated(validators, [v]).Some?
  {
  }

  // ---------------------------------------------------------------- NewValidatorSet

  lemma {:induction false} EqualShares(vals: seq<Validator>, share: real, n: nat)
    requires n <= |vals| && forall i | 0 <= i < |vals| :: vals[i].power == share
    ensures TotalBelow(vals, n) == share * n as real
  {
    if n > 0 {
      EqualShares(vals, share, n - 1);
      OneMoreShare(share, n);
    }
  }

  lemma OneMoreShare(share: real, n: nat)
    requires n > 0
    ensures share * (n - 1) as real + share == share * n as real
  {
    assert (n - 1) as real + 1.0 == n as real;
  }

  /** One of the given validators, with an equal share of the total power. */
  ghost predicate IsShare(v: Validator, valz: seq<Validator>) {
    valz != [] && v.power == TOTAL_VOTING_POWER / |valz| as real && exists u :: u in valz && v == u.(power := v.power)
  }

  /** `NewValidatorSet`; `None` stands for its panic. The genesis validators share the total power equally. */
  method NewValidatorSet(valz: seq<Validator>) returns (r: Option<seq<Validator>>)
    ensures r.Some? <==> valz == [] || Acceptable(valz)
    ensures r.Some? ==> Strict(r.value) && |r.value| == |valz|
    ensures r.Some? && valz != [] ==> Total(r.value) == TOTAL_VOTING_POWER && NonNegative(r.value)
    ensures r.Some? ==> forall a :: HasAddress(r.value, a) <==> HasAddress(valz, a)
    ensures r.Some? ==> forall i | 0 <= i < |r.value| :: IsShare(r.value[i], valz)
  {
    hide Less, Strict, Acceptable, Overrides, Merge, Sort, HasAddress, Total, NonNegative;
    var u := UpdateWithChangeSet([], valz);
    if u.None? { return None; }
    var vals := u.value;
    var i := 0;
    while i < |vals|
      invariant 0 <= i <= |vals| == |u.value|
      invariant forall j | 0 <= j < |vals| :: vals[j] == u.value[j].(power := vals[j].power)
      invariant forall j | 0 <= j < i :: vals[j].power == TOTAL_VOTING_POWER / |valz| as real
    {
      vals := vals[i := vals[i].(power := TOTAL_VOTING_POWER / |valz| as real)];
      i := i + 1;
    }
    SameAddresses(u.value, vals);
    FirstUpdate(valz);
    forall j | 0 <= j < |vals| ensures IsShare(vals[j], valz) { assert u.value[j] in valz; }
    if valz != [] { SharesAddUp(vals, |valz|); }
    r := Some(vals);
  }

  lemma SharesAddUp(vals: seq<Validator>, n: nat)
    requires n == |vals| > 0 && forall i | 0 <= i < n :: vals[i].power == TOTAL_VOTING_POWER / n as real
    ensures Total(vals) == TOTAL_VOTING_POWER && NonNegative(vals)
  {
    EqualShares(vals, TOTAL_VOTING_POWER / n as real, n);
  }

  lemma SameAddresses(s: seq<Validator>, t: seq<Validator>)
    requires |s| == |t| && Strict(s) && forall i | 0 <= i < |s| :: s[i].address == t[i].address
    ensures Strict(t) && forall a :: HasAddress(s, a) <==> HasAddress(t, a)
  {
    hide Less;
    forall a ensures HasAddress(s, a) <==> HasAddress(t, a) {
      if HasAddress(s, a) { var i :| 0 <= i < |s| && s[i].address == a; assert t[i].address == a; }
      if HasAddress(t, a) { var i :| 0 <= i < |t| && t[i].address == a; assert s[i].address == a; }
    }
  }

  lemma FirstUpdate(changes: seq<Validator>)
    requires Updated([], changes).Some?
    ensures |Updated([], changes).value| == |changes|
    ensures forall a :: HasAddress(Updated([], changes).value, a) <==> HasAddress(changes, a)
    ensures forall v :: v in Updated([], changes).value <==> v in changes
  {
    hide Less, Acceptable;
    if changes != [] {
      assert Merge([], Sort(changes)) == Sort(changes);
      assert |Sort(changes)| == |multiset(Sort(changes))| == |multiset(changes)| == |changes|;
      SameMembers(Sort(changes), changes);
    }
  }
}
