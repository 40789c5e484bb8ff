/** `types/priv_validator.go`: the signer that persists what it signs before it releases it. */
module Signers {
  import opened Types

  const NONE_STEP: int := 0
  const PRE_PREPARE_STEP: int := 1
  const PREPARE_STEP: int := 2
  const COMMIT_STEP: int := 3

  /** `FilePVLastSignState`: position, sign-bytes and signature of the last message signed. */
  datatype LastSign = LastSign(height: int, round: int, step: int,
                               signBytes: Option<SignBytes>, signature: Option<Bytes>)

  const NOTHING_SIGNED := LastSign(0, 0, NONE_STEP, None, None)

  datatype Proposal = Proposal(height: int, round: int, polRound: int, blockID: BlockID, time: int, signature: Bytes) {
    function SignBytes(chainID: string): SignBytes {
      ProposalBytes(chainID, height, round, polRound, blockID, time)
    }
  }

  datatype SignError = NoError | Regression | NoSignBytes | Conflict | KeyFailure | Panic

  /** What leaves the signer: sign-bytes (with the timestamp it settled on) and the signature. */
  datatype Release = Release(msg: SignBytes, signature: Bytes)

  datatype Outcome = Outcome(last: LastSign, released: Option<Release>, err: SignError)

  function SignStep(m: SignBytes): int {
    match m
    case VoteBytes(_, kind, _, _, _, _) => if kind == Prepare then PREPARE_STEP else COMMIT_STEP
    case ProposalBytes(_, _, _, _, _, _) => PRE_PREPARE_STEP
  }

  /** The message with another timestamp. */
  function AtTime(m: SignBytes, t: int): SignBytes {
    match m
    case VoteBytes(chainID, kind, height, round, blockID, _) => VoteBytes(chainID, kind, height, round, blockID, t)
    case ProposalBytes(chainID, height, round, polRound, blockID, _) =>
      ProposalBytes(chainID, height, round, polRound, blockID, t)
  }

  /** `checkVotesOnlyDifferByTimestamp` and `checkProposalsOnlyDifferByTimestamp`. */
  predicate OnlyTimeDiffers(a: SignBytes, b: SignBytes) { a == AtTime(b, a.time) }

  datatype Position = Fresh | Same | Bad(err: SignError)

  /** `CheckHRS`. */
  function CheckHRS(l: LastSign, height: int, round: int, step: int): Position {
    if l.height > height then Bad(Regression)
    else if l.height < height then Fresh
    else if l.round > round then Bad(Regression)
    else if l.round < round then Fresh
    else if l.step > step then Bad(Regression)
    else if l.step < step then Fresh
    else if l.signBytes.None? then Bad(NoSignBytes)
    else if l.signature.None? then Bad(Panic)
    else Same
  }

  /** `signVote` and `signProposal`, which differ only in the kind of message. */
  function Sign(l: LastSign, m: SignBytes, key: SignBytes -> Option<Bytes>): Outcome {
    match CheckHRS(l, m.height, m.round, SignStep(m))
    case Bad(err) => Outcome(l, None, err)
    case Same =>
      if m == l.signBytes.value || OnlyTimeDiffers(l.signBytes.value, m)
      then Outcome(l, Some(Release(l.signBytes.value, l.signature.value)), NoError)
      else if l.signBytes.value.VoteBytes? != m.VoteBytes? then Outcome(l, None, Panic)
      else Outcome(l, None, Conflict)
    case Fresh =>
      match key(m)
      case None => Outcome(l, None, KeyFailure)
      case Some(sig) =>
        Outcome(LastSign(m.height, m.round, SignStep(m), Some(m), Some(sig)), Some(Release(m, sig)), NoError)
  }

  /** What the signer answers to any message, vote or proposal. At a position after the saved one it signs, and saves
      what it signed; at an earlier one it refuses; at the same one it gives out the saved signature exactly if the
      messages agree apart from the timestamp. */
  lemma SignAnswers(l: LastSign, m: SignBytes, key: SignBytes -> Option<Bytes>)
    requires Consistent(l)
    ensures var o := Sign(l, m, key);
            var (h, r, s) := (m.height, m.round, SignStep(m));
            && (IsBefore(l, m) && key(m).Some? ==>
                  && o.err == NoError && o.released == Some(Release(m, key(m).value))
                  && o.last == LastSign(h, r, s, Some(m), key(m)))
            && (IsBefore(l, m) && key(m).None? ==> o == Outcome(l, None, KeyFailure))
            && (o.err == Regression <==> LexLt(h, r, s, l.height, l.round, l.step))
            && (o.err == Regression ==> o.last == l && o.released == None)
            && ((l.height, l.round, l.step) == (h, r, s) ==>
                  && o.last == l
                  && (o.released.Some? <==> l.signBytes.Some? && OnlyTimeDiffers(l.signBytes.value, m))
                  && (o.released.Some? ==> o.released == Some(Release(l.signBytes.value, l.signature.value)) && o.err == NoError)
                  && (o.released.None? ==> o.err != NoError))
  {
  }

  /** The saved position is before the message's. */
  predicate IsBefore(l: LastSign, m: SignBytes) { LexLt(l.height, l.round, l.step, m.height, m.round, SignStep(m)) }

  // ---------------------------------------------------------------- the object

  /** `FilePV`: `last` is in memory, `disk` is the state file, written atomically. */
  class FilePV {
    var last: LastSign
    var disk: LastSign

    ghost predicate Valid() reads this { last == disk && Consistent(last) }

    /** `GenFilePV` followed by `Save`. */
    constructor ()
      ensures Valid() && last == NOTHING_SIGNED
    {
      last := NOTHING_SIGNED;
      disk := NOTHING_SIGNED;
    }

    /** `LoadFilePV`: a restart forgets memory and reads the file. */
    method Reload()
      requires Consistent(disk)
      modifies this`last
      ensures Valid() && last == disk == old(disk)
    {
      last := disk;
    }

    /** `saveSigned`. */
    method SaveSigned(height: int, round: int, step: int, signBytes: SignBytes, sig: Bytes)
      modifies this
      ensures last == disk == LastSign(height, round, step, Some(signBytes), Some(sig))
    {
      last := LastSign(height, round, step, Some(signBytes), Some(sig));
      disk := last;
    }

    /** `signVote`: on success the vote's sign-bytes and signature are exactly the persisted pair. */
    method SignVote(chainID: string, vote: Vote, key: SignBytes -> Option<Bytes>)
      returns (signed: Vote, err: SignError)
      requires Valid()
      modifies this
      ensures Valid()
      ensures var o := Sign(old(last), vote.SignBytes(chainID), key);
              && last == o.last && err == o.err
              && (o.released.Some? ==> Release(signed.SignBytes(chainID), signed.signature) == o.released.value)
      ensures err == NoError ==>
                disk.signBytes == Some(signed.SignBytes(chainID)) && disk.signature == Some(signed.signature)
      ensures err == NoError ==> signed == vote.(time := signed.time, signature := signed.signature)
      ensures err != NoError ==> signed == vote && disk == old(disk)
      ensures err != Panic
      ensures var m := vote.SignBytes(chainID);
              old(IsBefore(last, m)) && key(m).Some? ==> err == NoError && signed == vote.(signature := key(m).value)
    {
      signed, err := vote, NoError;
      var step := if vote.kind == Prepare then PREPARE_STEP else COMMIT_STEP;
      var check := CheckHRS(last, vote.height, vote.round, step);
      if check.Bad? { return vote, check.err; }
      var signBytes := vote.SignBytes(chainID);
      if check.Same? {
        if signBytes == last.signBytes.value {
          signed := signed.(signature := last.signature.value);
        } else if OnlyTimeDiffers(last.signBytes.value, signBytes) {
          signed := signed.(time := last.signBytes.value.time, signature := last.signature.value);
        } else {
          err := Conflict;
        }
        return;
      }
      var sig := key(signBytes);
      if sig.None? { return vote, KeyFailure; }
      SaveSigned(vote.height, vote.round, step, signBytes, sig.value);
      signed := signed.(signature := sig.value);
    }

    /** `signProposal`: likewise for proposals. */
    method SignProposal(chainID: string, p: Proposal, key: SignBytes -> Option<Bytes>)
      returns (signed: Proposal, err: SignError)
      requires Valid()
      modifies this
      ensures Valid()
      ensures var o := Sign(old(last), p.SignBytes(chainID), key);
              && last == o.last && err == o.err
              && (o.released.Some? ==> Release(signed.SignBytes(chainID), signed.signature) == o.released.value)
      ensures err == NoError ==>
                disk.signBytes == Some(signed.SignBytes(chainID)) && disk.signature == Some(signed.signature)
      ensures err == NoError ==> signed == p.(time := signed.time, signature := signed.signature)
      ensures err != NoError ==> signed == p && disk == old(disk)
      ensures err != Panic
      ensures var m := p.SignBytes(chainID);
              old(IsBefore(last, m)) && key(m).Some? ==> err == NoError && signed == p.(signature := key(m).value)
    {
      signed, err := p, NoError;
      var check := CheckHRS(last, p.height, p.round, PRE_PREPARE_STEP);
      if check.Bad? { return p, check.err; }
      var signBytes := p.SignBytes(chainID);
      if check.Same? {
        if signBytes == last.signBytes.value {
          signed := signed.(signature := last.signature.value);
        } else if OnlyTimeDiffers(last.signBytes.value, signBytes) {
          signed := signed.(time := last.signBytes.value.time, signature := last.signature.value);
        } else {
          err := Conflict;
        }
        return;
      }
      var sig := key(signBytes);
      if sig.None? { return p, KeyFailure; }
      SaveSigned(p.height, p.round, PRE_PREPARE_STEP, signBytes, sig.value);
      signed := signed.(signature := sig.value);
    }
  }

  // ---------------------------------------------------------------- every run

  /** The saved position is that of the saved message, and a saved message has its signature. */
  predicate Consistent(l: LastSign) {
    && (l.signBytes.Some? <==> l.signature.Some?)
    && (l.signBytes.None? ==> l == NOTHING_SIGNED)
    && (l.signBytes.Some? ==> (l.height, l.round, l.step) == PositionOf(l.signBytes.value))
  }

  function PositionOf(m: SignBytes): (int, int, int) { (m.height, m.round, SignStep(m)) }

  predicate PlaceLe(a: (int, int, int), b: (int, int, int)) {
    LexLe(a.0, a.1, a.2, b.0, b.1, b.2)
  }

  datatype Crash = NoCrash | BeforeSave | AfterSave

  /** A request, with where the process dies while serving it, if it does; or a plain restart. Either way a
      dead process comes back by reloading the state file. */
  datatype Event = Ask(msg: SignBytes, crash: Crash) | Restart

  datatype Signer = Signer(last: LastSign, disk: LastSign, released: seq<Release>)

  const NEW_SIGNER := Signer(NOTHING_SIGNED, NOTHING_SIGNED, [])

  function Step(s: Signer, e: Event, key: SignBytes -> Option<Bytes>): Signer {
    match e
    case Restart => s.(last := s.disk)
    case Ask(m, crash) =>
      var o := Sign(s.last, m, key);
      if o.err == Panic || crash == BeforeSave then s.(last := s.disk)
      else if crash == AfterSave then s.(last := o.last, disk := o.last)
      else Signer(o.last, o.last, if o.released.Some? then s.released + [o.released.value] else s.released)
  }

  function Run(events: seq<Event>, keys: seq<SignBytes -> Option<Bytes>>): Signer
    requires |events| == |keys|
  {
    if events == [] then NEW_SIGNER
    else Step(Run(events[..|events| - 1], keys[..|keys| - 1]), events[|events| - 1], keys[|keys| - 1])
  }

  ghost predicate Safe(s: Signer) {
    && s.last == s.disk && Consistent(s.disk)
    && (s.released != [] ==> s.disk.signBytes.Some?)
    && (forall i | 0 <= i < |s.released| ::
          PlaceLe(PositionOf(s.released[i].msg), (s.disk.height, s.disk.round, s.disk.step)))
    && (forall i | 0 <= i < |s.released| && PositionOf(s.released[i].msg) == (s.disk.height, s.disk.round, s.disk.step) ::
          s.disk.signBytes == Some(s.released[i].msg) && s.disk.signature == Some(s.released[i].signature))
    && (forall i, j | 0 <= i < j < |s.released| :: PlaceLe(PositionOf(s.released[i].msg), PositionOf(s.released[j].msg)))
    && (forall i, j | 0 <= i < j < |s.released| && PositionOf(s.released[i].msg) == PositionOf(s.released[j].msg) ::
          s.released[i] == s.released[j])
  }

  function PlaceOf(l: LastSign): (int, int, int) { (l.height, l.round, l.step) }

  /** What one request does to the saved state: nothing, or a move to a strictly later position; and what is
      released is what is then saved. */
  lemma SignMoves(l: LastSign, m: SignBytes, key: SignBytes -> Option<Bytes>)
    requires Consistent(l)
    ensures var o := Sign(l, m, key);
            && o.err != Panic && Consistent(o.last)
            && (o.last == l || (o.last.signBytes.Some? && PlaceLe(PlaceOf(l), PlaceOf(o.last)) && PlaceOf(l) != PlaceOf(o.last)))
            && (o.released.Some? ==>
                  o.last.signBytes == Some(o.released.value.msg) && o.last.signature == Some(o.released.value.signature))
  {
  }

  lemma SaveKeepsSafe(s: Signer, last: LastSign)
    requires Safe(s) && Consistent(last)
    requires last == s.disk
          || (last.signBytes.Some? && PlaceLe(PlaceOf(s.disk), PlaceOf(last)) && PlaceOf(s.disk) != PlaceOf(last))
    ensures Safe(s.(last := last, disk := last))
  {
    hide PositionOf;
  }

  lemma ReleaseKeepsSafe(s: Signer, r: Release)
    requires Safe(s) && s.disk.signBytes == Some(r.msg) && s.disk.signature == Some(r.signature)
    ensures Safe(s.(released := s.released + [r]))
  {
    assert PositionOf(r.msg) == PlaceOf(s.disk);
    hide PositionOf, Consistent;
  }

  lemma StepSafe(s: Signer, e: Event, key: SignBytes -> Option<Bytes>)
    requires Safe(s)
    ensures Safe(Step(s, e, key))
    ensures e.Ask? ==> Sign(s.last, e.msg, key).err != Panic
  {
    hide Sign, Consistent, PlaceLe, PositionOf;
    if e.Ask? {
      SignMoves(s.last, e.msg, key);
      var o := Sign(s.last, e.msg, key);
      SaveKeepsSafe(s, o.last);
      if o.released.Some? { ReleaseKeepsSafe(s.(last := o.last, disk := o.last), o.released.value); }
    }
  }

  /** No double signing: in every sequence of requests, crashes and restarts, released positions never go
      back, and two releases for one height, round and step are the same message with the same signature.
      The state file always holds the position and message last released, or a later one. */
  lemma {:induction false} NoDoubleSigning(events: seq<Event>, keys: seq<SignBytes -> Option<Bytes>>, i: nat, j: nat)
    requires |events| == |keys| && i <= j < |Run(events, keys).released|
    ensures var r := Run(events, keys).released;
            && PlaceLe(PositionOf(r[i].msg), PositionOf(r[j].msg))
            && (PositionOf(r[i].msg) == PositionOf(r[j].msg) ==> r[i] == r[j])
  {
    RunSafe(events, keys);
  }

  lemma {:induction false} RunSafe(events: seq<Event>, keys: seq<SignBytes -> Option<Bytes>>)
    requires |events| == |keys|
    ensures Safe(Run(events, keys))
  {
    if events != [] {
      var n := |events| - 1;
      RunSafe(events[..n], keys[..n]);
      StepSafe(Run(events[..n], keys[..n]), events[n], keys[n]);
    }
  }

  /** Every released signature was made by the key for exactly the released sign-bytes. */
  ghost predicate Genuine(s: Signer, key: SignBytes -> Option<Bytes>) {
    && (s.disk.signBytes.Some? && s.disk.signature.Some? ==> key(s.disk.signBytes.value) == s.disk.signature)
    && forall i | 0 <= i < |s.released| :: key(s.released[i].msg) == Some(s.released[i].signature)
  }

  lemma {:induction false} ReleasesAreGenuine(events: seq<Event>, key: SignBytes -> Option<Bytes>)
    ensures Genuine(Run(events, seq(|events|, _ => key)), key)
  {
    if events != [] {
      var n := |events| - 1;
      var keys := seq(|events|, _ => key);
      assert keys[..n] == seq(n, _ => key);
      ReleasesAreGenuine(events[..n], key);
      RunSafe(events[..n], keys[..n]);
    }
  }

  // ---------------------------------------------------------------- the consensus caller

  /** `signVote` of the consensus state copies the signature back into its vote, but not the timestamp. */
  function SignedByConsensus(l: LastSign, chainID: string, vote: Vote, key: SignBytes -> Option<Bytes>): Option<Vote> {
    var o := Sign(l, vote.SignBytes(chainID), key);
    if o.released.None? then None else Some(vote.(signature := o.released.value.signature))
  }

  /** So the vote it sends carries the sign-bytes that were signed exactly when its position is new or its
      timestamp is the saved one. */
  lemma ConsensusVoteMatchesSignature(l: LastSign, chainID: string, vote: Vote, key: SignBytes -> Option<Bytes>)
    requires Consistent(l) && SignedByConsensus(l, chainID, vote, key).Some?
    ensures var sent := SignedByConsensus(l, chainID, vote, key).value;
            Sign(l, vote.SignBytes(chainID), key).released == Some(Release(sent.SignBytes(chainID), sent.signature))
            <==> (CheckHRS(l, vote.height, vote.round, SignStep(vote.SignBytes(chainID))).Same? ==>
                    l.signBytes.value.time == vote.time)
  {
  }

  /** A vote asked for again after a restart, one second later, goes out with a signature over the old time. */
  lemma ResentVoteMismatch(vote: Vote, chainID: string, sig: Bytes)
    requires vote.height > 0
    ensures var first := vote.SignBytes(chainID);
            var key := (m: SignBytes) => if m == first then Some(sig) else None;
            var s := Step(NEW_SIGNER, Ask(first, AfterSave), key);
            var again := vote.(time := vote.time + 1);
            && SignedByConsensus(s.last, chainID, again, key) == Some(again.(signature := sig))
            && key(again.SignBytes(chainID)) == None
  {
  }
}
