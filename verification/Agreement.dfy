/** Why locking gives agreement: from the order in which votes were signed to one block per height. */
module Agreement {
  import opened Types
  import opened Power
  import opened Quorums
  import opened Invariants

  function FactsOf(log: seq<SigFact>): set<SigFact> {
    set f | f in log
  }

  predicate CommitBy(f: SigFact, key: PubKey, height: int) {
    && f.key == key && f.msg.VoteBytes? && f.msg.kind == Commit && f.msg.height == height
    && f.msg.blockID.hash != []
  }

  predicate MsgBefore(m: SignBytes, n: SignBytes) {
    && m.VoteBytes? && n.VoteBytes?
    && LexLt(m.height, m.round, StepOf(m.kind), n.height, n.round, StepOf(n.kind))
  }

  /** What a correct validator's signature owes to the signatures made before it. */
  ghost predicate EntryOk(before: seq<SigFact>, e: SigFact, w: World) {
    && e.msg.VoteBytes? && e.msg.chainID == w.chainID
    && (forall j | 0 <= j < |before| && before[j].key == e.key :: MsgBefore(before[j].msg, e.msg))
    && (e.msg.kind == Commit && e.msg.blockID.hash != [] ==>
          HasQuorum(FactsOf(before), w, Prepare, e.msg.height, e.msg.round, e.msg.blockID))
    && (e.msg.kind == Prepare ==>
          forall j | 0 <= j < |before| && CommitBy(before[j], e.key, e.msg.height)
                  && before[j].msg.blockID.hash != e.msg.blockID.hash ::
            Overruled(FactsOf(before), w, e.msg.height, before[j].msg.blockID.hash,
                      before[j].msg.round, e.msg.round))
  }

  ghost predicate Disciplined(log: seq<SigFact>, correct: set<PubKey>, w: World) {
    forall i | 0 <= i < |log| && log[i].key in correct :: EntryOk(log[..i], log[i], w)
  }

  function Faulty(w: World, height: int, correct: set<PubKey>): set<int> {
    set i | 0 <= i < |w.valsAt(height)| && w.valsAt(height)[i].pubKey !in correct
  }

  /** Faulty validators weigh less than two quorums must overlap in: 16/3 when the total is 10. */
  ghost predicate Tolerates(w: World, height: int, correct: set<PubKey>) {
    && NonNegative(w.valsAt(height))
    && Weight(w.valsAt(height), Faulty(w, height, correct)) < 2.0 * QUORUM - Total(w.valsAt(height))
  }

  ghost predicate IsQuorum(w: World, height: int, s: set<int>) { Weight(w.valsAt(height), s) >= QUORUM }

  ghost predicate ShareCorrect(w: World, height: int, correct: set<PubKey>, s: set<int>, t: set<int>) {
    exists i | 0 <= i < |w.valsAt(height)| :: i in s && i in t && w.valsAt(height)[i].pubKey in correct
  }

  /** Every two quorums have a correct validator in common. */
  ghost predicate QuorumsMeet(w: World, height: int, correct: set<PubKey>) {
    forall s, t | IsQuorum(w, height, s) && IsQuorum(w, height, t) :: ShareCorrect(w, height, correct, s, t)
  }

  lemma SharedBy(w: World, height: int, correct: set<PubKey>, s: set<int>, t: set<int>) returns (i: int)
    requires QuorumsMeet(w, height, correct) && IsQuorum(w, height, s) && IsQuorum(w, height, t)
    ensures 0 <= i < |w.valsAt(height)| && i in s && i in t && w.valsAt(height)[i].pubKey in correct
  {
    assert ShareCorrect(w, height, correct, s, t);
    i :| 0 <= i < |w.valsAt(height)| && i in s && i in t && w.valsAt(height)[i].pubKey in correct;
  }

  /** Below the bound on faulty power, every two quorums meet in a correct validator. */
  lemma ToleratedMeets(w: World, height: int, correct: set<PubKey>)
    requires Tolerates(w, height, correct)
    ensures QuorumsMeet(w, height, correct)
  {
    forall s, t | IsQuorum(w, height, s) && IsQuorum(w, height, t) ensures ShareCorrect(w, height, correct, s, t) {
      var i := QuorumsShareCorrect(w.valsAt(height), s, t, Faulty(w, height, correct));
    }
  }

  lemma FactsGrow(log: seq<SigFact>, f: SigFact)
    ensures FactsOf(log) <= FactsOf(log + [f])
  {
  }

  lemma AppendDisciplined(log: seq<SigFact>, f: SigFact, correct: set<PubKey>, w: World)
    requires Disciplined(log, correct, w) && (f.key in correct ==> EntryOk(log, f, w))
    ensures Disciplined(log + [f], correct, w)
  {
    hide EntryOk;
    var log' := log + [f];
    forall i | 0 <= i < |log'| && log'[i].key in correct ensures EntryOk(log'[..i], log'[i], w) {
      if i < |log| { assert log'[..i] == log[..i] && log'[i] == log[i]; }
      else { assert log'[..i] == log; }
    }
  }

  /** Where in the log a vote stands. */
  lemma FindEntry(log: seq<SigFact>, w: World, key: PubKey, kind: VoteType, height: int, round: int, b: BlockID)
    returns (i: nat)
    requires VotedFor(FactsOf(log), w.chainID, key, kind, height, round, b)
    ensures i < |log| && IsVote(log[i], w.chainID, key, kind, height, round, b)
  {
    var f :| f in FactsOf(log) && IsVote(f, w.chainID, key, kind, height, round, b);
    i :| 0 <= i < |log| && log[i] == f;
  }

  /** A correct validator in two quorums, with the places of its two votes. */
  lemma SharedCorrect(log: seq<SigFact>, log': seq<SigFact>, w: World, correct: set<PubKey>, height: int,
                      kind: VoteType, r: int, b: BlockID, kind': VoteType, r': int, b': BlockID)
    returns (i: nat, i': nat)
    requires QuorumsMeet(w, height, correct)
    requires HasQuorum(FactsOf(log), w, kind, height, r, b)
    requires HasQuorum(FactsOf(log'), w, kind', height, r', b')
    ensures i < |log| && i' < |log'| && log[i].key == log'[i'].key && log[i].key in correct
    ensures IsVote(log[i], w.chainID, log[i].key, kind, height, r, b)
    ensures IsVote(log'[i'], w.chainID, log[i].key, kind', height, r', b')
  {
    var v := SharedBy(w, height, correct, Voters(FactsOf(log), w, kind, height, r, b),
                      Voters(FactsOf(log'), w, kind', height, r', b'));
    i := FindEntry(log, w, w.valsAt(height)[v].pubKey, kind, height, r, b);
    i' := FindEntry(log', w, w.valsAt(height)[v].pubKey, kind', height, r', b');
  }

  /** Once a quorum has committed to `b` in round `r`, no later round ever gathers a quorum of prepares for
      a different block: the first to do so would need a correct validator that broke its lock. */
  lemma {:induction false} NoRivalMajority(log: seq<SigFact>, n: nat, w: World, correct: set<PubKey>,
                                           height: int, r: int, b: BlockID, q: int, c: BlockID)
    requires n <= |log| && Disciplined(log, correct, w) && QuorumsMeet(w, height, correct)
    requires b.hash != [] && HasQuorum(FactsOf(log), w, Commit, height, r, b)
    requires r < q && c.hash != b.hash
    ensures !HasQuorum(FactsOf(log[..n]), w, Prepare, height, q, c)
    decreases n
  {
    hide HasQuorum;
    if HasQuorum(FactsOf(log[..n]), w, Prepare, height, q, c) {
      var m, j := SharedCorrect(log[..n], log, w, correct, height, Prepare, q, c, Commit, r, b);
      assert log[..n][m] == log[m];
      assert EntryOk(log[..m], log[m], w) && EntryOk(log[..j], log[j], w);
      if j < m {
        assert log[..m][j] == log[j] && CommitBy(log[..m][j], log[m].key, height);
        var q', c' :| r < q' <= q && HasQuorum(FactsOf(log[..m]), w, Prepare, height, q', c') && c'.hash != b.hash;
        NoRivalMajority(log, m, w, correct, height, r, b, q', c');
      } else {
        assert false;
      }
    }
  }

  /** Agreement on the signatures: two blocks committed to by quorums at one height are the same block,
      whatever the rounds. */
  lemma CommitQuorumsAgree(log: seq<SigFact>, w: World, correct: set<PubKey>, height: int,
                           r: int, b: BlockID, r': int, b': BlockID)
    requires Disciplined(log, correct, w) && QuorumsMeet(w, height, correct)
    requires b.hash != [] && HasQuorum(FactsOf(log), w, Commit, height, r, b)
    requires b'.hash != [] && HasQuorum(FactsOf(log), w, Commit, height, r', b')
    ensures b.hash == b'.hash
  {
    if r == r' {
      var i, j := SharedCorrect(log, log, w, correct, height, Commit, r, b, Commit, r', b');
      assert EntryOk(log[..i], log[i], w) && EntryOk(log[..j], log[j], w);
      if i < j { assert log[..j][i] == log[i]; }
      if j < i { assert log[..i][j] == log[j]; }
    } else if r < r' {
      LaterCommitAgrees(log, w, correct, height, r, b, r', b');
    } else {
      LaterCommitAgrees(log, w, correct, height, r', b', r, b);
    }
  }

  lemma LaterCommitAgrees(log: seq<SigFact>, w: World, correct: set<PubKey>, height: int,
                          r: int, b: BlockID, r': int, b': BlockID)
    requires Disciplined(log, correct, w) && QuorumsMeet(w, height, correct) && r < r'
    requires b.hash != [] && HasQuorum(FactsOf(log), w, Commit, height, r, b)
    requires b'.hash != [] && HasQuorum(FactsOf(log), w, Commit, height, r', b')
    ensures b.hash == b'.hash
  {
    if b.hash != b'.hash {
      var i, _ := SharedCorrect(log, log, w, correct, height, Commit, r', b', Commit, r', b');
      assert EntryOk(log[..i], log[i], w);
      NoRivalMajority(log, i, w, correct, height, r, b, r', b');
    }
  }
}
