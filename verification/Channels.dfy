/** `gossip/connection.go`: messages of several channels, cut into packets and interleaved on one connection. */
module Channels {
  import opened Types

  datatype Packet = Packet(eof: bool, data: Bytes)

  datatype Sender = Sender(queue: seq<Bytes>, sending: Bytes)

  /** `delivered` is what was handed to `onReceive` so far; `failed` is set by the capacity error. */
  datatype Receiver = Receiver(recving: Bytes, delivered: seq<Bytes>, failed: bool)

  // ---------------------------------------------------------------- one channel

  /** `isSendPending`: an idle channel takes the next message off its queue. */
  function Poll(s: Sender): Sender {
    if s.sending == [] && s.queue != [] then Sender(s.queue[1..], s.queue[0]) else s
  }

  predicate IsPending(s: Sender) { s.sending != [] || s.queue != [] }

  /** `nextPacketMsg`. */
  function NextPacket(sending: Bytes, maxSize: nat): (Packet, Bytes) {
    if |sending| <= maxSize then (Packet(true, sending), [])
    else (Packet(false, sending[..maxSize]), sending[maxSize..])
  }

  /** `recvPacketMsg`. */
  function Receive(r: Receiver, p: Packet, capacity: nat): Receiver {
    if capacity < |r.recving| + |p.data| then r.(failed := true)
    else if p.eof then r.(recving := [], delivered := r.delivered + [r.recving + p.data])
    else r.(recving := r.recving + p.data)
  }

  /** A counter of bytes recently sent loses a fifth every two seconds. */
  function Decayed(recent: nat): nat { recent * 4 / 5 }

  class Channel {
    const maxPayload: nat
    const capacity: nat
    const queueCapacity: nat
    var sendQueue: seq<Bytes>
    var sendQueueSize: int
    var sending: Bytes
    var recving: Bytes
    var recentlySent: nat

    function SendSide(): Sender
      reads this
    {
      Sender(sendQueue, sending)
    }

    constructor (maxPayload: nat, capacity: nat, queueCapacity: nat)
      ensures this.maxPayload == maxPayload && this.capacity == capacity && this.queueCapacity == queueCapacity
      ensures SendSide() == Sender([], []) && recving == [] && sendQueueSize == 0 && recentlySent == 0
    {
      this.maxPayload, this.capacity, this.queueCapacity := maxPayload, capacity, queueCapacity;
      sendQueue, sendQueueSize, sending, recving, recentlySent := [], 0, [], [], 0;
    }

    /** `trySendBytes`: the message is queued exactly if there is room; the queue never overflows. */
    method TrySendBytes(msg: Bytes) returns (ok: bool)
      requires |sendQueue| <= queueCapacity
      modifies this`sendQueue, this`sendQueueSize
      ensures ok <==> |old(sendQueue)| < queueCapacity
      ensures |sendQueue| <= queueCapacity && sendQueueSize - |sendQueue| == old(sendQueueSize - |sendQueue|)
      ensures sendQueue == if ok then old(sendQueue) + [msg] else old(sendQueue)
    {
      if |sendQueue| == queueCapacity { return false; }
      sendQueue := sendQueue + [msg];
      sendQueueSize := sendQueueSize + 1;
      return true;
    }

    /** `updateStats`. */
    method UpdateStats()
      modifies this`recentlySent
      ensures recentlySent == Decayed(old(recentlySent))
      ensures 5 * recentlySent <= 4 * old(recentlySent) < 5 * recentlySent + 5
    {
      recentlySent := recentlySent * 4 / 5;
    }

    method IsSendPending() returns (pending: bool)
      modifies this`sendQueue, this`sending
      ensures pending == IsPending(old(SendSide())) && SendSide() == Poll(old(SendSide()))
    {
      if |sending| == 0 {
        if |sendQueue| == 0 { return false; }
        sending := sendQueue[0];
        sendQueue := sendQueue[1..];
      }
      return true;
    }

    method NextPacketMsg() returns (p: Packet)
      modifies this`sending, this`sendQueueSize
      ensures (p, sending) == NextPacket(old(sending), maxPayload)
      ensures sendQueueSize == old(sendQueueSize) - if p.eof then 1 else 0
    {
      var n := if maxPayload < |sending| then maxPayload else |sending|;
      var data := sending[..n];
      if |sending| <= maxPayload {
        assert data == sending;
        sending := [];
        sendQueueSize := sendQueueSize - 1;
        return Packet(true, data);
      }
      sending := sending[n..];
      return Packet(false, data);
    }

    method RecvPacketMsg(p: Packet) returns (msg: Option<Bytes>, ok: bool)
      modifies this`recving
      ensures ok <==> |old(recving)| + |p.data| <= capacity
      ensures ok && !p.eof ==> msg == None && recving == old(recving) + p.data
      ensures ok && p.eof ==> msg == Some(old(recving) + p.data) && recving == []
      ensures !ok ==> msg == None && recving == old(recving)
      ensures forall delivered ::
                var r := Receive(Receiver(old(recving), delivered, false), p, capacity);
                && r.recving == recving && r.failed == !ok
                && r.delivered == if msg.Some? then delivered + [msg.value] else delivered
    {
      if capacity < |recving| + |p.data| { return None, false; }
      recving := recving + p.data;
      if p.eof {
        msg := Some(recving);
        recving := [];
        return msg, true;
      }
      return None, true;
    }
  }

  // ---------------------------------------------------------------- choosing a channel

  /** Priorities of the channels, the largest payload of a packet, the receivers' capacity, and how many bytes a
      channel's packet takes on the wire. */
  datatype Config = Config(priority: seq<nat>, maxSize: nat, capacity: nat, size: (nat, Packet) -> nat) {
    predicate Ok() { maxSize > 0 && forall i | 0 <= i < |priority| :: priority[i] > 0 }
  }

  function Ratio(recentlySent: nat, priority: nat): real
    requires priority > 0
  {
    recentlySent as real / priority as real
  }

  /** Among channels with something to send, the first with the least recently sent per priority. */
  ghost predicate IsChoice(senders: seq<Sender>, sentBy: seq<nat>, config: Config, n: nat, choice: Option<nat>)
    requires config.Ok() && n <= |senders| == |config.priority| == |sentBy|
  {
    && (choice.None? <==> forall i: nat | i < n :: !IsPending(senders[i]))
    && (choice.Some? ==>
          && choice.value < n && IsPending(senders[choice.value])
          && forall i: nat | i < n && IsPending(senders[i]) ::
               Precedes(sentBy, config, choice.value, i))
  }

  predicate Precedes(sentBy: seq<nat>, config: Config, i: nat, j: nat)
    requires config.Ok() && i < |config.priority| == |sentBy| && j < |config.priority|
  {
    var a, b := Ratio(sentBy[i], config.priority[i]), Ratio(sentBy[j], config.priority[j]);
    a < b || (a == b && i <= j)
  }

  function Choose(senders: seq<Sender>, sentBy: seq<nat>, config: Config, n: nat): (choice: Option<nat>)
    requires config.Ok() && n <= |senders| == |config.priority| == |sentBy|
    ensures IsChoice(senders, sentBy, config, n, choice)
  {
    if n == 0 then None
    else
      var least := Choose(senders, sentBy, config, n - 1);
      if IsPending(senders[n - 1]) && (least.None? || !Precedes(sentBy, config, least.value, n - 1)) then Some(n - 1)
      else least
  }

  /** One channel goes before another if it has sent less per priority, or the same and stands first. */
  lemma PrecedesIff(sentBy: seq<nat>, config: Config, i: nat, j: nat)
    requires config.Ok() && i < |config.priority| == |sentBy| && j < |config.priority|
    ensures var (a, b) := (sentBy[i] * config.priority[j], sentBy[j] * config.priority[i]);
            Precedes(sentBy, config, i, j) <==> a < b || (a == b && i <= j)
  {
    RatioOrder(sentBy[i], config.priority[i], sentBy[j], config.priority[j]);
  }

  lemma RatioOrder(a: nat, p: nat, b: nat, q: nat)
    requires p > 0 && q > 0
    ensures Ratio(a, p) < Ratio(b, q) <==> a * q < b * p
    ensures Ratio(a, p) == Ratio(b, q) <==> a * q == b * p
  {
    var (x, y) := (Ratio(a, p), Ratio(b, q));
    var (pr, qr) := (p as real, q as real);
    assert x * pr == a as real && y * qr == b as real;
    assert (a * q) as real == x * pr * qr && (b * p) as real == y * qr * pr;
    if x < y { Scaled(x, y, pr * qr); } else if y < x { Scaled(y, x, pr * qr); }
  }

  lemma Scaled(x: real, y: real, k: real)
    requires x < y && k > 0.0
    ensures x * k < y * k
  {
  }

  /** `sendPacketMsg`: every channel is looked at, which moves messages off idle channels' queues; then the
      chosen channel sends one packet, whatever its message. */
  function SendOne(senders: seq<Sender>, sentBy: seq<nat>, config: Config): (r: (seq<Sender>, Option<(nat, Packet)>))
    requires config.Ok() && |senders| == |config.priority| == |sentBy|
    ensures |r.0| == |senders| && (r.1.Some? ==> r.1.value.0 < |senders|)
  {
    var polled := seq(|senders|, i requires 0 <= i < |senders| => Poll(senders[i]));
    match Choose(senders, sentBy, config, |senders|)
    case None => (polled, None)
    case Some(i) =>
      var (p, rest) := NextPacket(polled[i].sending, config.maxSize);
      (polled[i := polled[i].(sending := rest)], Some((i, p)))
  }

  /** The counters once the packet has been written. */
  function Charged(sentBy: seq<nat>, packet: Option<(nat, Packet)>, config: Config): (r: seq<nat>)
    requires packet.Some? ==> packet.value.0 < |sentBy|
    ensures |r| == |sentBy|
  {
    if packet.None? then sentBy
    else sentBy[packet.value.0 := sentBy[packet.value.0] + config.size(packet.value.0, packet.value.1)]
  }

  /** `sendPacketMsg` as it runs: one loop that looks at each channel and remembers the least ratio. */
  method SendPacketMsg(senders: seq<Sender>, sentBy: seq<nat>, config: Config)
    returns (after: seq<Sender>, counters: seq<nat>, packet: Option<(nat, Packet)>)
    requires config.Ok() && |senders| == |config.priority| == |sentBy|
    ensures (after, packet) == SendOne(senders, sentBy, config) && counters == Charged(sentBy, packet, config)
    ensures packet.None? <==> forall i: nat | i < |senders| :: !IsPending(senders[i])
    ensures packet.Some? ==> IsChoice(senders, sentBy, config, |senders|, Some(packet.value.0))
  {
    hide IsPending, Poll, NextPacket, Choose;
    var least;
    after, least := PollAll(senders, sentBy, config);
    assert after == seq(|senders|, i requires 0 <= i < |senders| => Poll(senders[i]));
    packet, counters := None, sentBy;
    if least.Some? {
      var next := NextPacket(after[least.value].sending, config.maxSize);
      after := after[least.value := after[least.value].(sending := next.1)];
      counters := counters[least.value := counters[least.value] + config.size(least.value, next.0)];
      packet := Some((least.value, next.0));
    }
  }

  /** The loop over all channels: each takes its next message, the best one is remembered. */
  method PollAll(senders: seq<Sender>, sentBy: seq<nat>, config: Config)
    returns (after: seq<Sender>, least: Option<nat>)
    requires config.Ok() && |senders| == |config.priority| == |sentBy|
    ensures |after| == |senders| && forall i: nat | i < |senders| :: after[i] == Poll(senders[i])
    ensures least == Choose(senders, sentBy, config, |senders|)
    ensures IsChoice(senders, sentBy, config, |senders|, least)
  {
    hide IsPending, Poll, Ratio, IsChoice;
    after := [];
    least := None;
    var k := 0;
    while k < |senders|
      invariant 0 <= k <= |senders| && |after| == k && forall i: nat | i < k :: after[i] == Poll(senders[i])
      invariant least == Choose(senders, sentBy, config, k) && (least.Some? ==> least.value < k)
    {
      after := after + [Poll(senders[k])];
      if IsPending(senders[k]) {
        var ratio := Ratio(sentBy[k], config.priority[k]);
        if least.None? || ratio < Ratio(sentBy[least.value], config.priority[least.value]) { least := Some(k); }
      }
      k := k + 1;
    }
  }

  // ---------------------------------------------------------------- the whole connection

  /** `recent` are the counters of bytes sent; `sent` records what was submitted to each channel. */
  datatype Conn = Conn(senders: seq<Sender>, recent: seq<nat>, wire: seq<(nat, Packet)>, receivers: seq<Receiver>,
                       sent: seq<seq<Bytes>>)

  /** A message is submitted; one packet is sent; the counters decay; or the oldest packet arrives. */
  datatype Step = Submit(channel: nat, msg: Bytes) | Send | Decay | Arrive

  predicate Shaped(c: Conn, n: nat) {
    |c.senders| == |c.recent| == |c.receivers| == |c.sent| == n && forall k | 0 <= k < |c.wire| :: c.wire[k].0 < n
  }

  function Fresh(n: nat): Conn {
    Conn(seq(n, _ => Sender([], [])), seq(n, _ => 0), [], seq(n, _ => Receiver([], [], false)), seq(n, _ => []))
  }

  function Apply(c: Conn, step: Step, config: Config): (c': Conn)
    requires config.Ok() && Shaped(c, |config.priority|)
    ensures Shaped(c', |config.priority|)
  {
    match step
    case Submit(i, msg) =>
      if i >= |c.senders| then c
      else c.(senders := c.senders[i := c.senders[i].(queue := c.senders[i].queue + [msg])],
              sent := c.sent[i := c.sent[i] + [msg]])
    case Send =>
      var (senders, packet) := SendOne(c.senders, c.recent, config);
      c.(senders := senders, recent := Charged(c.recent, packet, config),
         wire := if packet.Some? then c.wire + [packet.value] else c.wire)
    case Decay => c.(recent := seq(|c.recent|, i requires 0 <= i < |c.recent| => Decayed(c.recent[i])))
    case Arrive =>
      if c.wire == [] then c
      else
        var (i, p) := c.wire[0];
        c.(wire := c.wire[1..], receivers := c.receivers[i := Receive(c.receivers[i], p, config.capacity)])
  }

  function Run(steps: seq<Step>, config: Config): (c: Conn)
    requires config.Ok()
    ensures Shaped(c, |config.priority|)
  {
    if steps == [] then Fresh(|config.priority|)
    else Apply(Run(steps[..|steps| - 1], config), steps[|steps| - 1], config)
  }

  // ---------------------------------------------------------------- nothing is lost or reordered

  /** The packets of one channel, in order. */
  function Of(wire: seq<(nat, Packet)>, i: nat): seq<Packet> {
    if wire == [] then []
    else (if wire[0].0 == i then [wire[0].1] else []) + Of(wire[1..], i)
  }

  /** The messages completed by packets after `recving`, and what is left over. */
  function Gather(recving: Bytes, packets: seq<Packet>): (seq<Bytes>, Bytes)
    decreases |packets|
  {
    if packets == [] then ([], recving)
    else if packets[0].eof then
      var (done, partial) := Gather([], packets[1..]);
      ([recving + packets[0].data] + done, partial)
    else Gather(recving + packets[0].data, packets[1..])
  }

  function InProgress(partial: Bytes, sending: Bytes): seq<Bytes> {
    if sending == [] then [] else [partial + sending]
  }

  /** Every submitted message is, in order, delivered, under way, or still queued. */
  ghost predicate Conserved(c: Conn, i: nat)
    requires Shaped(c, |c.senders|) && i < |c.senders|
  {
    var (done, partial) := Gather(c.receivers[i].recving, Of(c.wire, i));
    && c.sent[i] == c.receivers[i].delivered + done + InProgress(partial, c.senders[i].sending) + c.senders[i].queue
    && (c.senders[i].sending == [] ==> partial == [])
    && !c.receivers[i].failed
  }

  ghost predicate Within(sent: seq<Bytes>, capacity: nat) { forall k | 0 <= k < |sent| :: |sent[k]| <= capacity }

  ghost predicate NonEmpty(sent: seq<Bytes>) { forall k | 0 <= k < |sent| :: sent[k] != [] }

  lemma {:induction false} OfAppend(wire: seq<(nat, Packet)>, j: nat, p: Packet, i: nat)
    ensures Of(wire + [(j, p)], i) == Of(wire, i) + (if i == j then [p] else [])
  {
    if wire == [] {
      assert [(j, p)][1..] == [];
    } else {
      OfAppend(wire[1..], j, p, i);
      assert (wire + [(j, p)])[1..] == wire[1..] + [(j, p)];
    }
  }

  lemma {:induction false} GatherAppend(recving: Bytes, packets: seq<Packet>, p: Packet)
    ensures var (done, partial) := Gather(recving, packets);
            Gather(recving, packets + [p])
            == if p.eof then (done + [partial + p.data], []) else (done, partial + p.data)
    decreases |packets|
  {
    if packets == [] {
      assert packets + [p] == [p] && [p][1..] == [];
      assert [recving + p.data] + [] == [] + [recving + p.data];
    } else {
      assert (packets + [p])[1..] == packets[1..] + [p];
      GatherAppend(if packets[0].eof then [] else recving + packets[0].data, packets[1..], p);
      if packets[0].eof {
        var head := recving + packets[0].data;
        var (done, partial) := Gather([], packets[1..]);
        assert [head] + (done + [partial + p.data]) == ([head] + done) + [partial + p.data];
      }
    }
  }

  /** What has been received so far is never more than the message it belongs to. */
  lemma {:induction false} GatherBounds(recving: Bytes, packets: seq<Packet>)
    ensures var (done, partial) := Gather(recving, packets);
            if done == [] then |recving| <= |partial| else |recving| <= |done[0]|
    decreases |packets|
  {
    if packets != [] && !packets[0].eof { GatherBounds(recving + packets[0].data, packets[1..]); }
  }

  lemma SubmitKeeps(c: Conn, i: nat, msg: Bytes, config: Config, j: nat)
    requires config.Ok() && Shaped(c, |config.priority|) && j < |c.senders| && Conserved(c, j)
    ensures Conserved(Apply(c, Submit(i, msg), config), j)
  {
  }

  /** A packet of the chosen channel's message moves it from "in progress" towards "done", empty or not. */
  lemma PacketMoves(partial: Bytes, s: Bytes, maxSize: nat, before: seq<Bytes>, done: seq<Bytes>, queue: seq<Bytes>)
    requires maxSize > 0
    ensures var (p, rest) := NextPacket(s, maxSize);
            var (done', partial') := if p.eof then (done + [partial + p.data], []) else (done, partial + p.data);
            && before + done' + InProgress(partial', rest) + queue == before + done + [partial + s] + queue
            && (rest == [] ==> partial' == [])
  {
    var (p, rest) := NextPacket(s, maxSize);
    if p.eof {
      assert before + (done + [partial + s]) + [] == before + done + [partial + s];
    } else {
      assert partial + p.data + rest == partial + s;
    }
  }

  /** What the chosen channel is working on after the look: its message in progress, or the next one queued. */
  lemma ChosenWork(sent: seq<Bytes>, before: seq<Bytes>, done: seq<Bytes>, partial: Bytes, s: Sender)
    requires sent == before + done + InProgress(partial, s.sending) + s.queue && IsPending(s)
    requires s.sending == [] ==> partial == []
    ensures sent == before + done + [partial + Poll(s).sending] + Poll(s).queue
  {
    if s.sending == [] {
      assert s.queue == [s.queue[0]] + s.queue[1..];
      assert partial + s.queue[0] == s.queue[0];
    }
  }

  lemma SenderAfter(senders: seq<Sender>, sentBy: seq<nat>, config: Config, j: nat)
    requires config.Ok() && |senders| == |config.priority| == |sentBy| && j < |senders|
    ensures var (after, packet) := SendOne(senders, sentBy, config);
            && (packet.None? ==> after[j] == senders[j])
            && (packet.Some? && packet.value.0 != j ==> after[j] == Poll(senders[j]))
            && (packet.Some? && packet.value.0 == j ==>
                  && IsPending(senders[j])
                  && after[j] == Poll(senders[j]).(sending := NextPacket(Poll(senders[j]).sending, config.maxSize).1)
                  && packet.value.1 == NextPacket(Poll(senders[j]).sending, config.maxSize).0)
  {
    hide NextPacket, Precedes;
  }

  /** A channel that is looked at and not chosen loses nothing, unless the message it takes up is empty. */
  lemma LookKeeps(c: Conn, c': Conn, j: nat)
    requires Shaped(c, |c.senders|) && j < |c.senders| && Conserved(c, j) && NonEmpty(c.sent[j])
    requires Shaped(c', |c.senders|) && |c'.senders| == |c.senders| && c'.sent == c.sent && c'.receivers == c.receivers
    requires c'.senders[j] == Poll(c.senders[j]) && Of(c'.wire, j) == Of(c.wire, j)
    ensures Conserved(c', j)
  {
    hide Of, Gather;
    var s := c.senders[j];
    if s.sending == [] && s.queue != [] {
      var n := |c.sent[j]| - |s.queue|;
      assert c.sent[j][n] == s.queue[0];
      assert [] + s.queue[0] == s.queue[0];
      assert s.queue == [s.queue[0]] + s.queue[1..];
    }
  }

  lemma SendKeeps(c: Conn, config: Config, j: nat)
    requires config.Ok() && Shaped(c, |config.priority|) && j < |c.senders| && Conserved(c, j)
    requires |c.senders| == 1 || NonEmpty(c.sent[j])
    ensures Conserved(Apply(c, Send, config), j)
  {
    hide Of, Gather, NextPacket, InProgress, SendOne, Poll, Choose, IsChoice;
    var c' := Apply(c, Send, config);
    SenderAfter(c.senders, c.recent, config, j);
    var (after, packet) := SendOne(c.senders, c.recent, config);
    if packet.Some? {
      var (i, p) := packet.value;
      OfAppend(c.wire, i, p, j);
      assert Of(c.wire, j) + [] == Of(c.wire, j);
      if i == j {
        var r := c.receivers[j];
        var (done, partial) := Gather(r.recving, Of(c.wire, j));
        GatherAppend(r.recving, Of(c.wire, j), p);
        ChosenWork(c.sent[j], r.delivered, done, partial, c.senders[j]);
        PacketMoves(partial, Poll(c.senders[j]).sending, config.maxSize, r.delivered, done, Poll(c.senders[j]).queue);
      } else {
        LookKeeps(c, c', j);
      }
    }
  }

  lemma DecayKeeps(c: Conn, config: Config, j: nat)
    requires config.Ok() && Shaped(c, |config.priority|) && j < |c.senders| && Conserved(c, j)
    ensures Conserved(Apply(c, Decay, config), j)
  {
  }

  lemma ArriveFits(c: Conn, capacity: nat, j: nat, p: Packet, rest: seq<Packet>)
    requires Shaped(c, |c.senders|) && j < |c.senders| && Conserved(c, j) && Within(c.sent[j], capacity)
    requires Of(c.wire, j) == [p] + rest
    ensures |c.receivers[j].recving| + |p.data| <= capacity
  {
    var r := c.receivers[j].recving + p.data;
    var (done, partial) := Gather(c.receivers[j].recving, [p] + rest);
    assert ([p] + rest)[1..] == rest;
    if !p.eof { GatherBounds(r, rest); }
    var k := |c.receivers[j].delivered|;
    if done != [] {
      assert c.sent[j][k] == done[0];
    } else if c.senders[j].sending != [] {
      assert c.sent[j][k] == partial + c.senders[j].sending;
    }
  }

  lemma OfHead(wire: seq<(nat, Packet)>, j: nat)
    requires wire != []
    ensures Of(wire, j) == if wire[0].0 == j then [wire[0].1] + Of(wire[1..], j) else Of(wire[1..], j)
  {
  }

  lemma GatherHead(recving: Bytes, p: Packet, rest: seq<Packet>)
    ensures Gather(recving, [p] + rest)
         == if p.eof then ([recving + p.data] + Gather([], rest).0, Gather([], rest).1) else Gather(recving + p.data, rest)
  {
    assert ([p] + rest)[1..] == rest;
  }

  lemma ArriveKeeps(c: Conn, config: Config, j: nat)
    requires config.Ok() && Shaped(c, |config.priority|) && j < |c.senders| && Conserved(c, j)
    requires Within(c.sent[j], config.capacity)
    ensures Conserved(Apply(c, Arrive, config), j)
  {
    if c.wire != [] {
      OfHead(c.wire, j);
      if c.wire[0].0 == j {
        hide Of, Gather;
        var p, rest, r := c.wire[0].1, Of(c.wire[1..], j), c.receivers[j];
        ArriveFits(c, config.capacity, j, p, rest);
        GatherHead(r.recving, p, rest);
        if p.eof {
          var more := Gather([], rest).0;
          assert r.delivered + ([r.recving + p.data] + more) == r.delivered + [r.recving + p.data] + more;
        }
      }
    }
  }

  lemma ApplyKeeps(c: Conn, step: Step, config: Config, j: nat)
    requires config.Ok() && Shaped(c, |config.priority|) && j < |c.senders| && Conserved(c, j)
    requires Within(c.sent[j], config.capacity) && (|c.senders| == 1 || NonEmpty(c.sent[j]))
    ensures Conserved(Apply(c, step, config), j)
  {
    hide Conserved, Apply, Within, NonEmpty;
    match step
    case Submit(i, msg) => SubmitKeeps(c, i, msg, config, j);
    case Send => SendKeeps(c, config, j);
    case Decay => DecayKeeps(c, config, j);
    case Arrive => ArriveKeeps(c, config, j);
  }

  /** Submitted messages only accumulate. */
  lemma SentGrows(c: Conn, step: Step, config: Config, i: nat)
    requires config.Ok() && Shaped(c, |config.priority|) && i < |c.senders|
    ensures c.sent[i] <= Apply(c, step, config).sent[i]
  {
    hide SendOne, Receive;
  }

  lemma PrefixAllowed(a: seq<Bytes>, b: seq<Bytes>, capacity: nat)
    requires a <= b && Within(b, capacity)
    ensures Within(a, capacity) && (NonEmpty(b) ==> NonEmpty(a))
  {
    forall k | 0 <= k < |a| ensures |a[k]| <= capacity && a[k] == b[k] { assert a[k] == b[k]; }
  }

  lemma {:induction false} RunConserves(steps: seq<Step>, config: Config, j: nat)
    requires config.Ok() && j < |config.priority| && Within(Run(steps, config).sent[j], config.capacity)
    requires |config.priority| == 1 || NonEmpty(Run(steps, config).sent[j])
    ensures Conserved(Run(steps, config), j)
    decreases |steps|
  {
    if steps != [] {
      hide Apply, Within, NonEmpty, Conserved;
      var k := |steps| - 1;
      var c := Run(steps[..k], config);
      SentGrows(c, steps[k], config, j);
      PrefixAllowed(c.sent[j], Run(steps, config).sent[j], config.capacity);
      RunConserves(steps[..k], config, j);
      ApplyKeeps(c, steps[k], config, j);
    }
  }

  /** However the channels are interleaved, a channel's messages within capacity arrive complete and in order, the
      capacity error never strikes, and once nothing is pending all have arrived: if it is the only channel, or
      if none of its messages is empty. */
  lemma MessagesArriveInOrder(steps: seq<Step>, config: Config, j: nat)
    requires config.Ok() && j < |config.priority| && Within(Run(steps, config).sent[j], config.capacity)
    requires |config.priority| == 1 || NonEmpty(Run(steps, config).sent[j])
    ensures var c := Run(steps, config);
            && c.receivers[j].delivered <= c.sent[j] && !c.receivers[j].failed
            && (Drained(c, j) ==> c.receivers[j].delivered == c.sent[j])
  {
    hide Run;
    RunConserves(steps, config, j);
  }

  /** Nothing of the channel is in transit, and the sender finds nothing to send on it. */
  predicate Drained(c: Conn, j: nat)
    requires j < |c.senders|
  {
    c.wire == [] && !IsPending(c.senders[j])
  }

  // ---------------------------------------------------------------- exactly when nothing is lost

  ghost predicate Allowed(c: Conn, capacity: nat, emptyAllowed: bool) {
    forall i | 0 <= i < |c.sent| :: Within(c.sent[i], capacity) && (emptyAllowed || NonEmpty(c.sent[i]))
  }

  /** Every run on these channels whose messages are within capacity, and non-empty unless empty ones are
      allowed, delivers all of them. */
  ghost predicate AllArrive(config: Config, emptyAllowed: bool)
    requires config.Ok()
  {
    forall steps: seq<Step>, j: nat
         | j < |config.priority| && Allowed(Run(steps, config), config.capacity, emptyAllowed) ::
      Drained(Run(steps, config), j) ==> Run(steps, config).receivers[j].delivered == Run(steps, config).sent[j]
  }

  /** Before anything was sent, the first channel with a message is chosen. */
  lemma ChoosesFirst(senders: seq<Sender>, sentBy: seq<nat>, config: Config)
    requires config.Ok() && |senders| == |config.priority| == |sentBy| >= 2
    requires IsPending(senders[0]) && forall i | 0 <= i < |sentBy| :: sentBy[i] == 0
    ensures Choose(senders, sentBy, config, |senders|) == Some(0)
  {
    hide Ratio, Choose;
    var choice := Choose(senders, sentBy, config, |senders|);
    assert Precedes(sentBy, config, choice.value, 0);
    NothingSent(config.priority[0]);
    NothingSent(config.priority[choice.value]);
  }

  lemma NothingSent(priority: nat)
    requires priority > 0
    ensures Ratio(0, priority) == 0.0
  {
  }

  /** Both first channels are given an empty message. */
  function BothEmpty(config: Config): (c: Conn)
    requires config.Ok() && |config.priority| >= 2
    ensures Shaped(c, |config.priority|)
  {
    Apply(Apply(Fresh(|config.priority|), Submit(0, []), config), Submit(1, []), config)
  }

  lemma BothEmptyShape(config: Config)
    requires config.Ok() && |config.priority| >= 2
    ensures var c := BothEmpty(config);
            && c.wire == [] && c.senders[0] == c.senders[1] == Sender([[]], [])
            && (forall i | 0 <= i < |c.recent| :: c.recent[i] == 0)
            && (forall i: nat | i < |c.senders| :: IsPending(c.senders[i]) <==> i < 2)
            && (forall i: nat | i < |c.sent| :: c.sent[i] == if i < 2 then [[]] else [])
            && (forall i: nat | i < |c.receivers| :: c.receivers[i] == Receiver([], [], false))
  {
    var none: Bytes := [];
    var c1 := Apply(Fresh(|config.priority|), Submit(0, none), config);
    assert c1.senders[0].queue == [none] && c1.sent[0] == [none];
    var c2 := Apply(c1, Submit(1, none), config);
    assert c2.senders[1].queue == [none] && c2.sent[1] == [none];
  }

  lemma FirstIsSent(c: Conn, config: Config)
    requires config.Ok() && |config.priority| >= 2 && Shaped(c, |config.priority|) && c.wire == []
    requires c.senders[0] == c.senders[1] == Sender([[]], []) && forall i | 0 <= i < |c.recent| :: c.recent[i] == 0
    ensures var c' := Apply(c, Send, config);
            && !IsPending(c'.senders[1]) && c'.wire == [(0, Packet(true, []))]
            && c'.sent == c.sent && c'.receivers == c.receivers
  {
    hide Choose, IsChoice;
    ChoosesFirst(c.senders, c.recent, config);
  }

  lemma FirstArrives(c: Conn, config: Config)
    requires config.Ok() && |config.priority| >= 2 && Shaped(c, |config.priority|)
    requires c.wire == [(0, Packet(true, []))] && c.receivers[0] == Receiver([], [], false)
    ensures var c' := Apply(c, Arrive, config);
            && c'.wire == [] && c'.senders == c.senders && c'.sent == c.sent
            && c'.receivers[1] == c.receivers[1] && c'.receivers[0].delivered == [[]]
  {
    var none: Bytes := [];
    assert none + none == none && [] + [none] == [none];
  }

  lemma RunAppend(steps: seq<Step>, step: Step, config: Config)
    requires config.Ok()
    ensures Run(steps + [step], config) == Apply(Run(steps, config), step, config)
  {
    assert (steps + [step])[..|steps|] == steps;
  }

  function Lossy(): seq<Step> { [Submit(0, [])] + [Submit(1, [])] + [Send] + [Arrive] }

  /** On a fresh connection channels 0 and 1 are each given an empty message. The sender looks at both, which takes
      both messages off their queues, and sends channel 0's. To the next look channel 1 is idle: its message is
      gone. */
  lemma EmptyMessageLost(config: Config)
    requires config.Ok() && |config.priority| >= 2
    ensures var c := Run(Lossy(), config);
            && Allowed(c, config.capacity, true) && Drained(c, 1)
            && c.sent[1] == [[]] && c.receivers[1].delivered == [] && c.receivers[0].delivered == [[]]
  {
    hide Apply, Run;
    RunAppend([], Submit(0, []), config);
    RunAppend([Submit(0, [])], Submit(1, []), config);
    RunAppend([Submit(0, [])] + [Submit(1, [])], Send, config);
    RunAppend([Submit(0, [])] + [Submit(1, [])] + [Send], Arrive, config);
    assert [] + [Submit(0, [])] == [Submit(0, [])];
    RunNone(config);
    BothEmptyShape(config);
    FirstIsSent(BothEmpty(config), config);
    FirstArrives(Apply(BothEmpty(config), Send, config), config);
  }

  lemma RunNone(config: Config)
    requires config.Ok()
    ensures Run([], config) == Fresh(|config.priority|)
  {
  }

  /** All messages of all runs arrive exactly when there is one channel or no message is empty. */
  lemma AllArriveIff(config: Config, emptyAllowed: bool)
    requires config.Ok()
    ensures AllArrive(config, emptyAllowed) <==> |config.priority| <= 1 || !emptyAllowed
  {
    hide Run;
    if |config.priority| <= 1 || !emptyAllowed {
      forall steps: seq<Step>, j: nat
           | j < |config.priority| && Allowed(Run(steps, config), config.capacity, emptyAllowed)
        ensures Drained(Run(steps, config), j) ==> Run(steps, config).receivers[j].delivered == Run(steps, config).sent[j]
      {
        MessagesArriveInOrder(steps, config, j);
      }
    } else {
      EmptyMessageLost(config);
    }
  }
}
