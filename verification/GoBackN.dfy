/** One transfer: a sender with a growing window, a receiver that takes packets in
    order and acknowledges every packet with that packet's own id, even one it
    discards, and the channels between them.

    Acknowledgements travel through a lossy channel that keeps their order. Data
    packets either travel through a lossy channel that keeps their order too, or
    may be lost, repeated and reordered at will. Ids repeat after M packets; how
    many packets a transfer may have for that to do no harm is `Limit`, and module
    GoBackNLimit shows that one more is one too many. */
module GoBackN {
  import opened Options
  import opened Modular
  import opened Packets

  const M: nat := MAX_PACKET_ID

  // -------------------------------------------------------------- the two ends

  /** lastAcked and lastSent count packets; they do not wrap. */
  datatype Sender = Sender(cwnd: nat, ssthresh: nat, lastAcked: nat, lastSent: nat, done: bool)

  datatype Receiver = Receiver(inBuffer: seq<Packet>, bytes: nat, size: nat, lastAcked: nat)

  const MAX_SSTHRESH: nat := 0xFFFF_FFFF_FFFF_FFFF

  function Larger(a: nat, b: nat): nat {
    if a < b then b else a
  }

  function StartSlowAgain(s: Sender): Sender {
    s.(ssthresh := Larger(s.cwnd / 2, 1), cwnd := 1, lastSent := s.lastAcked)
  }

  /** The packets lastAcked + 1 .. lastSent are transmitted. */
  function SendNextWindow(s: Sender, n: nat): Sender {
    s.(lastSent := Smaller(s.lastAcked + s.cwnd, n))
  }

  /** Slow start doubles the window up to a cap, congestion avoidance adds one. */
  function GrowWindow(cwnd: nat, ssthresh: nat): nat {
    if cwnd < ssthresh then Smaller(cwnd * 2, M) else cwnd + 1
  }

  /** What an acknowledgement makes of the sender, and whether it transmits. */
  function HandleAck(s: Sender, id: nat, n: nat): (Sender, bool) {
    if id == (s.lastAcked + 1) % M then
      var s1 := s.(lastAcked := s.lastAcked + 1);
      if id == s1.lastSent % M then
        if s1.lastAcked == n then (s1.(done := true), false)
        else (SendNextWindow(s1.(cwnd := GrowWindow(s1.cwnd, s1.ssthresh)), n), true)
      else (s1, false)
    else if id > (s.lastAcked + 1) % M then (SendNextWindow(StartSlowAgain(s), n), true)
    else (s, false)
  }

  /** A packet is taken for the header when nothing was received and its body is as
      long as a header, and kept when it is the next one. */
  function StorePacket(r: Receiver, p: Packet): (Receiver, Option<Bytes>) {
    if r.inBuffer == [] && r.bytes == 0 && |p.body| == HEADER_SIZE then
      (r.(size := Decode(p.body), inBuffer := [p]), None)
    else if p.id == (r.lastAcked + 1) % M then
      var r1 := r.(inBuffer := r.inBuffer + [p], bytes := r.bytes + |p.body|);
      if r1.size == r1.bytes then (Receiver([], 0, 0, 0), Some(Joined(r1.inBuffer[1..]))) else (r1, None)
    else (r, None)
  }

  /** handleData: the new state, and the file written if the message is complete. */
  function HandleData(r: Receiver, p: Packet): (Receiver, Option<Bytes>) {
    var (r1, file) := StorePacket(r, p);
    (if p.id == (r1.lastAcked + 1) % M then r1.(lastAcked := r1.lastAcked + 1) else r1, file)
  }

  // ------------------------------------------------------------------- machine

  /** The transfer; `fifo` says whether data packets keep their order. */
  datatype Config = Config(msg: Bytes, packetSize: nat, packets: seq<Packet>, fifo: bool)

  /** A message that is not empty, cut by packetize. */
  ghost predicate ValidConfig(c: Config) {
    && c.msg != [] && |c.msg| < SIZE_RANGE && c.packetSize > 0
    && c.packets == Packetized(c.msg, c.packetSize)
  }

  /** As many packets as the ids suffice for. */
  function Limit(fifo: bool): nat {
    if fifo then 2 * M else M
  }

  predicate Fits(c: Config) {
    !c.fifo ==> |c.packets| <= M
  }

  /** Packet number `index` on its way; no packet beyond `high` had been sent then. */
  datatype Item = Item(index: nat, high: nat)

  /** The echoed id; history: the packet's number, and how many packets the receiver
      had accepted when it sent the acknowledgement. */
  datatype Ack = Ack(id: nat, index: nat, accepted: nat)

  /** History: the highest packet ever sent, the packets accepted until the first
      completion, and the files written. */
  datatype State = State(
    snd: Sender,
    rcv: Receiver,
    high: nat,
    data: seq<Item>,
    acks: seq<Ack>,
    accepted: nat,
    files: seq<Bytes>)

  function Burst(first: nat, last: nat, high: nat): seq<Item> {
    if first > last then [] else seq(last - first + 1, k requires k >= 0 => Item(first + k, high))
  }

  /** The sender has moved to snd and transmits its window. */
  function Transmit(c: Config, s: State, snd: Sender): State {
    var high := Larger(s.high, snd.lastSent);
    s.(snd := snd, high := high,
       data := if c.fifo then s.data + Burst(snd.lastAcked + 1, snd.lastSent, high) else s.data)
  }

  /** After the completion a timer runs only if an acknowledgement has armed one again;
      it then finds nothing to send. Which timers there are is told by module Timers. */
  ghost predicate Timeout(c: Config, s: State, s': State)
  {
    s' == Transmit(c, s, SendNextWindow(StartSlowAgain(s.snd), |c.packets|))
  }

  function AfterAck(c: Config, s: State): State
    requires s.acks != []
  {
    var (snd, transmits) := HandleAck(s.snd, s.acks[0].id, |c.packets|);
    var s1 := s.(acks := s.acks[1..]);
    if transmits then Transmit(c, s1, snd) else s1.(snd := snd)
  }

  /** After the completion the acknowledgement that would be in order next stands for a
      packet behind the end of the output buffer; the code writes there, and what it
      does then is not modelled. */
  predicate PassesTheEnd(snd: Sender, id: nat) {
    snd.done && id == (snd.lastAcked + 1) % M
  }

  ghost predicate AckArrives(c: Config, s: State, s': State)
  {
    s.acks != [] && !PassesTheEnd(s.snd, s.acks[0].id) && s' == AfterAck(c, s)
  }

  ghost predicate LoseAck(s: State, s': State, k: nat) {
    k < |s.acks| && s' == s.(acks := s.acks[..k] + s.acks[k + 1..])
  }

  ghost predicate LoseData(s: State, s': State, k: nat) {
    k < |s.data| && s' == s.(data := s.data[..k] + s.data[k + 1..])
  }

  /** Packet i reaches the receiver. */
  ghost predicate Arrives(c: Config, s: State, i: nat) {
    if c.fifo then s.data != [] && s.data[0].index == i else 1 <= i <= s.high
  }

  function AcceptedAfter(s: State, rcv: Receiver, file: Option<Bytes>): nat {
    if s.files == [] && (file.Some? || |rcv.inBuffer| > |s.rcv.inBuffer|) then s.accepted + 1 else s.accepted
  }

  /** Packet i is handled, and acknowledged in any case. */
  function AfterDelivery(c: Config, s: State, i: nat): State
    requires 1 <= i <= |c.packets| && (c.fifo ==> s.data != [])
  {
    var p := c.packets[i - 1];
    var (rcv, file) := HandleData(s.rcv, p);
    s.(rcv := rcv,
       accepted := AcceptedAfter(s, rcv, file),
       files := if file.Some? then s.files + [file.value] else s.files,
       data := if c.fifo then s.data[1..] else s.data,
       acks := s.acks + [Ack(p.id, i, AcceptedAfter(s, rcv, file))])
  }

  ghost predicate Deliver(c: Config, s: State, s': State, i: nat)
  {
    Arrives(c, s, i) && 1 <= i <= |c.packets| && s' == AfterDelivery(c, s, i)
  }

  ghost predicate Init(c: Config, s: State) {
    && s.snd == Sender(1, MAX_SSTHRESH, 0, 1, false)
    && s.rcv == Receiver([], 0, 0, 0) && s.high == 1
    && s.data == (if c.fifo then [Item(1, 1)] else []) && s.acks == []
    && s.accepted == 0 && s.files == []
  }

  ghost predicate Next(c: Config, s: State, s': State)
  {
    || Timeout(c, s, s') || AckArrives(c, s, s')
    || (exists k: nat :: LoseAck(s, s', k)) || (exists k: nat :: LoseData(s, s', k))
    || (exists i: nat :: Deliver(c, s, s', i))
  }

  ghost predicate StepAt(c: Config, run: seq<State>, i: nat)
    requires i + 1 < |run|
  {
    Next(c, run[i], run[i + 1])
  }

  ghost predicate Path(c: Config, path: seq<State>) {
    path != [] && forall i: nat {:trigger StepAt(c, path, i)} :: i + 1 < |path| ==> StepAt(c, path, i)
  }

  ghost predicate IsRun(c: Config, run: seq<State>) {
    ValidConfig(c) && Path(c, run) && Init(c, run[0])
  }

  ghost predicate Joins(c: Config, path: seq<State>, s: State, t: State) {
    Path(c, path) && path[0] == s && path[|path| - 1] == t
  }

  ghost predicate LeadsTo(c: Config, s: State, t: State) {
    exists path: seq<State> :: Joins(c, path, s, t)
  }

  lemma LeadsToItself(c: Config, s: State)
    ensures LeadsTo(c, s, s)
  {
    assert Joins(c, [s], s, s);
  }

  lemma LeadsToNext(c: Config, s: State, t: State, t': State)
    requires LeadsTo(c, s, t) && Next(c, t, t')
    ensures LeadsTo(c, s, t')
  {
    var path :| Joins(c, path, s, t);
    var longer := path + [t'];
    forall i: nat | i + 1 < |longer| ensures StepAt(c, longer, i) {
      if i + 1 < |path| {
        assert StepAt(c, path, i);
      }
    }
    assert Joins(c, longer, s, t');
  }

  /** What the results about a run ask for: that the message is short enough, which
      the caller can check before sending, or, for a message of any length over a
      channel that keeps the order, that the window stayed below the number of ids. */
  ghost predicate IdsSuffice(c: Config, run: seq<State>) {
    || |c.packets| <= Limit(c.fifo)
    || (c.fifo && forall i: nat {:trigger run[i]} :: i < |run| ==> run[i].snd.cwnd <= M - 1)
  }

  /** The part of it that one state tells. */
  predicate WindowOk(c: Config, s: State) {
    c.fifo ==> |c.packets| <= Limit(c.fifo) || s.snd.cwnd <= M - 1
  }

  // ----------------------------------------------------------------- invariant

  /** No more than M packets lie behind `low`; M of them only at the end of the
      transfer, in its second half. */
  predicate SpanOk(low: int, high: nat, n: nat) {
    high <= low + M && (high == low + M ==> high == n && low >= M)
  }

  predicate ItemOk(item: Item, accepted: nat, high: nat, n: nat) {
    1 <= item.index <= item.high <= high && accepted <= item.high && SpanOk(item.index - 1, item.high, n)
  }

  predicate AckOk(ack: Ack, fifo: bool, lastAcked: nat, accepted: nat, high: nat, n: nat) {
    && ack.id == ack.index % M && 1 <= ack.index <= high && ack.index != ack.accepted + 1
    && lastAcked <= ack.accepted <= accepted
    && (fifo ==> SpanOk(ack.index - 1, ack.accepted, n))
  }

  predicate HighsInOrder(data: seq<Item>, j: nat, k: nat)
    requires j < |data| && k < |data|
  {
    j <= k ==> data[j].high <= data[k].high
  }

  predicate AcceptedInOrder(acks: seq<Ack>, j: nat, k: nat)
    requires j < |acks| && k < |acks|
  {
    j <= k ==> acks[j].accepted <= acks[k].accepted
  }

  ghost predicate DataOk(data: seq<Item>, accepted: nat, high: nat, n: nat) {
    && (forall k: nat {:trigger data[k]} :: k < |data| ==> ItemOk(data[k], accepted, high, n))
    && (forall j: nat, k: nat {:trigger HighsInOrder(data, j, k)} ::
          j < |data| && k < |data| ==> HighsInOrder(data, j, k))
  }

  ghost predicate AcksOk(acks: seq<Ack>, fifo: bool, lastAcked: nat, accepted: nat, high: nat, n: nat) {
    && (forall k: nat {:trigger acks[k]} :: k < |acks| ==> AckOk(acks[k], fifo, lastAcked, accepted, high, n))
    && (forall j: nat, k: nat {:trigger AcceptedInOrder(acks, j, k)} ::
          j < |acks| && k < |acks| ==> AcceptedInOrder(acks, j, k))
  }

  /** The window is at most one more than what was acknowledged: it has doubled once
      for each window sent. So it reaches M only after M acknowledgements, as
      32768, the last power of two below M, and the windows before it sum to M. */
  predicate Paced(snd: Sender, n: nat) {
    && snd.cwnd <= snd.lastAcked + 1
    && (snd.cwnd >= M ==> snd.lastAcked >= M)
    && (snd.lastSent == n || snd.lastSent >= 2 * snd.cwnd - 1)
  }

  /** The sender between two handler calls, whatever the ids decide. */
  ghost predicate SenderKept(c: Config, s: State)
  {
    var n, a := |c.packets|, s.snd.lastAcked;
    && s.snd.cwnd >= 1 && s.snd.ssthresh >= 1
    && (s.snd.done ==> a == n)
    && (!s.snd.done ==> a < s.snd.lastSent <= Smaller(a + s.snd.cwnd, n))
    && s.snd.lastSent <= s.high <= n && a <= s.high
    && (a == 0 ==> s.snd.cwnd == 1 && s.high == 1)
  }

  /** And while they decide like packet numbers. */
  ghost predicate SenderOk(c: Config, s: State)
  {
    var n, a := |c.packets|, s.snd.lastAcked;
    && SenderKept(c, s)
    && (c.fifo ==> SpanOk(a, s.high, n))
    && a <= s.accepted <= s.high
    && Paced(s.snd, n)
  }

  /** The receiver holds the first r packets. */
  ghost predicate Holding(c: Config, rcv: Receiver, r: nat) {
    && r <= |c.packets| && rcv.inBuffer == c.packets[..r] && rcv.lastAcked == r
    && (r == 0 ==> rcv.bytes == 0)
    && (r > 0 ==> rcv.size == |c.msg| && rcv.bytes == |Joined(c.packets[1..r])|)
  }

  /** The receiver holds what was accepted; once it is done, the first file is the
      message. */
  ghost predicate ReceiverOk(c: Config, s: State)
  {
    if s.files == [] then s.accepted < |c.packets| && Holding(c, s.rcv, s.accepted)
    else s.accepted == |c.packets| && s.files[0] == c.msg
  }

  ghost predicate Inv(c: Config, s: State) {
    && Fits(c)
    && SenderOk(c, s) && ReceiverOk(c, s)
    && (c.fifo ==> DataOk(s.data, s.accepted, s.high, |c.packets|))
    && AcksOk(s.acks, c.fifo, s.snd.lastAcked, s.accepted, s.high, |c.packets|)
  }

  // ------------------------------------------------------------- comparing ids

  /** What the ids decide at the sender is what the packet numbers would decide. */
  lemma AckComparisonsAgree(c: Config, s: State)
    requires Inv(c, s) && !s.snd.done && s.acks != []
    ensures s.acks[0].id == (s.snd.lastAcked + 1) % M <==> s.acks[0].index == s.snd.lastAcked + 1
    ensures (s.snd.lastAcked + 1) % M == s.snd.lastSent % M <==> s.snd.lastAcked + 1 == s.snd.lastSent
  {
    var a, i := s.snd.lastAcked, s.acks[0].index;
    assert AckOk(s.acks[0], c.fifo, a, s.accepted, s.high, |c.packets|);
    if i % M == (a + 1) % M {
      WindowUnique(i, a + 1, M);
    }
    if (a + 1) % M == s.snd.lastSent % M {
      WindowUnique(a + 1, s.snd.lastSent, M);
    }
  }

  /** What the ids decide at the receiver is what the packet numbers would decide. */
  lemma DataComparisonAgrees(c: Config, s: State, i: nat)
    requires Inv(c, s) && Arrives(c, s, i) && 1 <= i <= |c.packets| && s.files == []
    ensures i % M == (s.rcv.lastAcked + 1) % M <==> i == s.rcv.lastAcked + 1
    ensures i <= s.high
  {
    if c.fifo {
      assert ItemOk(s.data[0], s.accepted, s.high, |c.packets|);
    }
    if i % M == (s.rcv.lastAcked + 1) % M {
      WindowUnique(i, s.rcv.lastAcked + 1, M);
    }
  }

  // ------------------------------------------------------------------- channels

  lemma AcksAfterRemoving(acks: seq<Ack>, k: nat, fifo: bool, lastAcked: nat, accepted: nat, high: nat, n: nat)
    requires AcksOk(acks, fifo, lastAcked, accepted, high, n) && k < |acks|
    ensures AcksOk(acks[..k] + acks[k + 1..], fifo, lastAcked, accepted, high, n)
  {
    var rest := acks[..k] + acks[k + 1..];
    forall i: nat, j: nat | i < |rest| && j < |rest| ensures AcceptedInOrder(rest, i, j) {
      assert AcceptedInOrder(acks, if i < k then i else i + 1, if j < k then j else j + 1);
    }
  }

  lemma DataAfterRemoving(data: seq<Item>, k: nat, accepted: nat, high: nat, n: nat)
    requires DataOk(data, accepted, high, n) && k < |data|
    ensures DataOk(data[..k] + data[k + 1..], accepted, high, n)
  {
    var rest := data[..k] + data[k + 1..];
    forall i: nat, j: nat | i < |rest| && j < |rest| ensures HighsInOrder(rest, i, j) {
      assert HighsInOrder(data, if i < k then i else i + 1, if j < k then j else j + 1);
    }
  }

  lemma DataAfterBurst(data: seq<Item>, accepted: nat, high: nat, first: nat, last: nat, high': nat, n: nat)
    requires DataOk(data, accepted, high, n) && high <= high' && last <= high' && accepted <= high' && 1 <= first
    requires SpanOk(first - 1, high', n)
    ensures DataOk(data + Burst(first, last, high'), accepted, high', n)
  {
    var all := data + Burst(first, last, high');
    forall k: nat | k < |all| ensures ItemOk(all[k], accepted, high', n) {
      assert k < |data| ==> all[k] == data[k];
    }
    forall i: nat, j: nat | i < |all| && j < |all| ensures HighsInOrder(all, i, j) {
      assert i < |data| ==> ItemOk(data[i], accepted, high, n);
      assert i < |data| && j < |data| ==> HighsInOrder(data, i, j);
    }
  }

  /** After the head was handled the rest of the acknowledgements allow for one more
      acknowledged packet. */
  lemma AcksAfterHead(acks: seq<Ack>, fifo: bool, lastAcked: nat, accepted: nat, high: nat, n: nat)
    requires AcksOk(acks, fifo, lastAcked, accepted, high, n) && acks != []
    ensures AcksOk(acks[1..], fifo, lastAcked, accepted, high, n)
    ensures acks[0].index == lastAcked + 1 ==>
      AcksOk(acks[1..], fifo, lastAcked + 1, accepted, high, n) && lastAcked < accepted
  {
    AcksAfterRemoving(acks, 0, fifo, lastAcked, accepted, high, n);
    assert acks[..0] + acks[0 + 1..] == acks[1..];
    assert AckOk(acks[0], fifo, lastAcked, accepted, high, n);
    if acks[0].index == lastAcked + 1 {
      forall k: nat | k < |acks[1..]| ensures AckOk(acks[1..][k], fifo, lastAcked + 1, accepted, high, n) {
        assert AcceptedInOrder(acks, 0, k + 1);
        assert acks[1..][k] == acks[k + 1];
      }
    }
  }

  lemma AcksAfterSending(acks: seq<Ack>, ack: Ack, fifo: bool, lastAcked: nat, accepted: nat, accepted': nat,
      high: nat, n: nat)
    requires AcksOk(acks, fifo, lastAcked, accepted, high, n) && accepted <= accepted'
    requires AckOk(ack, fifo, lastAcked, accepted', high, n) && ack.accepted == accepted'
    ensures AcksOk(acks + [ack], fifo, lastAcked, accepted', high, n)
  {
    var all := acks + [ack];
    forall k: nat | k < |all| ensures AckOk(all[k], fifo, lastAcked, accepted', high, n) {
      assert k < |acks| ==> all[k] == acks[k] && AckOk(acks[k], fifo, lastAcked, accepted, high, n);
    }
    forall i: nat, j: nat | i < |all| && j < |all| ensures AcceptedInOrder(all, i, j) {
      assert i < |acks| ==> AckOk(acks[i], fifo, lastAcked, accepted, high, n);
      assert i < |acks| && j < |acks| ==> AcceptedInOrder(acks, i, j);
    }
  }

  lemma AcksAllowHigher(acks: seq<Ack>, fifo: bool, lastAcked: nat, accepted: nat, high: nat, high': nat, n: nat)
    requires AcksOk(acks, fifo, lastAcked, accepted, high, n) && high <= high'
    ensures AcksOk(acks, fifo, lastAcked, accepted, high', n)
  {
    forall k: nat | k < |acks| ensures AckOk(acks[k], fifo, lastAcked, accepted, high', n) {
      assert AckOk(acks[k], fifo, lastAcked, accepted, high, n);
    }
  }

  // ---------------------------------------------------------------------- steps

  lemma SenderTransmits(c: Config, s: State, snd: Sender)
    requires c.fifo ==> SpanOk(snd.lastAcked, s.high, |c.packets|)
    requires c.fifo ==> |c.packets| <= Limit(c.fifo) || snd.cwnd <= M - 1
    requires snd.cwnd >= 1 && snd.ssthresh >= 1 && !snd.done && snd.lastAcked < |c.packets|
    requires snd.cwnd <= snd.lastAcked + 1 && (snd.cwnd >= M ==> snd.lastAcked >= M)
    requires snd.lastAcked <= s.accepted <= s.high <= |c.packets|
    requires snd.lastAcked == 0 ==> snd.cwnd == 1 && s.high == 1
    ensures SenderOk(c, Transmit(c, s, SendNextWindow(snd, |c.packets|)))
  {
  }

  /** The sender, with its new window not yet computed, transmits. */
  lemma TransmitKeepsInv(c: Config, s: State, snd: Sender)
    requires Fits(c) && ReceiverOk(c, s)
    requires c.fifo ==> DataOk(s.data, s.accepted, s.high, |c.packets|) && SpanOk(snd.lastAcked, s.high, |c.packets|)
    requires c.fifo ==> |c.packets| <= Limit(c.fifo) || snd.cwnd <= M - 1
    requires AcksOk(s.acks, c.fifo, snd.lastAcked, s.accepted, s.high, |c.packets|)
    requires snd.cwnd >= 1 && snd.ssthresh >= 1 && !snd.done && snd.lastAcked < |c.packets|
    requires snd.cwnd <= snd.lastAcked + 1 && (snd.cwnd >= M ==> snd.lastAcked >= M)
    requires snd.lastAcked <= s.accepted <= s.high <= |c.packets|
    requires snd.lastAcked == 0 ==> snd.cwnd == 1 && s.high == 1
    ensures Inv(c, Transmit(c, s, SendNextWindow(snd, |c.packets|)))
  {
    var snd' := SendNextWindow(snd, |c.packets|);
    var high := Larger(s.high, snd'.lastSent);
    SenderTransmits(c, s, snd);
    AcksAllowHigher(s.acks, c.fifo, snd.lastAcked, s.accepted, s.high, high, |c.packets|);
    if c.fifo {
      DataAfterBurst(s.data, s.accepted, s.high, snd.lastAcked + 1, snd'.lastSent, high, |c.packets|);
    }
  }

  /** A finished sender that starts again has nothing to send. */
  lemma FinishedSendsNothing(c: Config, s: State)
    requires SenderKept(c, s) && s.snd.done
    ensures var snd := StartSlowAgain(s.snd).(lastSent := |c.packets|);
      Transmit(c, s, SendNextWindow(StartSlowAgain(s.snd), |c.packets|)) == s.(snd := snd)
  {
    assert s.data + [] == s.data;
  }

  lemma KeepsTimeout(c: Config, s: State, s': State)
    requires Inv(c, s) && Timeout(c, s, s')
    ensures Inv(c, s')
  {
    if s.snd.done {
      FinishedSendsNothing(c, s);
    } else {
      TransmitKeepsInv(c, s, StartSlowAgain(s.snd));
    }
  }

  /** The sender when the last acknowledgement of a window has arrived. */
  function AfterWindow(s: Sender): Sender {
    s.(lastAcked := s.lastAcked + 1, cwnd := GrowWindow(s.cwnd, s.ssthresh))
  }

  lemma LastOfWindowSends(c: Config, s: State, s': State)
    requires AckArrives(c, s, s') && s.acks[0].id == (s.snd.lastAcked + 1) % M
    requires s.acks[0].id == s.snd.lastSent % M && s.snd.lastAcked + 1 != |c.packets|
    ensures s' == Transmit(c, s.(acks := s.acks[1..]), SendNextWindow(AfterWindow(s.snd), |c.packets|))
  {
  }

  /** The acknowledgement that completes the window: the next one is sent. */
  lemma KeepsLastOfWindow(c: Config, s: State, s': State)
    requires Inv(c, s) && WindowOk(c, s') && !s.snd.done && s.acks != []
    requires s' == Transmit(c, s.(acks := s.acks[1..]), SendNextWindow(AfterWindow(s.snd), |c.packets|))
    requires s.acks[0].index == s.snd.lastAcked + 1 == s.snd.lastSent && s.snd.lastAcked + 1 != |c.packets|
    ensures Inv(c, s')
  {
    AcksAfterHead(s.acks, c.fifo, s.snd.lastAcked, s.accepted, s.high, |c.packets|);
    TransmitKeepsInv(c, s.(acks := s.acks[1..]), AfterWindow(s.snd));
  }

  lemma InsideWindowCounts(c: Config, s: State, s': State)
    requires AckArrives(c, s, s') && !s.snd.done && s.acks[0].id == (s.snd.lastAcked + 1) % M
    requires s.acks[0].id == s.snd.lastSent % M <==> s.snd.lastAcked + 1 == s.snd.lastSent
    requires s.snd.lastAcked + 1 == s.snd.lastSent ==> s.snd.lastAcked + 1 == |c.packets|
    ensures s' == s.(acks := s.acks[1..],
                     snd := s.snd.(lastAcked := s.snd.lastAcked + 1, done := s.snd.lastAcked + 1 == s.snd.lastSent))
  {
  }

  /** Any other acknowledgement in order. */
  lemma KeepsInsideWindow(c: Config, s: State, s': State)
    requires Inv(c, s) && !s.snd.done && s.acks != [] && s.acks[0].index == s.snd.lastAcked + 1
    requires s.snd.lastAcked + 1 == s.snd.lastSent ==> s.snd.lastAcked + 1 == |c.packets|
    requires s' == s.(acks := s.acks[1..],
                     snd := s.snd.(lastAcked := s.snd.lastAcked + 1, done := s.snd.lastAcked + 1 == s.snd.lastSent))
    ensures Inv(c, s')
  {
    AcksAfterHead(s.acks, c.fifo, s.snd.lastAcked, s.accepted, s.high, |c.packets|);
  }

  lemma KeepsInOrderAck(c: Config, s: State, s': State)
    requires Inv(c, s) && AckArrives(c, s, s') && WindowOk(c, s')
    requires s.acks[0].id == (s.snd.lastAcked + 1) % M
    ensures Inv(c, s')
  {
    AckComparisonsAgree(c, s);
    if s.snd.lastAcked + 1 == s.snd.lastSent && s.snd.lastAcked + 1 != |c.packets| {
      LastOfWindowSends(c, s, s');
      KeepsLastOfWindow(c, s, s');
    } else {
      InsideWindowCounts(c, s, s');
      KeepsInsideWindow(c, s, s');
    }
  }

  lemma OtherAckSends(c: Config, s: State, s': State)
    requires AckArrives(c, s, s') && s.acks[0].id != (s.snd.lastAcked + 1) % M
    ensures var s1 := s.(acks := s.acks[1..]);
      s' == if s.acks[0].id > (s.snd.lastAcked + 1) % M
            then Transmit(c, s1, SendNextWindow(StartSlowAgain(s.snd), |c.packets|)) else s1
  {
  }

  /** An acknowledgement for a later packet restarts the slow start. */
  lemma KeepsOtherAck(c: Config, s: State, s': State)
    requires Inv(c, s) && s.acks != []
    requires var s1 := s.(acks := s.acks[1..]);
      s' == s1 || s' == Transmit(c, s1, SendNextWindow(StartSlowAgain(s.snd), |c.packets|))
    ensures Inv(c, s')
  {
    var s1 := s.(acks := s.acks[1..]);
    AcksAfterHead(s.acks, c.fifo, s.snd.lastAcked, s.accepted, s.high, |c.packets|);
    if s' != s1 {
      KeepsTimeout(c, s1, s');
    }
  }

  lemma KeepsAckArrives(c: Config, s: State, s': State)
    requires Inv(c, s) && AckArrives(c, s, s') && WindowOk(c, s')
    ensures Inv(c, s')
  {
    if s.acks[0].id == (s.snd.lastAcked + 1) % M {
      KeepsInOrderAck(c, s, s');
    } else {
      OtherAckSends(c, s, s');
      KeepsOtherAck(c, s, s');
    }
  }

  lemma KeepsLoseAck(c: Config, s: State, s': State, k: nat)
    requires Inv(c, s) && LoseAck(s, s', k)
    ensures Inv(c, s')
  {
    AcksAfterRemoving(s.acks, k, c.fifo, s.snd.lastAcked, s.accepted, s.high, |c.packets|);
  }

  lemma KeepsLoseData(c: Config, s: State, s': State, k: nat)
    requires Inv(c, s) && LoseData(s, s', k)
    ensures Inv(c, s')
  {
    if c.fifo {
      DataAfterRemoving(s.data, k, s.accepted, s.high, |c.packets|);
    }
  }

  predicate NotEmpty(p: Packet) {
    |p.body| > 0
  }

  /** If all data packets joined are the message, fewer are less. */
  lemma JoinedPart(ps: seq<Packet>, msg: Bytes, r: nat)
    requires 1 <= r <= |ps| && Joined(ps[1..]) == msg
    requires forall j: nat {:trigger ps[j]} :: 1 <= j < |ps| ==> NotEmpty(ps[j])
    ensures |Joined(ps[1..r])| == |msg| <==> r == |ps|
    ensures r == |ps| ==> Joined(ps[1..r]) == msg
  {
    if r < |ps| {
      JoinedGrows(ps[1..], r - 1);
      assert ps[1..][..r - 1] == ps[1..r];
    } else {
      assert ps[1..r] == ps[1..];
    }
  }

  lemma JoinedPrefix(c: Config, r: nat)
    requires ValidConfig(c) && 1 <= r <= |c.packets|
    ensures |Joined(c.packets[1..r])| == |c.msg| <==> r == |c.packets|
    ensures r == |c.packets| ==> Joined(c.packets[1..r]) == c.msg
  {
    PacketizeRoundTrip(c.msg, c.packetSize);
    forall j: nat | 1 <= j < |c.packets| ensures NotEmpty(c.packets[j]) {
      PacketAt(c.msg, c.packetSize, j + 1);
    }
    JoinedPart(c.packets, c.msg, r);
  }

  /** One more accepted packet, at the receiver. */
  lemma JoinedNext(ps: seq<Packet>, r: nat)
    requires 1 <= r < |ps|
    ensures Joined(ps[1..r + 1]) == Joined(ps[1..r]) + ps[r].body
  {
    assert ps[1..r + 1][..r - 1 + 1 - 1] == ps[1..r];
    assert ps[1..r + 1] == ps[1..r] + [ps[r]];
  }

  lemma MessageHasData(c: Config)
    requires ValidConfig(c)
    ensures |c.packets| >= 2
  {
    JoinedPrefix(c, 1);
    assert Joined(c.packets[1..1]) == [];
  }

  /** The next packet is kept; the last one completes the message. After that the
      receiver is as at first, except that a last packet with the id 1 is counted
      as the first one of the next message. */
  lemma ReceiveInOrder(c: Config, rcv: Receiver, r: nat)
    requires ValidConfig(c) && Holding(c, rcv, r) && r < |c.packets|
    ensures var (rcv', file) := HandleData(rcv, c.packets[r]);
      if r + 1 == |c.packets| then
        file == Some(c.msg) && rcv' == Receiver([], 0, 0, if |c.packets| % M == 1 then 1 else 0)
      else file.None? && Holding(c, rcv', r + 1)
  {
    var ps := c.packets;
    PacketAt(c.msg, c.packetSize, r + 1);
    MessageHasData(c);
    assert ps[..r] + [ps[r]] == ps[..r + 1];
    if r == 0 {
      HeaderRoundTrip(|c.msg|);
      ModSmall(1, M);
      assert Joined(ps[1..1]) == [];
    } else {
      JoinedNext(ps, r);
      JoinedPrefix(c, r + 1);
      assert ps[..r + 1][1..] == ps[1..r + 1];
      assert (ps[..r] + [ps[r]])[1..] == ps[1..r + 1];
      ModSmall(1, M);
    }
  }

  /** A packet with another id changes nothing, unless it is taken for a header. */
  lemma ReceiveOther(c: Config, rcv: Receiver, r: nat, i: nat)
    requires ValidConfig(c) && Holding(c, rcv, r) && 1 <= i <= |c.packets| && i % M != (r + 1) % M
    requires r == 0 ==> |c.packets[i - 1].body| != HEADER_SIZE
    ensures HandleData(rcv, c.packets[i - 1]) == (rcv, None)
  {
    PacketAt(c.msg, c.packetSize, i);
  }

  /** What a delivery does to the receiver's side. */
  lemma DeliverReceives(c: Config, s: State, s': State, i: nat)
    requires ValidConfig(c) && Inv(c, s) && Deliver(c, s, s', i)
    ensures ReceiverOk(c, s')
    ensures s'.accepted == if s.files == [] && i == s.accepted + 1 then i else s.accepted
  {
    if s.files == [] {
      DataComparisonAgrees(c, s, i);
      if i == s.accepted + 1 {
        ReceiveInOrder(c, s.rcv, s.accepted);
      } else {
        ReceiveOther(c, s.rcv, s.accepted, i);
      }
    }
  }

  lemma KeepsDeliver(c: Config, s: State, s': State, i: nat)
    requires ValidConfig(c) && Inv(c, s) && Deliver(c, s, s', i)
    ensures Inv(c, s')
  {
    DeliverReceives(c, s, s', i);
    PacketAt(c.msg, c.packetSize, i);
    if c.fifo {
      assert ItemOk(s.data[0], s.accepted, s.high, |c.packets|);
      DeliverKeepsData(s.data, s.accepted, s'.accepted, s.high, |c.packets|);
    }
    AcksAfterSending(s.acks, s'.acks[|s.acks|], c.fifo, s.snd.lastAcked, s.accepted, s'.accepted, s.high,
      |c.packets|);
  }

  lemma DeliverKeepsData(data: seq<Item>, accepted: nat, accepted': nat, high: nat, n: nat)
    requires DataOk(data, accepted, high, n) && data != []
    requires accepted' == accepted || accepted' == data[0].index
    ensures DataOk(data[1..], accepted', high, n)
  {
    DataAfterRemoving(data, 0, accepted, high, n);
    assert data[..0] + data[0 + 1..] == data[1..];
    assert ItemOk(data[0], accepted, high, n);
    forall k: nat | k < |data[1..]| ensures ItemOk(data[1..][k], accepted', high, n) {
      assert HighsInOrder(data, 0, k + 1) && ItemOk(data[k + 1], accepted, high, n);
    }
  }

  lemma InitGivesInv(c: Config, s: State)
    requires ValidConfig(c) && Fits(c) && Init(c, s)
    ensures Inv(c, s)
  {
    MessageHasData(c);
    assert c.packets[..0] == [];
  }

  lemma NextKeepsInv(c: Config, s: State, s': State)
    requires ValidConfig(c) && Inv(c, s) && Next(c, s, s') && WindowOk(c, s')
    ensures Inv(c, s')
  {
    if Timeout(c, s, s') {
      KeepsTimeout(c, s, s');
    } else if AckArrives(c, s, s') {
      KeepsAckArrives(c, s, s');
    } else if k: nat :| LoseAck(s, s', k) {
      KeepsLoseAck(c, s, s', k);
    } else if k: nat :| LoseData(s, s', k) {
      KeepsLoseData(c, s, s', k);
    } else {
      var i: nat :| Deliver(c, s, s', i);
      KeepsDeliver(c, s, s', i);
    }
  }

  lemma {:induction false} RunKeepsInv(c: Config, run: seq<State>, i: nat)
    requires IsRun(c, run) && IdsSuffice(c, run) && i < |run|
    ensures Inv(c, run[i])
  {
    if i == 0 {
      InitGivesInv(c, run[0]);
    } else {
      RunKeepsInv(c, run, i - 1);
      assert StepAt(c, run, i - 1);
      NextKeepsInv(c, run[i - 1], run[i]);
    }
  }

  // ------------------------------------- what holds for transfers of any length

  /** Only sent packets are on their way. */
  ghost predicate ItemsSent(data: seq<Item>, high: nat) {
    forall k: nat {:trigger data[k]} :: k < |data| ==> 1 <= data[k].index <= high
  }

  /** No acknowledgement carries the id that the receiver expected when it sent it. */
  predicate AckEchoes(ack: Ack, lastAcked: nat, accepted: nat) {
    lastAcked <= ack.accepted <= accepted && ack.id != (ack.accepted + 1) % M
  }

  ghost predicate AcksEcho(acks: seq<Ack>, lastAcked: nat, accepted: nat) {
    && (forall k: nat {:trigger acks[k]} :: k < |acks| ==> AckEchoes(acks[k], lastAcked, accepted))
    && (forall j: nat, k: nat {:trigger AcceptedInOrder(acks, j, k)} ::
          j < |acks| && k < |acks| ==> AcceptedInOrder(acks, j, k))
  }

  /** Until the first completion the receiver counts what it accepts. */
  ghost predicate CountsKept(s: State) {
    s.files == [] ==>
      && s.rcv.lastAcked == s.accepted == |s.rcv.inBuffer| && (s.accepted == 0 ==> s.rcv.bytes == 0)
      && s.snd.lastAcked <= s.accepted && AcksEcho(s.acks, s.snd.lastAcked, s.accepted)
  }

  ghost predicate Early(c: Config, s: State) {
    SenderKept(c, s) && CountsKept(s) && (c.fifo ==> ItemsSent(s.data, s.high))
  }

  lemma EchoesAfterRemoving(acks: seq<Ack>, k: nat, lastAcked: nat, accepted: nat)
    requires AcksEcho(acks, lastAcked, accepted) && k < |acks|
    ensures AcksEcho(acks[..k] + acks[k + 1..], lastAcked, accepted)
  {
    var rest := acks[..k] + acks[k + 1..];
    forall i: nat, j: nat | i < |rest| && j < |rest| ensures AcceptedInOrder(rest, i, j) {
      assert AcceptedInOrder(acks, if i < k then i else i + 1, if j < k then j else j + 1);
    }
  }

  lemma EchoesAfterHead(acks: seq<Ack>, lastAcked: nat, accepted: nat)
    requires AcksEcho(acks, lastAcked, accepted) && acks != []
    ensures AcksEcho(acks[1..], lastAcked, accepted)
    ensures acks[0].id == (lastAcked + 1) % M ==> AcksEcho(acks[1..], lastAcked + 1, accepted) && lastAcked < accepted
  {
    EchoesAfterRemoving(acks, 0, lastAcked, accepted);
    assert acks[..0] + acks[0 + 1..] == acks[1..];
    assert AckEchoes(acks[0], lastAcked, accepted);
    if acks[0].id == (lastAcked + 1) % M {
      forall k: nat | k < |acks[1..]| ensures AckEchoes(acks[1..][k], lastAcked + 1, accepted) {
        assert AcceptedInOrder(acks, 0, k + 1);
        assert acks[1..][k] == acks[k + 1];
      }
    }
  }

  lemma EchoesAfterSending(acks: seq<Ack>, ack: Ack, lastAcked: nat, accepted: nat, accepted': nat)
    requires AcksEcho(acks, lastAcked, accepted) && accepted <= accepted'
    requires AckEchoes(ack, lastAcked, accepted') && ack.accepted == accepted'
    ensures AcksEcho(acks + [ack], lastAcked, accepted')
  {
    var all := acks + [ack];
    forall k: nat | k < |all| ensures AckEchoes(all[k], lastAcked, accepted') {
      assert k < |acks| ==> all[k] == acks[k] && AckEchoes(acks[k], lastAcked, accepted);
    }
    forall i: nat, j: nat | i < |all| && j < |all| ensures AcceptedInOrder(all, i, j) {
      assert i < |acks| ==> AckEchoes(acks[i], lastAcked, accepted);
      assert i < |acks| && j < |acks| ==> AcceptedInOrder(acks, i, j);
    }
  }

  /** The sender, with its window not yet computed, transmits, or is finished. */
  lemma TransmitKeepsEarly(c: Config, s: State, snd: Sender)
    requires CountsKept(s.(snd := snd)) && (c.fifo ==> ItemsSent(s.data, s.high))
    requires snd.lastAcked <= s.high <= |c.packets|
    requires snd.cwnd >= 1 && snd.ssthresh >= 1 && snd.lastAcked <= |c.packets|
    requires snd.done <==> snd.lastAcked == |c.packets|
    requires snd.lastAcked == 0 ==> snd.cwnd == 1 && s.high == 1
    ensures Early(c, Transmit(c, s, SendNextWindow(snd, |c.packets|)))
  {
    var s' := Transmit(c, s, SendNextWindow(snd, |c.packets|));
    if c.fifo {
      forall k: nat | k < |s'.data| ensures 1 <= s'.data[k].index <= s'.high {
        assert k < |s.data| ==> s'.data[k] == s.data[k];
      }
    }
  }

  lemma EarlyTimeout(c: Config, s: State, s': State)
    requires Early(c, s) && Timeout(c, s, s')
    ensures Early(c, s')
  {
    TransmitKeepsEarly(c, s, StartSlowAgain(s.snd));
  }

  lemma EarlyOtherAck(c: Config, s1: State, s': State)
    requires Early(c, s1)
    requires s' == s1 || s' == Transmit(c, s1, SendNextWindow(StartSlowAgain(s1.snd), |c.packets|))
    ensures Early(c, s')
  {
    if s' != s1 {
      EarlyTimeout(c, s1, s');
    }
  }

  lemma EarlyAckArrives(c: Config, s: State, s': State)
    requires Early(c, s) && AckArrives(c, s, s')
    ensures Early(c, s')
  {
    var s1 := s.(acks := s.acks[1..]);
    if s.files == [] {
      EchoesAfterHead(s.acks, s.snd.lastAcked, s.accepted);
    }
    if s.acks[0].id != (s.snd.lastAcked + 1) % M {
      OtherAckSends(c, s, s');
      EarlyOtherAck(c, s1, s');
    } else if s.acks[0].id == s.snd.lastSent % M && s.snd.lastAcked + 1 != |c.packets| {
      EarlyNextWindow(c, s, s');
    } else {
      EarlyInsideWindow(c, s, s');
    }
  }

  lemma EarlyNextWindow(c: Config, s: State, s': State)
    requires Early(c, s) && AckArrives(c, s, s') && s.acks[0].id == (s.snd.lastAcked + 1) % M
    requires s.acks[0].id == s.snd.lastSent % M && s.snd.lastAcked + 1 != |c.packets|
    requires s.files == [] ==>
      AcksEcho(s.acks[1..], s.snd.lastAcked + 1, s.accepted) && s.snd.lastAcked < s.accepted
    ensures Early(c, s')
  {
    LastOfWindowSends(c, s, s');
    TransmitKeepsEarly(c, s.(acks := s.acks[1..]), AfterWindow(s.snd));
  }

  lemma EarlyInsideWindow(c: Config, s: State, s': State)
    requires Early(c, s) && !s.snd.done && AckArrives(c, s, s') && s.acks[0].id == (s.snd.lastAcked + 1) % M
    requires s.acks[0].id == s.snd.lastSent % M ==> s.snd.lastAcked + 1 == |c.packets|
    requires s.files == [] ==>
      AcksEcho(s.acks[1..], s.snd.lastAcked + 1, s.accepted) && s.snd.lastAcked < s.accepted
    ensures Early(c, s')
  {
  }

  lemma EarlyLoses(c: Config, s: State, s': State, k: nat)
    requires Early(c, s) && (LoseAck(s, s', k) || LoseData(s, s', k))
    ensures Early(c, s')
  {
    if LoseAck(s, s', k) && s.files == [] {
      EchoesAfterRemoving(s.acks, k, s.snd.lastAcked, s.accepted);
    }
  }

  /** Until then exactly a packet with the expected id is accepted and counted. */
  lemma CountsOne(c: Config, rcv: Receiver, i: nat)
    requires ValidConfig(c) && 1 <= i <= |c.packets| && rcv.lastAcked == |rcv.inBuffer|
    requires rcv.inBuffer == [] ==> rcv.bytes == 0 && i == 1
    ensures var (rcv', file) := HandleData(rcv, c.packets[i - 1]);
      if i % M == (rcv.lastAcked + 1) % M then
        file.None? ==> rcv'.lastAcked == |rcv'.inBuffer| == rcv.lastAcked + 1
      else file.None? && rcv' == rcv
  {
    PacketAt(c.msg, c.packetSize, i);
    ModSmall(1, M);
  }

  lemma EarlyDeliver(c: Config, s: State, s': State, i: nat)
    requires ValidConfig(c) && Early(c, s) && Deliver(c, s, s', i)
    ensures Early(c, s')
  {
    if s.files == [] {
      assert 1 <= i <= s.high;
      CountsOne(c, s.rcv, i);
      PacketAt(c.msg, c.packetSize, i);
      if s'.files == [] {
        NextIdDiffers(s.accepted + 1);
        EchoesAfterSending(s.acks, s'.acks[|s.acks|], s.snd.lastAcked, s.accepted, s'.accepted);
      }
    }
  }

  lemma NextIdDiffers(x: nat)
    ensures x % M != (x + 1) % M
  {
    if x % M == (x + 1) % M {
      WindowUnique(x, x + 1, M);
    }
  }

  lemma NextKeepsEarly(c: Config, s: State, s': State)
    requires ValidConfig(c) && Early(c, s) && Next(c, s, s')
    ensures Early(c, s')
  {
    if Timeout(c, s, s') {
      EarlyTimeout(c, s, s');
    } else if AckArrives(c, s, s') {
      EarlyAckArrives(c, s, s');
    } else if k: nat :| LoseAck(s, s', k) || LoseData(s, s', k) {
      EarlyLoses(c, s, s', k);
    } else {
      var i: nat :| Deliver(c, s, s', i);
      EarlyDeliver(c, s, s', i);
    }
  }

  lemma {:induction false} RunKeepsEarly(c: Config, run: seq<State>, i: nat)
    requires IsRun(c, run) && i < |run|
    ensures Early(c, run[i])
  {
    if i == 0 {
      MessageHasData(c);
    } else {
      RunKeepsEarly(c, run, i - 1);
      assert StepAt(c, run, i - 1);
      NextKeepsEarly(c, run[i - 1], run[i]);
    }
  }

  // --------------------------------------------------------------- main results

  /** Until the message is complete the receiver's buffer is a prefix of the
      sender's packets, the header first. */
  lemma BufferIsPrefix(c: Config, run: seq<State>, i: nat)
    requires IsRun(c, run) && IdsSuffice(c, run) && i < |run| && run[i].files == []
    ensures run[i].rcv.inBuffer <= c.packets && |run[i].rcv.inBuffer| == run[i].accepted == run[i].rcv.lastAcked
    ensures run[i].rcv.inBuffer != [] ==>
      run[i].rcv.inBuffer[0] == Packet(1, HeaderBody(|c.msg|)) && run[i].rcv.size == |c.msg|
  {
    RunKeepsInv(c, run, i);
    assert c.packets[0] == Packetized(c.msg, c.packetSize)[0];
  }

  /** The file written is the message that was cut into packets. */
  lemma FileIsMessage(c: Config, run: seq<State>, i: nat)
    requires IsRun(c, run) && IdsSuffice(c, run) && i < |run| && run[i].files != []
    ensures run[i].files[0] == c.msg && run[i].accepted == |c.packets|
  {
    RunKeepsInv(c, run, i);
  }

  /** The sender never counts a packet as acknowledged that was not accepted, although
      discarded packets are acknowledged too: before the first completion in every
      transfer, and for good within the limit. */
  lemma AckedMeansAccepted(c: Config, run: seq<State>, i: nat)
    requires IsRun(c, run) && i < |run|
    ensures run[i].files == [] ==> run[i].snd.lastAcked <= run[i].accepted
    ensures IdsSuffice(c, run) ==> run[i].snd.lastAcked <= run[i].accepted <= run[i].high <= |c.packets|
  {
    RunKeepsEarly(c, run, i);
    if IdsSuffice(c, run) {
      RunKeepsInv(c, run, i);
    }
  }

  /** The sender finishes only after the receiver has written the file. */
  lemma SenderFinishesLast(c: Config, run: seq<State>, i: nat)
    requires IsRun(c, run) && IdsSuffice(c, run) && i < |run| && run[i].snd.done
    ensures run[i].files != [] && run[i].files[0] == c.msg
  {
    RunKeepsInv(c, run, i);
  }

  /** Between two handler calls of an unfinished transfer something is outstanding,
      and no more than the window allows. */
  lemma WindowIsKept(c: Config, run: seq<State>, i: nat)
    requires IsRun(c, run) && i < |run| && !run[i].snd.done
    ensures var s := run[i].snd;
      && s.lastAcked < s.lastSent <= Smaller(s.lastAcked + s.cwnd, |c.packets|)
      && s.cwnd >= 1 && s.ssthresh >= 1
  {
    RunKeepsEarly(c, run, i);
  }

  /** In this state comparing ids decides like comparing packet numbers: whether the
      next acknowledgement is in order and ends the window, and whether a data packet
      that may arrive is the next one. */
  ghost predicate DecidesLikeNumbers(c: Config, s: State) {
    && (!s.snd.done && s.acks != [] ==>
          && (s.acks[0].id == (s.snd.lastAcked + 1) % M <==> s.acks[0].index == s.snd.lastAcked + 1)
          && ((s.snd.lastAcked + 1) % M == s.snd.lastSent % M <==> s.snd.lastAcked + 1 == s.snd.lastSent))
    && forall k: nat {:trigger Arrives(c, s, k)} :: Arrives(c, s, k) && 1 <= k <= |c.packets| && s.files == [] ==>
         (k % M == (s.rcv.lastAcked + 1) % M <==> k == s.rcv.lastAcked + 1)
  }

  lemma IdsDecideLikeNumbers(c: Config, run: seq<State>, i: nat)
    requires IsRun(c, run) && IdsSuffice(c, run) && i < |run|
    ensures DecidesLikeNumbers(c, run[i])
  {
    var s := run[i];
    RunKeepsInv(c, run, i);
    if !s.snd.done && s.acks != [] {
      AckComparisonsAgree(c, s);
    }
    forall k: nat | Arrives(c, s, k) && 1 <= k <= |c.packets| && s.files == []
      ensures k % M == (s.rcv.lastAcked + 1) % M <==> k == s.rcv.lastAcked + 1
    {
      DataComparisonAgrees(c, s, k);
    }
  }

  /** The ids tell the packets of a window apart from the one the receiver expects,
      whatever it has accepted of the window, exactly when the window is smaller
      than the number of ids. */
  lemma WindowLimit(a: nat, w: nat)
    ensures w <= M - 1 <==>
      forall i: nat, r: nat {:trigger i % M, r % M} ::
        a < i <= a + w && a < r <= a + w + 1 ==> (i % M == r % M <==> i == r)
  {
    if w <= M - 1 {
      forall i: nat, r: nat | a < i <= a + w && a < r <= a + w + 1 ensures i % M == r % M <==> i == r {
        if i % M == r % M {
          WindowUnique(i, r, M);
        }
      }
    } else {
      ModShift(a + 1, 1, M);
      assert (a + 1 + M) % M == (a + 1) % M;
    }
  }

  // ------------------------------------------------- slow start, over many windows

  /** The window after k more completed windows. */
  function GrownBy(cwnd: nat, ssthresh: nat, k: nat): nat {
    if k == 0 then cwnd else GrowWindow(GrownBy(cwnd, ssthresh, k - 1), ssthresh)
  }

  function Power2(k: nat): (p: nat)
    ensures p > k
  {
    if k == 0 then 1 else 2 * Power2(k - 1)
  }

  /** Below the threshold and the cap the window doubles with every window. */
  lemma {:induction false} SlowStartDoubles(ssthresh: nat, k: nat)
    requires Power2(k) <= M && (k > 0 ==> Power2(k - 1) < ssthresh)
    ensures GrownBy(1, ssthresh, k) == Power2(k)
  {
    if k > 0 {
      if k > 1 {
        assert Power2(k - 1) == 2 * Power2(k - 2);
      }
      SlowStartDoubles(ssthresh, k - 1);
    }
  }

  /** From the threshold on it grows by one with every window. */
  lemma {:induction false} AvoidanceAddsOne(cwnd: nat, ssthresh: nat, k: nat)
    requires cwnd >= ssthresh
    ensures GrownBy(cwnd, ssthresh, k) == cwnd + k
  {
    if k > 0 {
      AvoidanceAddsOne(cwnd, ssthresh, k - 1);
    }
  }

  lemma {:induction false} GrownByAdds(cwnd: nat, ssthresh: nat, j: nat, k: nat)
    ensures GrownBy(cwnd, ssthresh, j + k) == GrownBy(GrownBy(cwnd, ssthresh, j), ssthresh, k)
  {
    if k > 0 {
      GrownByAdds(cwnd, ssthresh, j, k - 1);
    }
  }

  /** After a restart with window w, the window doubles until it reaches half of w,
      and from then on grows by one. */
  lemma RestartThenAvoidance(s: Sender, j: nat, k: nat)
    requires Power2(j) <= M && Power2(j) >= Larger(s.cwnd / 2, 1) && (j > 0 ==> Power2(j - 1) < Larger(s.cwnd / 2, 1))
    ensures var r := StartSlowAgain(s);
      && GrownBy(r.cwnd, r.ssthresh, j) == Power2(j)
      && GrownBy(r.cwnd, r.ssthresh, j + k) == Power2(j) + k
  {
    var r := StartSlowAgain(s);
    SlowStartDoubles(r.ssthresh, j);
    GrownByAdds(1, r.ssthresh, j, k);
    AvoidanceAddsOne(Power2(j), r.ssthresh, k);
  }

  // ------------------------------------------------------------------- progress

  /** Some continuation leads from s to the sender's completion. */
  ghost predicate CanFinish(c: Config, s: State) {
    exists t: State :: LeadsTo(c, s, t) && t.snd.done
  }

  lemma TimeoutOnce(c: Config, first: State, s: State) returns (s': State)
    requires LeadsTo(c, first, s)
    requires Early(c, s) && !s.snd.done && s.acks == [] && (c.fifo ==> s.data == [])
    ensures LeadsTo(c, first, s') && Early(c, s')
    ensures s'.snd.cwnd == 1 && s'.snd.lastSent == s.snd.lastAcked + 1 && s'.snd.lastAcked == s.snd.lastAcked
    ensures !s'.snd.done && s'.acks == [] && (c.fifo ==> s'.data == [Item(s.snd.lastAcked + 1, s'.high)])
  {
    s' := Transmit(c, s, SendNextWindow(StartSlowAgain(s.snd), |c.packets|));
    assert Timeout(c, s, s');
    EarlyTimeout(c, s, s');
    LeadsToNext(c, first, s, s');
  }

  lemma DeliveredOnce(c: Config, first: State, s: State) returns (s': State)
    requires LeadsTo(c, first, s)
    requires ValidConfig(c) && Early(c, s) && !s.snd.done && s.acks == []
    requires s.snd.lastSent == s.snd.lastAcked + 1
    requires c.fifo ==> s.data == [Item(s.snd.lastAcked + 1, s.high)]
    ensures LeadsTo(c, first, s') && Early(c, s') && s'.snd == s.snd
    ensures |s'.acks| == 1 && s'.acks[0].id == (s.snd.lastAcked + 1) % M
  {
    var i := s.snd.lastAcked + 1;
    s' := AfterDelivery(c, s, i);
    assert Deliver(c, s, s', i);
    EarlyDeliver(c, s, s', i);
    LeadsToNext(c, first, s, s');
    PacketAt(c.msg, c.packetSize, i);
  }

  lemma AckedOnce(c: Config, first: State, s: State) returns (s': State)
    requires LeadsTo(c, first, s)
    requires Early(c, s) && !s.snd.done && |s.acks| == 1 && s.snd.cwnd == 1
    requires s.acks[0].id == (s.snd.lastAcked + 1) % M && s.snd.lastSent == s.snd.lastAcked + 1
    ensures LeadsTo(c, first, s') && Early(c, s') && s'.snd.lastAcked == s.snd.lastAcked + 1
  {
    s' := AfterAck(c, s);
    assert AckArrives(c, s, s');
    EarlyAckArrives(c, s, s');
    LeadsToNext(c, first, s, s');
  }

  /** Emptying the channels: one more element is lost. */
  lemma LoseOne(c: Config, first: State, s: State) returns (s': State)
    requires LeadsTo(c, first, s)
    requires Early(c, s) && (s.acks != [] || (c.fifo && s.data != []))
    ensures LeadsTo(c, first, s') && Early(c, s')
    ensures s'.snd == s.snd && |s'.acks| + |s'.data| < |s.acks| + |s.data|
  {
    if s.acks != [] {
      s' := s.(acks := s.acks[..0] + s.acks[0 + 1..]);
      assert LoseAck(s, s', 0);
      EarlyLoses(c, s, s', 0);
    } else {
      s' := s.(data := s.data[..0] + s.data[0 + 1..]);
      assert LoseData(s, s', 0);
      EarlyLoses(c, s, s', 0);
    }
    LeadsToNext(c, first, s, s');
  }

  /** With empty channels one timeout gets one more packet acknowledged: it is sent
      again, delivered, and acknowledged, whether it had been accepted or not. */
  lemma OneMoreAcked(c: Config, first: State, s: State) returns (s': State)
    requires ValidConfig(c) && Early(c, s) && !s.snd.done && s.acks == [] && (c.fifo ==> s.data == [])
    requires LeadsTo(c, first, s)
    ensures Early(c, s') && s'.snd.lastAcked == s.snd.lastAcked + 1 && LeadsTo(c, first, s')
  {
    var s1 := TimeoutOnce(c, first, s);
    var s2 := DeliveredOnce(c, first, s1);
    s' := AckedOnce(c, first, s2);
  }

  lemma AckedAtMostAll(c: Config, s: State)
    requires Early(c, s)
    ensures s.snd.lastAcked <= |c.packets|
  {
  }

  lemma {:induction false} StateCanFinish(c: Config, first: State, s: State)
    requires ValidConfig(c) && Early(c, s) && LeadsTo(c, first, s)
    ensures CanFinish(c, first)
    decreases |c.packets| - s.snd.lastAcked, |s.acks| + |s.data|
  {
    AckedAtMostAll(c, s);
    if s.snd.done {
    } else if s.acks != [] || (c.fifo && s.data != []) {
      var s' := LoseOne(c, first, s);
      StateCanFinish(c, first, s');
    } else {
      var s' := OneMoreAcked(c, first, s);
      AckedAtMostAll(c, s');
      StateCanFinish(c, first, s');
    }
  }

  /** No loss, repetition, reordering or timeout leads into a dead end: from every
      reachable state the transfer can still be completed. */
  lemma TransferCanAlwaysFinish(c: Config, run: seq<State>, i: nat)
    requires IsRun(c, run) && i < |run|
    ensures CanFinish(c, run[i])
  {
    RunKeepsEarly(c, run, i);
    LeadsToItself(c, run[i]);
    StateCanFinish(c, run[i], run[i]);
  }
}
