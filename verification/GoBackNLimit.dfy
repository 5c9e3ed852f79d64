/** How many packets a transfer may have: two times the number of ids if data packets
    keep their order, as many as there are ids if they do not. Up to there ids decide
    like packet numbers in every run and the file is the message; with one packet more
    there is a run in which a packet sent again is taken for the next one. */
module GoBackNLimit {
  import opened Modular
  import opened Packets
  import opened GoBackN

  // ----------------------------------------------------------- reachable states

  ghost predicate EndsIn(c: Config, run: seq<State>, t: State) {
    IsRun(c, run) && run[|run| - 1] == t
  }

  ghost predicate Reaches(c: Config, t: State) {
    exists run: seq<State> :: EndsIn(c, run, t)
  }

  lemma ReachesNext(c: Config, t: State, t': State)
    requires Reaches(c, t) && Next(c, t, t')
    ensures Reaches(c, t')
  {
    var run :| EndsIn(c, run, t);
    var longer := run + [t'];
    forall i: nat | i + 1 < |longer| ensures StepAt(c, longer, i) {
      if i + 1 < |run| {
        assert StepAt(c, run, i);
      }
    }
    assert EndsIn(c, longer, t');
  }

  lemma ReachedKeepsInv(c: Config, t: State)
    requires Reaches(c, t) && |c.packets| <= Limit(c.fifo)
    ensures ValidConfig(c) && Inv(c, t) && DecidesLikeNumbers(c, t)
  {
    var run :| EndsIn(c, run, t);
    RunKeepsInv(c, run, |run| - 1);
    IdsDecideLikeNumbers(c, run, |run| - 1);
  }

  lemma {:induction false} LoseAllAcks(c: Config, s: State) returns (s': State)
    requires Reaches(c, s)
    ensures Reaches(c, s') && s' == s.(acks := [])
    decreases |s.acks|
  {
    if s.acks == [] {
      s' := s;
    } else {
      var t := s.(acks := s.acks[..0] + s.acks[0 + 1..]);
      assert LoseAck(s, t, 0);
      ReachesNext(c, s, t);
      s' := LoseAllAcks(c, t);
    }
  }

  lemma {:induction false} LoseAllData(c: Config, s: State) returns (s': State)
    requires Reaches(c, s)
    ensures Reaches(c, s') && s' == s.(data := [])
    decreases |s.data|
  {
    if s.data == [] {
      s' := s;
    } else {
      var t := s.(data := s.data[..0] + s.data[0 + 1..]);
      assert LoseData(s, t, 0);
      ReachesNext(c, s, t);
      s' := LoseAllData(c, t);
    }
  }

  // -------------------------------------------------------- a run without losses

  ghost predicate DataInFlight(data: seq<Item>, r: nat, last: nat) {
    |data| == last - r && forall k: nat {:trigger data[k]} :: k < |data| ==> data[k].index == r + 1 + k
  }

  ghost predicate AcksInFlight(acks: seq<Ack>, a: nat, r: nat) {
    |acks| == r - a && forall k: nat {:trigger acks[k]} :: k < |acks| ==> acks[k].id == (a + 1 + k) % M
  }

  lemma DataArrives(data: seq<Item>, r: nat, last: nat)
    requires DataInFlight(data, r, last) && r < last
    ensures data[0].index == r + 1 && DataInFlight(data[1..], r + 1, last)
  {
  }

  lemma AckIsSent(acks: seq<Ack>, a: nat, r: nat, ack: Ack)
    requires AcksInFlight(acks, a, r) && a <= r && ack.id == (r + 1) % M
    ensures AcksInFlight(acks + [ack], a, r + 1)
  {
  }

  /** Acknowledged up to a, accepted up to r, sent up to last, and nothing of it lost. */
  ghost predicate Flight(c: Config, s: State, a: nat, r: nat, last: nat) {
    && s.snd.lastAcked == a && s.snd.lastSent == last && !s.snd.done && s.snd.ssthresh >= 1
    && a <= r <= last <= s.high <= |c.packets| && a < last && r < |c.packets|
    && Holding(c, s.rcv, r) && s.files == [] && s.accepted == r
    && (if c.fifo then DataInFlight(s.data, r, last) else s.data == [])
    && AcksInFlight(s.acks, a, r)
  }

  lemma FlightStarts(c: Config) returns (s: State)
    requires ValidConfig(c)
    ensures Reaches(c, s) && Flight(c, s, 0, 0, 1) && s.snd.cwnd == 1 && s.snd.ssthresh == MAX_SSTHRESH
  {
    s := State(Sender(1, MAX_SSTHRESH, 0, 1, false), Receiver([], 0, 0, 0), 1,
               if c.fifo then [Item(1, 1)] else [], [], 0, []);
    assert EndsIn(c, [s], s);
    MessageHasData(c);
  }

  /** The next packet is delivered, and it is not the last one. */
  lemma InOrderDelivery(c: Config, s: State, r: nat)
    requires ValidConfig(c) && Holding(c, s.rcv, r) && s.files == [] && s.accepted == r && r + 1 < |c.packets|
    requires c.fifo ==> s.data != []
    ensures var s' := AfterDelivery(c, s, r + 1);
      && Holding(c, s'.rcv, r + 1)
      && s' == s.(rcv := s'.rcv, accepted := r + 1, data := if c.fifo then s.data[1..] else s.data,
                  acks := s.acks + [Ack((r + 1) % M, r + 1, r + 1)])
  {
    ReceiveInOrder(c, s.rcv, r);
    PacketAt(c.msg, c.packetSize, r + 1);
  }

  lemma FlightDelivers(c: Config, s: State, a: nat, r: nat, last: nat) returns (s': State)
    requires Reaches(c, s) && ValidConfig(c) && Flight(c, s, a, r, last) && r < last && r + 1 < |c.packets|
    ensures Reaches(c, s') && Flight(c, s', a, r + 1, last) && s'.snd == s.snd
  {
    if c.fifo {
      DataArrives(s.data, r, last);
    }
    AckIsSent(s.acks, a, r, Ack((r + 1) % M, r + 1, r + 1));
    s' := AfterDelivery(c, s, r + 1);
    InOrderDelivery(c, s, r);
    assert Deliver(c, s, s', r + 1);
    ReachesNext(c, s, s');
  }

  /** All but the last of the packets are delivered up to number `stop`. */
  lemma {:induction false} FlightDeliversTo(c: Config, s: State, a: nat, r: nat, last: nat, stop: nat)
    returns (s': State)
    requires Reaches(c, s) && ValidConfig(c) && Flight(c, s, a, r, last) && r <= stop <= last && stop < |c.packets|
    ensures Reaches(c, s') && Flight(c, s', a, stop, last) && s'.snd == s.snd
    decreases stop - r
  {
    if r == stop {
      s' := s;
    } else {
      var t := FlightDelivers(c, s, a, r, last);
      s' := FlightDeliversTo(c, t, a, r + 1, last, stop);
    }
  }

  lemma FlightAcks(c: Config, s: State, a: nat, r: nat, last: nat) returns (s': State)
    requires Reaches(c, s) && Flight(c, s, a, r, last) && a < r && a + 1 < last <= a + M
    ensures Reaches(c, s') && Flight(c, s', a + 1, r, last)
    ensures s'.snd == s.snd.(lastAcked := a + 1)
  {
    s' := AfterAck(c, s);
    assert AckArrives(c, s, s');
    ReachesNext(c, s, s');
    assert s.acks[0].id == (a + 1) % M;
    if (a + 1) % M == last % M {
      WindowUnique(a + 1, last, M);
    }
    assert AcksInFlight(s'.acks, a + 1, r);
  }

  lemma {:induction false} FlightAcksTo(c: Config, s: State, a: nat, r: nat, last: nat, stop: nat) returns (s': State)
    requires Reaches(c, s) && Flight(c, s, a, r, last) && a <= stop <= r && stop < last <= a + M
    ensures Reaches(c, s') && Flight(c, s', stop, r, last) && s'.snd == s.snd.(lastAcked := stop)
    decreases stop - a
  {
    if a == stop {
      s' := s;
    } else {
      var t := FlightAcks(c, s, a, r, last);
      s' := FlightAcksTo(c, t, a + 1, r, last, stop);
    }
  }

  /** The last acknowledgement of the window: the next one is sent. */
  lemma FlightGrows(c: Config, s: State, a: nat) returns (s': State)
    requires Reaches(c, s) && Flight(c, s, a, a + 1, a + 1)
    ensures Reaches(c, s') && s'.snd.ssthresh == s.snd.ssthresh
    ensures s'.snd.cwnd == GrowWindow(s.snd.cwnd, s.snd.ssthresh)
    ensures s'.snd.cwnd > 0 ==> Flight(c, s', a + 1, a + 1, Smaller(a + 1 + s'.snd.cwnd, |c.packets|))
  {
    s' := AfterAck(c, s);
    assert AckArrives(c, s, s');
    ReachesNext(c, s, s');
    assert s.acks[0].id == (a + 1) % M;
    if c.fifo && s'.snd.cwnd > 0 {
      assert s.data == [];
      assert DataInFlight(s'.data, a + 1, s'.snd.lastSent);
    }
  }

  /** One whole window, delivered and acknowledged. */
  lemma WindowPasses(c: Config, s: State, a: nat, last: nat) returns (s': State)
    requires Reaches(c, s) && ValidConfig(c) && Flight(c, s, a, a, last) && last <= a + M && last < |c.packets|
    requires s.snd.cwnd > 0
    ensures Reaches(c, s') && s'.snd.cwnd == GrowWindow(s.snd.cwnd, s.snd.ssthresh) && s'.snd.ssthresh == s.snd.ssthresh
    ensures Flight(c, s', last, last, Smaller(last + s'.snd.cwnd, |c.packets|))
  {
    var s1 := FlightDeliversTo(c, s, a, a, last, last);
    var s2 := FlightAcksTo(c, s1, a, last, last, last - 1);
    s' := FlightGrows(c, s2, last - 1);
  }

  /** Slow start without losses: windows of 1, 2, 4, .. packets. */
  lemma {:induction false} SlowStartReaches(c: Config, k: nat) returns (s: State)
    requires ValidConfig(c) && 2 * Power2(k) <= M + 1 && 2 * Power2(k) <= |c.packets|
    ensures Reaches(c, s) && Flight(c, s, Power2(k) - 1, Power2(k) - 1, 2 * Power2(k) - 1)
    ensures s.snd.cwnd == Power2(k) && s.snd.ssthresh == MAX_SSTHRESH
  {
    if k == 0 {
      s := FlightStarts(c);
    } else {
      var t := SlowStartReaches(c, k - 1);
      s := WindowPasses(c, t, Power2(k - 1) - 1, 2 * Power2(k - 1) - 1);
    }
  }

  /** With more packets than ids the window of 32768 can be in flight, M its last
      packet. */
  lemma LastDoubling(c: Config) returns (s: State)
    requires ValidConfig(c) && |c.packets| > M
    ensures Reaches(c, s) && Flight(c, s, 32767, 32767, M)
    ensures s.snd.cwnd == 32768 && s.snd.ssthresh == MAX_SSTHRESH
  {
    assert Power2(5) == 32 && Power2(10) == 1024 && Power2(15) == 32768;
    s := SlowStartReaches(c, 15);
  }

  /** And after it a window as large as the cap. */
  lemma CappedWindow(c: Config) returns (s: State)
    requires ValidConfig(c) && |c.packets| > M
    ensures Reaches(c, s) && Flight(c, s, M, M, Smaller(2 * M, |c.packets|)) && s.snd.cwnd == M
  {
    var t := LastDoubling(c);
    s := WindowPasses(c, t, 32767, M);
  }

  // ------------------------------------------------------- one packet too many

  /** After a timeout the first packet that is not acknowledged is on its way. */
  lemma SentAgain(c: Config, s: State) returns (s': State)
    requires Reaches(c, s) && !s.snd.done && s.data == [] && s.snd.lastAcked < s.high
    requires s.snd.lastAcked < |c.packets|
    ensures Reaches(c, s') && Arrives(c, s', s.snd.lastAcked + 1)
    ensures s'.rcv == s.rcv && s'.files == s.files && s'.accepted == s.accepted
    ensures s'.acks == s.acks && s'.high == s.high
  {
    s' := Transmit(c, s, SendNextWindow(StartSlowAgain(s.snd), |c.packets|));
    assert Timeout(c, s, s');
    ReachesNext(c, s, s');
  }

  /** A packet from M before the expected one may arrive. */
  lemma IdsRunOut(c: Config) returns (s: State, i: nat)
    requires ValidConfig(c) && |c.packets| > Limit(c.fifo)
    ensures Reaches(c, s) && s.files == [] && Holding(c, s.rcv, Limit(c.fifo)) && Arrives(c, s, i)
    ensures 1 <= i == Limit(c.fifo) + 1 - M && i % M == (Limit(c.fifo) + 1) % M
  {
    i := Limit(c.fifo) + 1 - M;
    assert Limit(c.fifo) + 1 == M * 1 + i;
    ModShift(i, 1, M);
    if c.fifo {
      var s1 := CappedWindow(c);
      var s2 := FlightDeliversTo(c, s1, M, M, 2 * M, 2 * M);
      var s3 := LoseAllAcks(c, s2);
      s := SentAgain(c, s3);
    } else {
      var s1 := LastDoubling(c);
      s := FlightDeliversTo(c, s1, 32767, 32767, M, M);
    }
  }

  /** Ids decide like packet numbers in every run exactly if the transfer has no more
      packets than the limit. */
  lemma IdsLimit(c: Config)
    requires ValidConfig(c)
    ensures |c.packets| <= Limit(c.fifo) <==> forall t: State :: Reaches(c, t) ==> DecidesLikeNumbers(c, t)
  {
    if |c.packets| <= Limit(c.fifo) {
      forall t: State | Reaches(c, t) ensures DecidesLikeNumbers(c, t) {
        ReachedKeepsInv(c, t);
      }
    } else {
      var s, i := IdsRunOut(c);
      assert Arrives(c, s, i) && !DecidesLikeNumbers(c, s);
    }
  }

  // ---------------------------------------------------------- the wrong packet

  /** What the receiver has so far is the beginning of the message, and the file, once
      written, the whole message. */
  ghost predicate Correct(c: Config, s: State) {
    if s.files == [] then s.rcv.inBuffer <= c.packets else s.files[0] == c.msg
  }

  function Sending(msg: Bytes, packetSize: nat, fifo: bool): (c: Config)
    requires packetSize > 0
  {
    Config(msg, packetSize, Packetized(msg, packetSize), fifo)
  }

  lemma {:induction false} JoinedIsPrefix(ps: seq<Packet>, k: nat)
    requires k <= |ps|
    ensures Joined(ps[..k]) <= Joined(ps)
  {
    if k < |ps| {
      JoinedIsPrefix(ps[..|ps| - 1], k);
      assert ps[..|ps| - 1][..k] == ps[..k];
    } else {
      assert ps[..k] == ps;
    }
  }

  lemma SliceHead(msg: Bytes, packetSize: nat, k: nat)
    requires packetSize > 0 && 0 <= k * packetSize < |msg|
    ensures |Slice(msg, packetSize, k)| > 0 && Slice(msg, packetSize, k)[0] == msg[k * packetSize]
  {
    assert (k + 1) * packetSize == k * packetSize + packetSize;
  }

  /** A data packet's body begins with the byte of the message where its slice begins. */
  lemma BodyStart(c: Config, i: nat)
    requires ValidConfig(c) && 2 <= i <= |c.packets|
    ensures 0 <= (i - 2) * c.packetSize < |c.msg|
    ensures |c.packets[i - 1].body| > 0 && c.packets[i - 1].body[0] == c.msg[(i - 2) * c.packetSize]
  {
    var k: nat := i - 2;
    SliceAt(c.msg, c.packetSize, SliceCount(|c.msg|, c.packetSize), k);
    SliceBounds(|c.msg|, c.packetSize, k);
    SliceHead(c.msg, c.packetSize, k);
  }

  /** A packet in the place of another one with another first byte shows in the bodies
      joined. */
  lemma WrongPacketShows(ps: seq<Packet>, r: nat, p: Packet)
    requires 1 <= r < |ps| && |p.body| > 0 && |ps[r].body| > 0 && p.body[0] != ps[r].body[0]
    ensures Joined((ps[..r] + [p])[1..]) != Joined(ps[1..])
  {
    var kept := (ps[..r] + [p])[1..];
    assert kept == ps[1..r] + [p];
    assert kept[..r - 1] == ps[1..r];
    var before := Joined(ps[1..r]);
    assert Joined(kept) == before + p.body;
    JoinedNext(ps, r);
    JoinedIsPrefix(ps[1..], r);
    assert ps[1..][..r] == ps[1..r + 1];
    assert before + ps[r].body <= Joined(ps[1..]);
    assert Joined(ps[1..])[|before|] == (before + ps[r].body)[|before|] == ps[r].body[0];
    assert Joined(kept)[|before|] == p.body[0];
  }

  /** A packet with the expected id but another first byte than the expected packet. */
  lemma WrongPacketSpoils(c: Config, s: State, r: nat, i: nat)
    requires ValidConfig(c) && Holding(c, s.rcv, r) && s.files == [] && 1 <= r < |c.packets|
    requires Arrives(c, s, i) && 1 <= i <= |c.packets| && i % M == (r + 1) % M
    requires |c.packets[i - 1].body| > 0 && |c.packets[r].body| > 0
    requires c.packets[i - 1].body[0] != c.packets[r].body[0]
    ensures !Correct(c, AfterDelivery(c, s, i))
  {
    var p := c.packets[i - 1];
    PacketAt(c.msg, c.packetSize, i);
    assert (c.packets[..r] + [p])[r] != c.packets[r];
    WrongPacketShows(c.packets, r, p);
    PacketizeRoundTrip(c.msg, c.packetSize);
  }

  /** A message that a packet taken for another one spoils: without order the header is
      taken for packet M + 1, with order packet M + 1 for packet 2M + 1. */
  function Witness(size: nat, packetSize: nat, fifo: bool): (msg: Bytes)
    ensures |msg| == size
  {
    if fifo then seq(size, k => if k == (M - 1) * packetSize then 1 else 0) else Plain(size)
  }

  /** All bytes alike, and not like the lowest byte of the size. */
  function Plain(size: nat): (msg: Bytes)
    ensures |msg| == size
  {
    seq(size, _ => if size % 256 == 0 then 1 else 0)
  }

  lemma HeaderStart(size: nat)
    ensures HeaderBody(size)[0] !in Plain(size)
  {
    assert Zeros(HEADER_SIZE) != [];
    assert HeaderBody(size)[0] as int == size % 256;
  }

  lemma WitnessDiffers(size: nat, packetSize: nat, fifo: bool)
    requires 0 < size < SIZE_RANGE && packetSize > 0 && 1 + SliceCount(size, packetSize) > Limit(fifo)
    ensures var c := Sending(Witness(size, packetSize, fifo), packetSize, fifo);
      && var r, i := Limit(fifo), Limit(fifo) + 1 - M;
      && |c.packets[i - 1].body| > 0 && |c.packets[r].body| > 0
      && c.packets[i - 1].body[0] != c.packets[r].body[0]
  {
    var c := Sending(Witness(size, packetSize, fifo), packetSize, fifo);
    BodyStart(c, Limit(fifo) + 1);
    if fifo {
      BodyStart(c, M + 1);
      assert (2 * M - 1) * packetSize == (M - 1) * packetSize + M * packetSize;
      assert M * packetSize > 0;
    } else {
      HeaderStart(size);
    }
  }

  /** Every message of this size arrives as it was sent, whatever is lost, exactly if it
      is cut into no more packets than the limit. */
  lemma LengthLimit(size: nat, packetSize: nat, fifo: bool)
    requires 0 < size < SIZE_RANGE && packetSize > 0
    ensures 1 + SliceCount(size, packetSize) <= Limit(fifo) <==>
      forall msg: Bytes, t: State {:trigger Reaches(Sending(msg, packetSize, fifo), t)} ::
        |msg| == size && Reaches(Sending(msg, packetSize, fifo), t) ==> Correct(Sending(msg, packetSize, fifo), t)
  {
    if 1 + SliceCount(size, packetSize) <= Limit(fifo) {
      forall msg: Bytes, t: State | |msg| == size && Reaches(Sending(msg, packetSize, fifo), t)
        ensures Correct(Sending(msg, packetSize, fifo), t)
      {
        ReachedKeepsInv(Sending(msg, packetSize, fifo), t);
      }
    } else {
      var c := Sending(Witness(size, packetSize, fifo), packetSize, fifo);
      var s, i := IdsRunOut(c);
      WitnessDiffers(size, packetSize, fifo);
      WrongPacketSpoils(c, s, Limit(fifo), i);
      var s' := AfterDelivery(c, s, i);
      assert Deliver(c, s, s', i);
      ReachesNext(c, s, s');
      assert Reaches(Sending(c.msg, packetSize, fifo), s');
    }
  }
}
