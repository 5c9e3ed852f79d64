/** What packets that are sent again do to a receiver that has completed the message
    and is as it was at first. It takes any packet with an eight-byte body for a new
    header, and any packet with the id 1 for the next packet, also the one M packets
    after the header. Both are harmless exactly if there are no such packets. */
module GoBackNRepeats {
  import opened Modular
  import opened Packets
  import opened GoBackN
  import opened GoBackNLimit

  /** After the first completion, what is received begins with the header. */
  predicate TrueStart(c: Config, s: State)
    requires c.packets != []
  {
    s.files != [] && s.rcv.inBuffer != [] ==> s.rcv.inBuffer[0] == c.packets[0]
  }

  /** Some slice of a message of this size is as long as a header. */
  predicate HeaderLike(size: nat, packetSize: nat)
    requires packetSize > 0
  {
    size % packetSize == HEADER_SIZE || packetSize == HEADER_SIZE <= size
  }

  lemma LastSlice(size: nat, packetSize: nat, k: nat)
    requires packetSize > 0 && k + 1 == SliceCount(size, packetSize)
    ensures size - k * packetSize == if size % packetSize == 0 then packetSize else size % packetSize
  {
    var q := size / packetSize;
    assert size == packetSize * q + size % packetSize;
    if size % packetSize == 0 {
      assert packetSize * q == k * packetSize + packetSize;
    } else {
      assert packetSize * q == k * packetSize;
    }
  }

  lemma SliceLength(msg: Bytes, packetSize: nat, k: nat)
    requires packetSize > 0 && k < SliceCount(|msg|, packetSize)
    ensures k * packetSize <= |msg|
    ensures |Slice(msg, packetSize, k)|
         == if k + 1 < SliceCount(|msg|, packetSize) || |msg| % packetSize == 0 then packetSize
            else |msg| % packetSize
  {
    SliceBounds(|msg|, packetSize, k);
    assert (k + 1) * packetSize == k * packetSize + packetSize;
    if k + 1 == SliceCount(|msg|, packetSize) {
      LastSlice(|msg|, packetSize, k);
    }
  }

  lemma BodyLength(c: Config, i: nat)
    requires ValidConfig(c) && 2 <= i <= |c.packets|
    ensures |c.packets[i - 1].body|
         == if i < |c.packets| || |c.msg| % c.packetSize == 0 then c.packetSize else |c.msg| % c.packetSize
  {
    var n, k: nat := SliceCount(|c.msg|, c.packetSize), i - 2;
    assert c.packets[i - 1] == Slices(c.msg, c.packetSize, n)[k];
    SliceAt(c.msg, c.packetSize, n, k);
    SliceLength(c.msg, c.packetSize, k);
  }

  // -------------------------------------------------- when repeats do no harm

  ghost predicate AllWritten(c: Config, files: seq<Bytes>) {
    forall k: nat {:trigger files[k]} :: k < |files| ==> files[k] == c.msg
  }

  /** Up to M packets, the receiver starts anew whenever the header comes again; with
      M + 1 it counts the last packet as the first of the next message and then takes
      none any more. */
  ghost predicate Calm(c: Config, s: State) {
    && AllWritten(c, s.files)
    && if |c.packets| <= M then |s.rcv.inBuffer| < |c.packets| && Holding(c, s.rcv, |s.rcv.inBuffer|)
       else s.files == [] || s.rcv == Receiver([], 0, 0, 1)
  }

  lemma ShortKeepsCalm(c: Config, s: State, s': State, i: nat)
    requires ValidConfig(c) && !HeaderLike(|c.msg|, c.packetSize) && |c.packets| <= M
    requires Calm(c, s) && Deliver(c, s, s', i)
    ensures Calm(c, s')
  {
    var r := |s.rcv.inBuffer|;
    if i % M == (r + 1) % M {
      WindowUnique(i, r + 1, M);
      ReceiveInOrder(c, s.rcv, r);
      if i == |c.packets| && i % M == 1 {
        MessageHasData(c);
        ModSmall(1, M);
        WindowUnique(i, 1, M);
      }
    } else {
      if r == 0 && i > 1 {
        BodyLength(c, i);
      }
      ModSmall(1, M);
      ReceiveOther(c, s.rcv, r, i);
    }
  }

  lemma LongKeepsCalm(c: Config, s: State, s': State, i: nat)
    requires ValidConfig(c) && !HeaderLike(|c.msg|, c.packetSize) && |c.packets| == M + 1 && c.fifo
    requires Inv(c, s) && Calm(c, s) && Deliver(c, s, s', i)
    ensures Calm(c, s')
  {
    if s.files == [] {
      DataComparisonAgrees(c, s, i);
      if i == s.accepted + 1 {
        ReceiveInOrder(c, s.rcv, s.accepted);
        ModShift(1, 1, M);
        ModSmall(1, M);
      } else {
        ReceiveOther(c, s.rcv, s.accepted, i);
      }
    } else {
      assert ItemOk(s.data[0], s.accepted, s.high, |c.packets|);
      BodyLength(c, i);
      PacketAt(c.msg, c.packetSize, i);
      if i % M == 2 % M {
        WindowUnique(i, 2, M);
      }
    }
  }

  lemma NextKeepsCalm(c: Config, s: State, s': State)
    requires ValidConfig(c) && !HeaderLike(|c.msg|, c.packetSize) && |c.packets| <= M + 1
    requires |c.packets| <= Limit(c.fifo) && Inv(c, s) && Calm(c, s) && Next(c, s, s')
    ensures Calm(c, s')
  {
    if i: nat :| Deliver(c, s, s', i) {
      if |c.packets| <= M {
        ShortKeepsCalm(c, s, s', i);
      } else {
        LongKeepsCalm(c, s, s', i);
      }
    }
  }

  lemma {:induction false} RunKeepsCalm(c: Config, run: seq<State>, i: nat)
    requires IsRun(c, run) && i < |run| && !HeaderLike(|c.msg|, c.packetSize)
    requires |c.packets| <= M + 1 && |c.packets| <= Limit(c.fifo)
    ensures Calm(c, run[i])
  {
    if i == 0 {
      MessageHasData(c);
    } else {
      RunKeepsCalm(c, run, i - 1);
      RunKeepsInv(c, run, i - 1);
      assert StepAt(c, run, i - 1);
      NextKeepsCalm(c, run[i - 1], run[i]);
    }
  }

  /** Then every file ever written is the message, and what is received is always a
      beginning of its packets. */
  lemma RepeatsAreHarmless(c: Config, t: State)
    requires Reaches(c, t) && !HeaderLike(|c.msg|, c.packetSize)
    requires |c.packets| <= M + 1 && |c.packets| <= Limit(c.fifo)
    ensures forall k: nat {:trigger t.files[k]} :: k < |t.files| ==> t.files[k] == c.msg
    ensures t.rcv.inBuffer <= c.packets
  {
    var run :| EndsIn(c, run, t);
    RunKeepsCalm(c, run, |run| - 1);
    RunKeepsInv(c, run, |run| - 1);
  }

  // -------------------------------------------------- when they do

  lemma FlightCompletes(c: Config, s: State, a: nat) returns (s': State)
    requires Reaches(c, s) && ValidConfig(c) && 1 <= |c.packets| && Flight(c, s, a, |c.packets| - 1, |c.packets|)
    ensures Reaches(c, s') && s'.snd == s.snd && s'.high == |c.packets| && s'.data == [] && s'.files == [c.msg]
    ensures s'.rcv == Receiver([], 0, 0, if |c.packets| % M == 1 then 1 else 0)
  {
    var n := |c.packets|;
    s' := AfterDelivery(c, s, n);
    assert Deliver(c, s, s', n);
    ReachesNext(c, s, s');
    ReceiveInOrder(c, s.rcv, n - 1);
  }

  /** A packet is taken as the first one of a message. */
  lemma TakenForAStart(c: Config, s: State, i: nat)
    requires ValidConfig(c) && Reaches(c, s) && s.files != [] && Arrives(c, s, i) && 2 <= i <= |c.packets|
    requires s.rcv.inBuffer == [] && s.rcv.bytes == 0 && s.rcv.size == 0
    requires |c.packets[i - 1].body| == HEADER_SIZE || i % M == (s.rcv.lastAcked + 1) % M
    requires c.packets[i - 1] != c.packets[0]
    ensures exists t: State :: Reaches(c, t) && !TrueStart(c, t)
  {
    var t := AfterDelivery(c, s, i);
    assert Deliver(c, s, t, i);
    ReachesNext(c, s, t);
    PacketAt(c.msg, c.packetSize, i);
    assert t.rcv.inBuffer == [c.packets[i - 1]];
  }

  /** With the rest of the packets in flight: they are accepted, every acknowledgement
      is lost, and packet a + 1 comes again. */
  lemma CompletesAndRepeats(c: Config, s: State, a: nat)
    requires Reaches(c, s) && ValidConfig(c) && Flight(c, s, a, a, |c.packets|) && 1 <= a
    requires |c.packets[a].body| == HEADER_SIZE || ((a + 1) % M == 1 && |c.packets| % M != 1)
    requires c.packets[a] != c.packets[0]
    ensures exists t: State :: Reaches(c, t) && !TrueStart(c, t)
  {
    var s1 := FlightDeliversTo(c, s, a, a, |c.packets|, |c.packets| - 1);
    var s2 := FlightCompletes(c, s1, a);
    var s3 := LoseAllAcks(c, s2);
    var s4 := SentAgain(c, s3);
    ModSmall(1, M);
    TakenForAStart(c, s4, a + 1);
  }

  /** A timeout when everything sent was lost. */
  lemma Restarted(c: Config, s: State, a: nat, last: nat) returns (s': State)
    requires Reaches(c, s) && Flight(c, s, a, a, last)
    ensures Reaches(c, s') && Flight(c, s', a, a, a + 1) && s'.snd.cwnd == 1
  {
    var s1 := LoseAllData(c, s);
    s' := Transmit(c, s1, SendNextWindow(StartSlowAgain(s1.snd), |c.packets|));
    assert Timeout(c, s1, s');
    ReachesNext(c, s1, s');
    if c.fifo {
      assert DataInFlight(s'.data, a, a + 1);
    }
  }

  /** One packet at a time: packets j and j + 1 are in flight. */
  lemma {:induction false} StopAndWait(c: Config, j: nat) returns (s: State)
    requires ValidConfig(c) && 2 <= j <= |c.packets|
    ensures Reaches(c, s) && Flight(c, s, j - 1, j - 1, Smaller(j + 1, |c.packets|)) && s.snd.cwnd == 2
  {
    var s1: State;
    if j == 2 {
      s1 := FlightStarts(c);
    } else {
      var s0 := StopAndWait(c, j - 1);
      s1 := Restarted(c, s0, j - 2, j);
    }
    var s2 := FlightDelivers(c, s1, j - 2, j - 2, j - 1);
    s := FlightGrows(c, s2, j - 2);
  }

  lemma BodyByte(c: Config, i: nat)
    requires ValidConfig(c) && 2 <= i <= |c.packets|
    ensures |c.packets[i - 1].body| > 0 && c.packets[i - 1].body[0] in c.msg
  {
    BodyStart(c, i);
  }

  lemma UnlikeTheHeader(c: Config, i: nat)
    requires ValidConfig(c) && HeaderBody(|c.msg|)[0] !in c.msg && 2 <= i <= |c.packets|
    ensures c.packets[i - 1] != c.packets[0]
  {
    BodyByte(c, i);
    assert c.packets[0].body == HeaderBody(|c.msg|);
  }

  /** Which packet is as long as a header: the last one or the one before it. */
  lemma HeaderLikePacket(c: Config) returns (j: nat)
    requires ValidConfig(c) && HeaderLike(|c.msg|, c.packetSize)
    ensures 2 <= j <= |c.packets| <= j + 1 && |c.packets[j - 1].body| == HEADER_SIZE
  {
    MessageHasData(c);
    var n := |c.packets|;
    if |c.msg| % c.packetSize == HEADER_SIZE || |c.msg| % c.packetSize == 0 {
      j := n;
    } else {
      assert |c.msg| == HEADER_SIZE * (|c.msg| / HEADER_SIZE) + |c.msg| % HEADER_SIZE;
      j := n - 1;
    }
    BodyLength(c, j);
  }

  lemma RepeatsDoHarm(c: Config)
    requires ValidConfig(c) && HeaderBody(|c.msg|)[0] !in c.msg && |c.packets| <= Limit(c.fifo)
    requires HeaderLike(|c.msg|, c.packetSize) || |c.packets| > M + 1
    ensures exists t: State :: Reaches(c, t) && !TrueStart(c, t)
  {
    if |c.packets| > M + 1 {
      var s := CappedWindow(c);
      UnlikeTheHeader(c, M + 1);
      ModShift(1, 1, M);
      ModSmall(1, M);
      if |c.packets| % M == 1 {
        WindowUnique(|c.packets|, M + 1, M);
      }
      CompletesAndRepeats(c, s, M);
    } else {
      var j := HeaderLikePacket(c);
      var s := StopAndWait(c, j);
      UnlikeTheHeader(c, j);
      CompletesAndRepeats(c, s, j - 1);
    }
  }

  /** Within the limit, what is received after a completion begins with the header, for
      every message of this size and in every run, exactly if no slice is as long as a
      header and there are at most M + 1 packets. */
  lemma TrueStartLimit(size: nat, packetSize: nat, fifo: bool)
    requires 0 < size < SIZE_RANGE && packetSize > 0 && 1 + SliceCount(size, packetSize) <= Limit(fifo)
    ensures !HeaderLike(size, packetSize) && 1 + SliceCount(size, packetSize) <= M + 1 <==>
      forall msg: Bytes, t: State {:trigger Reaches(Sending(msg, packetSize, fifo), t)} ::
        |msg| == size && Reaches(Sending(msg, packetSize, fifo), t) ==> TrueStart(Sending(msg, packetSize, fifo), t)
  {
    if !HeaderLike(size, packetSize) && 1 + SliceCount(size, packetSize) <= M + 1 {
      forall msg: Bytes, t: State | |msg| == size && Reaches(Sending(msg, packetSize, fifo), t)
        ensures TrueStart(Sending(msg, packetSize, fifo), t)
      {
        RepeatsAreHarmless(Sending(msg, packetSize, fifo), t);
      }
    } else {
      HeaderStart(size);
      RepeatsDoHarm(Sending(Plain(size), packetSize, fifo));
    }
  }
}
