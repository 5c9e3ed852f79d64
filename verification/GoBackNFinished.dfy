/** What acknowledgements do that reach a sender which has finished. One with an id above
    the next expected one restarts it, one with the expected id stands for a packet behind
    the end of its buffer. With at most M - 2 packets there are none of either kind. */
module GoBackNFinished {
  import opened Modular
  import opened Packets
  import opened GoBackN
  import opened GoBackNLimit
  import opened GoBackNRepeats

  /** Every acknowledgement on its way to a finished sender has an id below the one that
      would be next, and so leaves it alone. */
  ghost predicate Undisturbed(c: Config, s: State) {
    s.snd.done ==>
      forall k: nat {:trigger s.acks[k]} :: k < |s.acks| ==> s.acks[k].id < (|c.packets| + 1) % M
  }

  /** The next acknowledgement restarts the finished sender. */
  predicate RestartsLate(c: Config, s: State) {
    s.snd.done && s.acks != [] && s.acks[0].id > (|c.packets| + 1) % M
  }

  lemma RestartTransmits(c: Config, s: State)
    requires SenderKept(c, s) && s.snd.done && s.acks != [] && !OverrunsLate(s)
    ensures HandleAck(s.snd, s.acks[0].id, |c.packets|).1 <==> RestartsLate(c, s)
    ensures !RestartsLate(c, s) ==> HandleAck(s.snd, s.acks[0].id, |c.packets|).0 == s.snd
  {
  }

  /** The next acknowledgement makes it write behind the end of its buffer. */
  predicate OverrunsLate(s: State) {
    s.acks != [] && PassesTheEnd(s.snd, s.acks[0].id)
  }

  // ------------------------------------------------------------ short transfers

  ghost predicate AcksNamed(acks: seq<Ack>, n: nat) {
    forall k: nat {:trigger acks[k]} :: k < |acks| ==> 1 <= acks[k].index <= n && acks[k].id == acks[k].index % M
  }

  lemma NextKeepsNamed(c: Config, s: State, s': State)
    requires ValidConfig(c) && AcksNamed(s.acks, |c.packets|) && Next(c, s, s')
    ensures AcksNamed(s'.acks, |c.packets|)
  {
    if i: nat :| Deliver(c, s, s', i) {
      PacketAt(c.msg, c.packetSize, i);
    } else if k: nat :| LoseAck(s, s', k) {
    }
  }

  lemma {:induction false} RunKeepsNamed(c: Config, run: seq<State>, i: nat)
    requires IsRun(c, run) && i < |run|
    ensures AcksNamed(run[i].acks, |c.packets|)
  {
    if i > 0 {
      RunKeepsNamed(c, run, i - 1);
      assert StepAt(c, run, i - 1);
      NextKeepsNamed(c, run[i - 1], run[i]);
    }
  }

  lemma ReachedIsNamed(c: Config, t: State)
    requires Reaches(c, t)
    ensures ValidConfig(c) && AcksNamed(t.acks, |c.packets|) && Early(c, t)
  {
    var run :| EndsIn(c, run, t);
    RunKeepsNamed(c, run, |run| - 1);
    RunKeepsEarly(c, run, |run| - 1);
  }

  /** With at most M - 2 packets nothing that arrives after the completion disturbs the
      sender: no acknowledgement restarts it, and none passes the end of its buffer. */
  lemma LateAcksAreQuiet(c: Config, t: State)
    requires Reaches(c, t) && |c.packets| <= M - 2
    ensures Undisturbed(c, t) && !RestartsLate(c, t) && !OverrunsLate(t)
  {
    ReachedIsNamed(c, t);
    ModSmall(|c.packets| + 1, M);
    forall k: nat | k < |t.acks| ensures t.acks[k].id < |c.packets| + 1 {
      ModSmall(t.acks[k].index, M);
    }
  }

  // ----------------------------------------------- a packet sent once too often

  /** The acknowledgements of all packets from a + 1 on arrive; what is in the data channel
      stays at its front. */
  lemma {:induction false} AcksFinish(c: Config, s: State, a: nat) returns (s': State)
    requires Reaches(c, s) && SenderKept(c, s) && !s.snd.done && s.snd.lastAcked == a
    requires AcksInFlight(s.acks, a, |c.packets|)
    ensures Reaches(c, s') && s'.snd.done && s'.acks == [] && s.data <= s'.data && s'.high <= |c.packets|
    ensures SenderKept(c, s')
    decreases |c.packets| - a
  {
    assert s.acks[0].id == (a + 1) % M;
    s' := AfterAck(c, s);
    assert AckArrives(c, s, s');
    ReachesNext(c, s, s');
    NextAckKept(c, s);
    if !s'.snd.done {
      assert AcksInFlight(s'.acks, a + 1, |c.packets|);
      s' := AcksFinish(c, s', a + 1);
    }
  }

  lemma NextAckKept(c: Config, s: State)
    requires SenderKept(c, s) && !s.snd.done && s.acks != [] && s.acks[0].id == (s.snd.lastAcked + 1) % M
    ensures var s' := AfterAck(c, s);
      && SenderKept(c, s') && s'.acks == s.acks[1..] && s.data <= s'.data && s'.snd.lastAcked == s.snd.lastAcked + 1
      && (s'.snd.done <==> s.snd.lastAcked + 1 == |c.packets|)
  {
  }

  /** All packets from a + 1 on are in flight: they are accepted, packet a + 1 is sent
      again, and then the acknowledgements arrive, so that it is on its way to a receiver
      whose sender has finished. */
  lemma FinishesMeanwhile(c: Config, s: State, a: nat) returns (s': State)
    requires Reaches(c, s) && ValidConfig(c) && Flight(c, s, a, a, |c.packets|)
    ensures Reaches(c, s') && SenderKept(c, s') && s'.snd.done && s'.acks == [] && Arrives(c, s', a + 1)
  {
    var n := |c.packets|;
    var s1 := AllAccepted(c, s, a);
    var s2 := Transmit(c, s1, SendNextWindow(StartSlowAgain(s1.snd), n));
    assert Timeout(c, s1, s2);
    ReachesNext(c, s1, s2);
    ReachedIsNamed(c, s2);
    assert c.fifo ==> s2.data[0].index == a + 1;
    s' := AcksFinish(c, s2, a);
  }

  lemma AllAccepted(c: Config, s: State, a: nat) returns (s': State)
    requires Reaches(c, s) && ValidConfig(c) && Flight(c, s, a, a, |c.packets|)
    ensures Reaches(c, s') && s'.snd == s.snd && s'.data == [] && AcksInFlight(s'.acks, a, |c.packets|)
  {
    var n := |c.packets|;
    var s1 := FlightDeliversTo(c, s, a, a, n, n - 1);
    s' := AfterDelivery(c, s1, n);
    assert Deliver(c, s1, s', n);
    ReachesNext(c, s1, s');
    PacketAt(c.msg, c.packetSize, n);
  }

  /** A packet that arrives after the completion is acknowledged to the finished sender. */
  lemma AckedLate(c: Config, s: State, i: nat) returns (s': State)
    requires Reaches(c, s) && ValidConfig(c) && s.snd.done && s.acks == [] && Arrives(c, s, i)
    requires 1 <= i <= |c.packets|
    ensures Reaches(c, s') && s'.snd == s.snd && |s'.acks| == 1 && s'.acks[0].id == i % M
  {
    s' := AfterDelivery(c, s, i);
    assert Deliver(c, s, s', i);
    ReachesNext(c, s, s');
    PacketAt(c.msg, c.packetSize, i);
  }

  // ----------------------------------------------------------- the exact bounds

  /** For data packets in any order: the finished sender can be restarted exactly if there
      is an id above the next expected one among those of the packets. */
  lemma RestartLimit(c: Config)
    requires ValidConfig(c) && !c.fifo
    ensures |c.packets| >= M - 1 && |c.packets| % M != M - 2 <==>
      exists t: State :: Reaches(c, t) && RestartsLate(c, t)
  {
    var n := |c.packets|;
    NextRemainder(n);
    if n >= M - 1 && n % M != M - 2 {
      var s := StopAndWait(c, n);
      var s1 := FinishesMeanwhile(c, s, n - 1);
      var t := AckedLate(c, s1, M - 1);
      ModSmall(M - 1, M);
      assert RestartsLate(c, t);
    }
    forall t: State | Reaches(c, t) && RestartsLate(c, t) ensures n >= M - 1 && n % M != M - 2 {
      if n <= M - 2 {
        LateAcksAreQuiet(c, t);
      }
      ReachedIsNamed(c, t);
    }
  }

  lemma NextRemainder(n: nat)
    ensures (n + 1) % M == if n % M == M - 1 then 0 else n % M + 1
  {
    ModAdd(n, 1, M);
    if n % M == M - 1 {
      assert (M - 1 + 1) % M == 0;
    } else {
      ModSmall(n % M + 1, M);
    }
  }

  /** Within the limit on packets: it can be made to write behind the end of its buffer
      exactly if the transfer has as many packets as the limit allows. */
  lemma OverrunLimit(c: Config)
    requires ValidConfig(c) && |c.packets| <= Limit(c.fifo)
    ensures |c.packets| == Limit(c.fifo) <==> exists t: State :: Reaches(c, t) && OverrunsLate(t)
  {
    if |c.packets| == Limit(c.fifo) {
      var t := OverrunAtLimit(c);
    }
    forall t: State | Reaches(c, t) && OverrunsLate(t) ensures |c.packets| == Limit(c.fifo) {
      OverrunMeansLimit(c, t);
    }
  }

  lemma OverrunAtLimit(c: Config) returns (t: State)
    requires ValidConfig(c) && |c.packets| == Limit(c.fifo)
    ensures Reaches(c, t) && OverrunsLate(t)
  {
    ModShift(1, 1, M);
    ModShift(1, 2, M);
    if c.fifo {
      var s := CappedWindow(c);
      var s1 := FinishesMeanwhile(c, s, M);
      t := AckedLate(c, s1, M + 1);
    } else {
      var s := StopAndWait(c, M);
      var s1 := FinishesMeanwhile(c, s, M - 1);
      t := AckedLate(c, s1, 1);
    }
  }

  lemma OverrunMeansLimit(c: Config, t: State)
    requires Reaches(c, t) && OverrunsLate(t) && |c.packets| <= Limit(c.fifo)
    ensures |c.packets| == Limit(c.fifo)
  {
    var n, i := |c.packets|, t.acks[0].index;
    ReachedIsNamed(c, t);
    ReachedKeepsInv(c, t);
    assert AckOk(t.acks[0], c.fifo, t.snd.lastAcked, t.accepted, t.high, n);
    if n < Limit(c.fifo) {
      WindowUnique(i, n + 1, M);
    }
  }

  /** A transfer of M - 1 packets, the smallest one that can be disturbed. */
  function Shortest(fifo: bool): (c: Config)
    ensures |c.packets| == M - 1
  {
    Sending(Plain(M - 2), 1, fifo)
  }

  lemma ShortestIsDisturbed(fifo: bool) returns (t: State)
    ensures Reaches(Shortest(fifo), t) && RestartsLate(Shortest(fifo), t) && !Undisturbed(Shortest(fifo), t)
  {
    var c := Shortest(fifo);
    var s := StopAndWait(c, M - 1);
    var s1 := FinishesMeanwhile(c, s, M - 2);
    t := AckedLate(c, s1, M - 1);
    ModSmall(M - 1, M);
    assert t.acks[0].id == M - 1;
    ReachedIsNamed(c, t);
  }

  /** For either channel, M - 2 is the largest number of packets up to which no transfer
      is disturbed after its completion. */
  lemma QuietLimit(fifo: bool, bound: nat)
    ensures bound <= M - 2 <==>
      forall c: Config, t: State {:trigger Reaches(c, t)} ::
        Reaches(c, t) && c.fifo == fifo && |c.packets| <= bound ==> Undisturbed(c, t)
  {
    if bound <= M - 2 {
      forall c: Config, t: State | Reaches(c, t) && c.fifo == fifo && |c.packets| <= bound
        ensures Undisturbed(c, t)
      {
        LateAcksAreQuiet(c, t);
      }
    } else {
      var t := ShortestIsDisturbed(fifo);
    }
  }
}
