/** The protocol and its timer together: the handler thread takes one acknowledgement after
    the other and does with the timer what the protocol's function tells, a timer that acts
    is a timeout of the protocol, and meanwhile packets and acknowledgements come, are lost
    or repeated. */
module Connections {
  import opened GoBackN
  import opened GoBackNLimit
  import opened GoBackNFinished
  import T = Timers

  datatype Connection = Connection(net: State, tm: T.State)

  // -------------------------------------------------------------------- machine

  /** The acknowledgement that the handler has in hand is the first one. */
  ghost predicate AckLost(s: Connection, s': Connection, k: nat) {
    (s.tm.host == T.Handling ==> k > 0) && LoseAck(s.net, s'.net, k)
  }

  ghost predicate ChannelStep(c: Config, s: Connection, s': Connection) {
    && s'.tm == s.tm
    && (|| (exists i: nat :: Deliver(c, s.net, s'.net, i))
        || (exists k: nat :: LoseData(s.net, s'.net, k))
        || (exists k: nat :: AckLost(s, s', k)))
  }

  /** A timer thread that retransmits is a timeout. */
  ghost predicate TimerMoves(c: Config, s: Connection, s': Connection, t: nat) {
    && T.TimerStep(s.tm, s'.tm, t)
    && if s'.tm.retransmits > s.tm.retransmits then Timeout(c, s.net, s'.net) else s'.net == s.net
  }

  ghost predicate Receives(s: Connection, s': Connection) {
    s'.net == s.net && s.net.acks != [] && T.StartHandling(s.tm, s'.tm)
  }

  /** The sender may transmit a little before the old timer is joined; nobody else sends,
      so the channel sees the same packets in the same order. */
  ghost predicate Handles(c: Config, s: Connection, s': Connection) {
    && s.tm.host == T.Handling && AckArrives(c, s.net, s'.net)
    && if HandleAck(s.net.snd, s.net.acks[0].id, |c.packets|).1 then T.BeginStop(s.tm, s'.tm, T.NextWindow)
       else if s'.net.snd.done && !s.net.snd.done then T.BeginStop(s.tm, s'.tm, T.Complete)
       else T.HandleQuietly(s.tm, s'.tm)
  }

  ghost predicate Stops(s: Connection, s': Connection) {
    s'.net == s.net && (T.Joined(s.tm, s'.tm) || T.Relock(s.tm, s'.tm) || T.Resume(s.tm, s'.tm))
  }

  ghost predicate ConnInit(c: Config, s: Connection) {
    Init(c, s.net) && T.Init(s.tm) && s.tm.late
  }

  ghost predicate ConnNext(c: Config, s: Connection, s': Connection) {
    || ChannelStep(c, s, s') || (exists t: nat :: TimerMoves(c, s, s', t))
    || Receives(s, s') || Handles(c, s, s') || Stops(s, s')
  }

  ghost predicate ConnStepAt(c: Config, run: seq<Connection>, i: nat)
    requires i + 1 < |run|
  {
    ConnNext(c, run[i], run[i + 1])
  }

  ghost predicate IsConnRun(c: Config, run: seq<Connection>) {
    && ValidConfig(c) && run != [] && ConnInit(c, run[0])
    && forall i: nat {:trigger ConnStepAt(c, run, i)} :: i + 1 < |run| ==> ConnStepAt(c, run, i)
  }

  // ---------------------------------------------------- the parts run as alone

  ghost predicate TimersReach(tm: T.State) {
    exists run: seq<T.State> :: TimersEnd(run, tm)
  }

  ghost predicate TimersEnd(run: seq<T.State>, tm: T.State) {
    T.IsRun(run) && run[|run| - 1] == tm
  }

  lemma TimersReachNext(tm: T.State, tm': T.State)
    requires TimersReach(tm) && T.Next(tm, tm')
    ensures TimersReach(tm')
  {
    var run :| TimersEnd(run, tm);
    var longer := run + [tm'];
    forall i: nat | i + 1 < |longer| ensures T.StepAt(longer, i) {
      if i + 1 < |run| {
        assert T.StepAt(run, i);
      }
    }
    assert TimersEnd(longer, tm');
  }

  lemma ChannelStepIsStep(c: Config, s: Connection, s': Connection)
    requires ChannelStep(c, s, s')
    ensures Next(c, s.net, s'.net)
  {
    if i: nat :| Deliver(c, s.net, s'.net, i) {
    } else if k: nat :| LoseData(s.net, s'.net, k) {
    } else {
      var k: nat :| AckLost(s, s', k);
    }
  }

  lemma NextMovesNet(c: Config, s: Connection, s': Connection)
    requires ConnNext(c, s, s')
    ensures s'.net == s.net || Next(c, s.net, s'.net)
  {
    if ChannelStep(c, s, s') {
      ChannelStepIsStep(c, s, s');
    }
  }

  lemma NextMovesTimers(c: Config, s: Connection, s': Connection)
    requires ConnNext(c, s, s')
    ensures s'.tm == s.tm || T.Next(s.tm, s'.tm)
  {
  }

  lemma StepProjects(c: Config, s: Connection, s': Connection)
    requires Reaches(c, s.net) && TimersReach(s.tm) && ConnNext(c, s, s')
    ensures Reaches(c, s'.net) && TimersReach(s'.tm)
  {
    NextMovesNet(c, s, s');
    NextMovesTimers(c, s, s');
    if s'.net != s.net {
      ReachesNext(c, s.net, s'.net);
    }
    if s'.tm != s.tm {
      TimersReachNext(s.tm, s'.tm);
    }
  }

  lemma {:induction false} RunProjects(c: Config, run: seq<Connection>, i: nat)
    requires IsConnRun(c, run) && i < |run|
    ensures Reaches(c, run[i].net) && TimersReach(run[i].tm)
  {
    if i == 0 {
      assert EndsIn(c, [run[0].net], run[0].net);
      assert TimersEnd([run[0].tm], run[0].tm);
    } else {
      RunProjects(c, run, i - 1);
      assert ConnStepAt(c, run, i - 1);
      StepProjects(c, run[i - 1], run[i]);
    }
  }

  lemma TimersReachInv(tm: T.State)
    requires TimersReach(tm)
    ensures T.Inv(tm)
  {
    var run :| TimersEnd(run, tm);
    T.RunKeepsInv(run, |run| - 1);
  }

  // ------------------------------------------------------- finished means done

  function GoalOf(h: T.Host): T.Goal
    requires h.Joining? || h.Relocking? || h.Resuming?
  {
    h.goal
  }

  predicate Stopping(h: T.Host) {
    h.Joining? || h.Relocking? || h.Resuming?
  }

  /** The handler ends the transfer exactly when the protocol is done. */
  predicate Linked(s: Connection) {
    s.net.snd.done <==> s.tm.finished || (Stopping(s.tm.host) && GoalOf(s.tm.host) != T.NextWindow)
  }

  lemma ChannelKeepsSender(c: Config, s: Connection, s': Connection)
    requires ChannelStep(c, s, s')
    ensures s'.net.snd == s.net.snd
  {
  }

  lemma TimersKeepDone(c: Config, s: Connection, s': Connection, t: nat)
    requires TimerMoves(c, s, s', t)
    ensures s'.net.snd.done == s.net.snd.done
    ensures s'.tm.host == s.tm.host && s'.tm.finished == s.tm.finished && s'.tm.rearmed == s.tm.rearmed
  {
  }

  lemma HandlingKeepsDone(c: Config, s: Connection, s': Connection)
    requires Handles(c, s, s')
    ensures s.net.snd.done ==> s'.net.snd.done
    ensures HandleAck(s.net.snd, s.net.acks[0].id, |c.packets|).1 ==> s'.net.snd.done == s.net.snd.done
  {
  }

  lemma NextKeepsLinked(c: Config, s: Connection, s': Connection)
    requires Linked(s) && ConnNext(c, s, s')
    ensures Linked(s')
  {
    if ChannelStep(c, s, s') {
      ChannelKeepsSender(c, s, s');
    } else if t: nat :| TimerMoves(c, s, s', t) {
      TimersKeepDone(c, s, s', t);
    } else if Handles(c, s, s') {
      HandlingKeepsDone(c, s, s');
    }
  }

  lemma {:induction false} RunKeepsLinked(c: Config, run: seq<Connection>, i: nat)
    requires IsConnRun(c, run) && i < |run|
    ensures Linked(run[i])
  {
    if i > 0 {
      RunKeepsLinked(c, run, i - 1);
      assert ConnStepAt(c, run, i - 1);
      NextKeepsLinked(c, run[i - 1], run[i]);
    }
  }

  /** Between two handler calls the transfer is done or has one timer that may retransmit;
      it has none when it is done, unless the sender was restarted. */
  lemma OneTimerUntilDone(c: Config, run: seq<Connection>, i: nat)
    requires IsConnRun(c, run) && i < |run| && run[i].tm.host == T.Idle
    ensures run[i].tm.finished == run[i].net.snd.done
    ensures if run[i].net.snd.done && !run[i].tm.rearmed then T.NoneAlive(run[i].tm) else T.OneAlive(run[i].tm)
  {
    RunKeepsLinked(c, run, i);
    RunProjects(c, run, i);
    var alone :| TimersEnd(alone, run[i].tm);
    T.ExactlyOneTimer(alone, |alone| - 1);
  }

  // ------------------------------------------------------- a timer for each window

  /** The acknowledgement in hand is for the last packet of a window that does not end the
      transfer, or for one behind the packet that is expected. */
  predicate AsksForWindow(c: Config, net: State) {
    && net.acks != []
    && var next := net.snd.lastAcked + 1;
       || net.acks[0].id > next % M
       || (net.acks[0].id == next % M && net.acks[0].id == net.snd.lastSent % M && next != |c.packets|)
  }

  /** From s to s' a window is sent: a timer has retransmitted, or the handler has come to
      an end with such an acknowledgement. */
  predicate SendsWindow(c: Config, s: Connection, s': Connection) {
    || s'.tm.retransmits > s.tm.retransmits
    || (s.tm.host == T.Handling && s'.tm.host != T.Handling && AsksForWindow(c, s.net))
  }

  /** The windows sent after the first, up to state i of the run. */
  function Windows(c: Config, run: seq<Connection>, i: nat): nat
    requires i < |run|
  {
    if i == 0 then 0 else Windows(c, run, i - 1) + if SendsWindow(c, run[i - 1], run[i]) then 1 else 0
  }

  /** The handler is on its way to a new timer. */
  function Owed(h: T.Host): nat {
    if Stopping(h) && GoalOf(h) == T.NextWindow then 1 else 0
  }

  lemma HandlingOwes(c: Config, s: Connection, s': Connection)
    requires Handles(c, s, s')
    ensures |s'.tm.timers| == |s.tm.timers| && Owed(s.tm.host) == 0
    ensures Owed(s'.tm.host) == if SendsWindow(c, s, s') then 1 else 0
  {
  }

  lemma TimerOwes(c: Config, s: Connection, s': Connection, t: nat)
    requires TimerMoves(c, s, s', t)
    ensures s'.tm.host == s.tm.host
    ensures |s'.tm.timers| == |s.tm.timers| + if SendsWindow(c, s, s') then 1 else 0
  {
  }

  lemma StopOwes(c: Config, s: Connection, s': Connection)
    requires Stops(s, s') || Receives(s, s') || ChannelStep(c, s, s')
    ensures |s'.tm.timers| + Owed(s'.tm.host) == |s.tm.timers| + Owed(s.tm.host) && !SendsWindow(c, s, s')
  {
  }

  lemma StepOwes(c: Config, s: Connection, s': Connection)
    requires ConnNext(c, s, s')
    ensures |s'.tm.timers| + Owed(s'.tm.host)
            == |s.tm.timers| + Owed(s.tm.host) + if SendsWindow(c, s, s') then 1 else 0
  {
    if t: nat :| TimerMoves(c, s, s', t) {
      TimerOwes(c, s, s', t);
    } else if Handles(c, s, s') {
      HandlingOwes(c, s, s');
    } else {
      StopOwes(c, s, s');
    }
  }

  lemma {:induction false} TimersAreCounted(c: Config, run: seq<Connection>, i: nat)
    requires IsConnRun(c, run) && i < |run|
    ensures |run[i].tm.timers| + Owed(run[i].tm.host) == 1 + Windows(c, run, i)
  {
    if i > 0 {
      TimersAreCounted(c, run, i - 1);
      assert ConnStepAt(c, run, i - 1);
      StepOwes(c, run[i - 1], run[i]);
    }
  }

  /** Every window has a timer of its own: between two handler calls as many timers have been
      started as windows were sent, and all but the youngest are over, so that the one
      alive was started with the last window. */
  lemma TimerForEachWindow(c: Config, run: seq<Connection>, i: nat)
    requires IsConnRun(c, run) && i < |run| && run[i].tm.host == T.Idle
    ensures |run[i].tm.timers| == 1 + Windows(c, run, i)
    ensures forall t :: 0 <= t < |run[i].tm.timers| - 1 ==> run[i].tm.timers[t] == T.Exited
    ensures run[i].tm.timers[T.Last(run[i].tm)] == T.Exited <==> run[i].net.snd.done && !run[i].tm.rearmed
  {
    TimersAreCounted(c, run, i);
    RunKeepsLinked(c, run, i);
    RunProjects(c, run, i);
    TimersReachInv(run[i].tm);
    forall t | 0 <= t < |run[i].tm.timers| - 1 ensures run[i].tm.timers[t] == T.Exited {
      assert T.TimerOk(run[i].tm, t);
    }
  }

  // --------------------------------------------------------- no timer afterwards

  /** A timer has been armed after the completion, or is about to be. */
  predicate Restarted(s: Connection) {
    s.tm.rearmed || (s.net.snd.done && Stopping(s.tm.host) && GoalOf(s.tm.host) == T.NextWindow)
  }

  ghost predicate CanRestart(c: Config) {
    exists t: State :: Reaches(c, t) && RestartsLate(c, t)
  }

  lemma HandlingRestarts(c: Config, s: Connection, s': Connection)
    requires Reaches(c, s.net) && Handles(c, s, s') && !Restarted(s) && Restarted(s')
    ensures RestartsLate(c, s.net)
  {
    ReachedIsNamed(c, s.net);
    HandlingKeepsDone(c, s, s');
    RestartTransmits(c, s.net);
  }

  lemma OthersDoNotRestart(c: Config, s: Connection, s': Connection)
    requires Linked(s) && ConnNext(c, s, s') && !Handles(c, s, s') && !Restarted(s)
    ensures !Restarted(s')
  {
    if ChannelStep(c, s, s') {
      ChannelKeepsSender(c, s, s');
    } else if t: nat :| TimerMoves(c, s, s', t) {
      TimersKeepDone(c, s, s', t);
    }
  }

  lemma StepHasReason(c: Config, s: Connection, s': Connection)
    requires Reaches(c, s.net) && Linked(s) && ConnNext(c, s, s') && !Restarted(s) && Restarted(s')
    ensures CanRestart(c)
  {
    if Handles(c, s, s') {
      HandlingRestarts(c, s, s');
    } else {
      OthersDoNotRestart(c, s, s');
    }
  }

  lemma {:induction false} RestartHasReason(c: Config, run: seq<Connection>, i: nat)
    requires IsConnRun(c, run) && i < |run| && Restarted(run[i])
    ensures CanRestart(c)
  {
    if i > 0 {
      if Restarted(run[i - 1]) {
        RestartHasReason(c, run, i - 1);
      } else {
        RunKeepsLinked(c, run, i - 1);
        RunProjects(c, run, i - 1);
        assert ConnStepAt(c, run, i - 1);
        StepHasReason(c, run[i - 1], run[i]);
      }
    }
  }

  /** With at most M - 2 packets: once the transfer is done, and whenever the handler is
      between two calls, no timer thread is left, and none comes back. */
  lemma ShortTransfersRest(c: Config, run: seq<Connection>, i: nat)
    requires IsConnRun(c, run) && i < |run| && |c.packets| <= M - 2
    ensures !run[i].tm.rearmed
    ensures run[i].tm.host == T.Idle && run[i].net.snd.done ==> T.NoneAlive(run[i].tm)
  {
    if Restarted(run[i]) {
      RestartHasReason(c, run, i);
      var t: State :| Reaches(c, t) && RestartsLate(c, t);
      LateAcksAreQuiet(c, t);
    }
    if run[i].tm.host == T.Idle {
      OneTimerUntilDone(c, run, i);
    }
  }

  // ------------------------------- every course of the protocol can be timed so

  ghost predicate ConnEnds(c: Config, run: seq<Connection>, s: Connection) {
    IsConnRun(c, run) && run[|run| - 1] == s
  }

  ghost predicate ConnReaches(c: Config, s: Connection) {
    exists run: seq<Connection> :: ConnEnds(c, run, s)
  }

  lemma ConnReachesNext(c: Config, s: Connection, s': Connection)
    requires ConnReaches(c, s) && ConnNext(c, s, s')
    ensures ConnReaches(c, s')
  {
    var run :| ConnEnds(c, run, s);
    var longer := run + [s'];
    forall i: nat | i + 1 < |longer| ensures ConnStepAt(c, longer, i) {
      if i + 1 < |run| {
        assert ConnStepAt(c, run, i);
      }
    }
    assert ConnEnds(c, longer, s');
  }

  lemma ConnReachesInv(c: Config, s: Connection)
    requires ConnReaches(c, s)
    ensures T.Inv(s.tm) && Reaches(c, s.net)
  {
    var run :| ConnEnds(c, run, s);
    RunProjects(c, run, |run| - 1);
    TimersReachInv(s.tm);
  }

  /** The handler is between two calls, and the youngest timer waits if there is one. */
  predicate Steady(tm: T.State, done: bool) {
    && tm.host == T.Idle && tm.lock == T.Nobody && tm.timers != [] && tm.late && !tm.rearmed
    && tm.finished == done && (!done ==> tm.timers[T.Last(tm)] == T.Waiting)
  }

  /** Net is t, but for the window of a finished sender. */
  predicate Alike(net: State, t: State) {
    && net.(snd := t.snd) == t
    && if t.snd.done then net.snd.done && net.snd.lastAcked == t.snd.lastAcked else net.snd == t.snd
  }

  /** Only the timer side moves. */
  lemma StopsStep(c: Config, s: Connection, tm: T.State) returns (s': Connection)
    requires ConnReaches(c, s) && (T.Joined(s.tm, tm) || T.Relock(s.tm, tm) || T.Resume(s.tm, tm))
    ensures ConnReaches(c, s') && s' == Connection(s.net, tm)
  {
    s' := Connection(s.net, tm);
    assert Stops(s, s');
    ConnReachesNext(c, s, s');
  }

  lemma TimerStepAlone(c: Config, s: Connection, tm: T.State, t: nat) returns (s': Connection)
    requires ConnReaches(c, s) && T.TimerStep(s.tm, tm, t) && tm.retransmits == s.tm.retransmits
    ensures ConnReaches(c, s') && s' == Connection(s.net, tm)
  {
    s' := Connection(s.net, tm);
    assert TimerMoves(c, s, s', t);
    ConnReachesNext(c, s, s');
  }

  /** The youngest timer takes the token. */
  lemma TimerStops(c: Config, s: Connection) returns (s': Connection)
    requires ConnReaches(c, s) && s.tm.timers != [] && s.tm.timers[T.Last(s.tm)] == T.Waiting && s.tm.tokens > 0
    ensures ConnReaches(c, s') && s'.net == s.net
    ensures s'.tm == s.tm.(timers := s.tm.timers[T.Last(s.tm) := T.Exited], tokens := s.tm.tokens - 1)
  {
    var t := T.Last(s.tm);
    var tm := s.tm.(timers := s.tm.timers[t := T.Exited], tokens := s.tm.tokens - 1);
    assert T.TakeToken(s.tm, tm, t);
    s' := TimerStepAlone(c, s, tm, t);
  }

  /** All timers are over: the handler joins them and gets the lock back. */
  lemma JoinsAndRelocks(c: Config, s: Connection) returns (s': Connection)
    requires ConnReaches(c, s) && s.tm.host.Joining? && s.tm.lock == T.Nobody && s.tm.timers != []
    requires s.tm.timers[T.Last(s.tm)] == T.Exited
    ensures ConnReaches(c, s') && s'.net == s.net
    ensures s'.tm == s.tm.(listed := {}, lock := T.HostThread, tokens := 0, host := T.Resuming(s.tm.host.goal))
  {
    ConnReachesInv(c, s);
    forall t | t in s.tm.listed ensures t < |s.tm.timers| && s.tm.timers[t] == T.Exited {
      assert T.TimerOk(s.tm, t);
    }
    var tm1 := s.tm.(listed := {}, host := T.Relocking(s.tm.host.goal));
    assert T.Joined(s.tm, tm1);
    var s1 := StopsStep(c, s, tm1);
    var tm2 := tm1.(lock := T.HostThread, tokens := 0, host := T.Resuming(s.tm.host.goal));
    assert T.Relock(tm1, tm2);
    s' := StopsStep(c, s1, tm2);
  }

  /** From the lowered flag to the new timer. */
  lemma ArmsAgain(c: Config, s: Connection) returns (s': Connection)
    requires ConnReaches(c, s) && s.tm.host == T.Joining(T.NextWindow) && s.tm.lock == T.Nobody && s.tm.timers != []
    requires s.tm.timers[T.Last(s.tm)] == T.Exited
    ensures ConnReaches(c, s') && s'.net == s.net && s'.tm.rearmed == s.tm.finished
    ensures s'.tm.host == T.Idle && s'.tm.lock == T.Nobody && s'.tm.late == s.tm.late
    ensures s'.tm.timers == s.tm.timers + [T.Waiting] && s'.tm.finished == s.tm.finished
  {
    var s1 := JoinsAndRelocks(c, s);
    var tm := s1.tm.(timers := s1.tm.timers + [T.Waiting], listed := s1.tm.listed + {|s1.tm.timers|},
                     allowed := true, lock := T.Nobody, host := T.Idle, rearmed := s1.tm.finished);
    assert T.Resume(s1.tm, tm);
    s' := StopsStep(c, s1, tm);
  }

  /** From the lowered flag to the end of the transfer: the timers are stopped twice. */
  lemma EndsForGood(c: Config, s: Connection) returns (s': Connection)
    requires ConnReaches(c, s) && s.tm.host == T.Joining(T.Complete) && s.tm.lock == T.Nobody && s.tm.timers != []
    requires s.tm.timers[T.Last(s.tm)] == T.Exited && s.tm.late && !s.tm.rearmed
    ensures ConnReaches(c, s') && s'.net == s.net && Steady(s'.tm, true)
  {
    var s1 := JoinsAndRelocks(c, s);
    var tm2 := T.Stopping(s1.tm, T.CompleteAgain);
    assert T.Resume(s1.tm, tm2);
    var s2 := StopsStep(c, s1, tm2);
    var s3 := JoinsAndRelocks(c, s2);
    var tm4 := s3.tm.(lock := T.Nobody, host := T.Idle, finished := true);
    assert T.Resume(s3.tm, tm4);
    s' := StopsStep(c, s3, tm4);
  }

  /** The handler takes the first acknowledgement. */
  lemma TakesAck(c: Config, s: Connection, done: bool) returns (s': Connection)
    requires ConnReaches(c, s) && Steady(s.tm, done) && s.net.acks != []
    ensures ConnReaches(c, s') && s'.net == s.net && s'.tm == s.tm.(host := T.Handling, lock := T.HostThread)
  {
    s' := Connection(s.net, s.tm.(host := T.Handling, lock := T.HostThread));
    assert Receives(s, s');
    ConnReachesNext(c, s, s');
  }

  /** A timer runs out, gets the lock and retransmits. */
  lemma TimesOut(c: Config, s: Connection, net: State) returns (s': Connection)
    requires ConnReaches(c, s) && Steady(s.tm, false) && Timeout(c, s.net, net)
    ensures ConnReaches(c, s') && s'.net == net && Steady(s'.tm, false)
  {
    ConnReachesInv(c, s);
    var t := T.Last(s.tm);
    var tm1 := s.tm.(timers := s.tm.timers[t := T.TimedOut]);
    assert T.RunOut(s.tm, tm1, t);
    var s1 := TimerStepAlone(c, s, tm1, t);
    var tm2 := tm1.(timers := tm1.timers[t := T.Locked], lock := T.TimerThread(t));
    assert T.Acquire(tm1, tm2, t);
    var s2 := TimerStepAlone(c, s1, tm2, t);
    var tm3 := tm2.(timers := tm2.timers[t := T.Exited] + [T.Waiting], listed := tm2.listed + {|tm2.timers|},
                    lock := T.Nobody, retransmits := tm2.retransmits + 1);
    assert T.Act(tm2, tm3, t);
    s' := Connection(net, tm3);
    assert TimerMoves(c, s2, s', t);
    ConnReachesNext(c, s2, s');
  }

  /** An acknowledgement is handled, with all that it entails, by an unfinished sender. */
  lemma AckHandled(c: Config, s: Connection, net: State) returns (s': Connection)
    requires ConnReaches(c, s) && Steady(s.tm, false) && !s.net.snd.done && AckArrives(c, s.net, net)
    ensures ConnReaches(c, s') && s'.net == net && Steady(s'.tm, net.snd.done)
  {
    var s1 := TakesAck(c, s, false);
    if HandleAck(s.net.snd, s.net.acks[0].id, |c.packets|).1 {
      var s2 := Connection(net, T.Stopping(s1.tm, T.NextWindow));
      assert Handles(c, s1, s2);
      ConnReachesNext(c, s1, s2);
      var s3 := TimerStops(c, s2);
      s' := ArmsAgain(c, s3);
    } else if net.snd.done {
      var s2 := Connection(net, T.Stopping(s1.tm, T.Complete));
      assert Handles(c, s1, s2);
      ConnReachesNext(c, s1, s2);
      var s3 := TimerStops(c, s2);
      s' := EndsForGood(c, s3);
    } else {
      s' := Connection(net, s1.tm.(host := T.Idle, lock := T.Nobody));
      assert Handles(c, s1, s');
      ConnReachesNext(c, s1, s');
    }
  }

  lemma ChannelFollows(c: Config, s: Connection, t: State, t': State)
    requires ConnReaches(c, s) && Alike(s.net, t) && s.tm.host == T.Idle
    requires (exists i: nat :: Deliver(c, t, t', i)) || (exists k: nat :: LoseData(t, t', k) || LoseAck(t, t', k))
    ensures var s' := Connection(t'.(snd := s.net.snd), s.tm);
      ConnReaches(c, s') && Alike(s'.net, t')
  {
    var s' := Connection(t'.(snd := s.net.snd), s.tm);
    if i: nat :| Deliver(c, t, t', i) {
      assert Deliver(c, s.net, s'.net, i);
    } else {
      var k: nat :| LoseData(t, t', k) || LoseAck(t, t', k);
      if LoseData(t, t', k) {
        assert LoseData(s.net, s'.net, k);
      } else {
        assert AckLost(s, s', k);
      }
    }
    assert ChannelStep(c, s, s');
    ConnReachesNext(c, s, s');
  }

  /** A finished sender of the protocol alone may move its window; here it stays. */
  lemma FinishedFollows(c: Config, s: Connection, t: State, t': State) returns (s': Connection)
    requires ConnReaches(c, s) && Alike(s.net, t) && Steady(s.tm, true) && SenderKept(c, t) && t.snd.done
    requires Timeout(c, t, t') || AckArrives(c, t, t')
    ensures ConnReaches(c, s') && Alike(s'.net, t') && Steady(s'.tm, true) && t'.snd.done
  {
    if Timeout(c, t, t') {
      FinishedSendsNothing(c, t);
      s' := s;
    } else {
      OtherAckSends(c, t, t');
      var t1 := t.(acks := t.acks[1..]);
      FinishedSendsNothing(c, t1);
      var lost := t.(acks := t.acks[..0] + t.acks[0 + 1..]);
      assert LoseAck(t, lost, 0) && lost == t1;
      ChannelFollows(c, s, t, lost);
      s' := Connection(lost.(snd := s.net.snd), s.tm);
    }
  }

  lemma NextFollows(c: Config, s: Connection, t: State, t': State) returns (s': Connection)
    requires ConnReaches(c, s) && Alike(s.net, t) && Steady(s.tm, t.snd.done) && SenderKept(c, t) && Next(c, t, t')
    ensures ConnReaches(c, s') && Alike(s'.net, t') && Steady(s'.tm, t'.snd.done)
  {
    if Timeout(c, t, t') || AckArrives(c, t, t') {
      if t.snd.done {
        s' := FinishedFollows(c, s, t, t');
      } else if Timeout(c, t, t') {
        s' := TimesOut(c, s, t');
      } else {
        s' := AckHandled(c, s, t');
      }
    } else {
      ChannelFollows(c, s, t, t');
      s' := Connection(t'.(snd := s.net.snd), s.tm);
    }
  }

  lemma {:induction false} RunFollows(c: Config, run: seq<State>, i: nat) returns (s: Connection)
    requires IsRun(c, run) && i < |run|
    ensures ConnReaches(c, s) && Alike(s.net, run[i]) && Steady(s.tm, run[i].snd.done)
  {
    if i == 0 {
      s := Connection(run[0], T.State([T.Waiting], {0}, 0, true, T.Nobody, T.Idle, false, false, 0, true));
      assert ConnEnds(c, [s], s);
    } else {
      var s0 := RunFollows(c, run, i - 1);
      RunKeepsEarly(c, run, i - 1);
      assert StepAt(c, run, i - 1);
      s := NextFollows(c, s0, run[i - 1], run[i]);
    }
  }

  /** The restart of a finished sender, with its timer. */
  lemma RestartArms(c: Config, s: Connection) returns (s': Connection)
    requires ConnReaches(c, s) && Steady(s.tm, true) && RestartsLate(c, s.net)
    ensures ConnReaches(c, s') && s'.tm.rearmed
  {
    ConnReachesInv(c, s);
    ReachedIsNamed(c, s.net);
    var s1 := TakesAck(c, s, true);
    RestartTransmits(c, s.net);
    var net := AfterAck(c, s.net);
    var s2 := Connection(net, T.Stopping(s1.tm, T.NextWindow));
    assert Handles(c, s1, s2);
    ConnReachesNext(c, s1, s2);
    s' := ArmsAgain(c, s2);
  }

  lemma RestartFollows(c: Config, t: State) returns (s: Connection)
    requires Reaches(c, t) && RestartsLate(c, t)
    ensures ConnReaches(c, s) && s.tm.rearmed
  {
    var run :| EndsIn(c, run, t);
    var s0 := RunFollows(c, run, |run| - 1);
    s := RestartArms(c, s0);
  }

  lemma RearmedHasReason(c: Config, s: Connection)
    requires ConnReaches(c, s) && s.tm.rearmed
    ensures CanRestart(c)
  {
    var run :| ConnEnds(c, run, s);
    RestartHasReason(c, run, |run| - 1);
  }

  /** A timer comes back after the completion in some run exactly if in some run of the
      protocol an acknowledgement that restarts it reaches the finished sender. */
  lemma TimerComesBack(c: Config)
    ensures CanRestart(c) <==> exists s: Connection :: ConnReaches(c, s) && s.tm.rearmed
  {
    if CanRestart(c) {
      var t: State :| Reaches(c, t) && RestartsLate(c, t);
      var s := RestartFollows(c, t);
    }
    forall s: Connection | ConnReaches(c, s) && s.tm.rearmed ensures CanRestart(c) {
      RearmedHasReason(c, s);
    }
  }

  /** For data packets in any order, in numbers: a timer can come back exactly if there are
      more than M - 2 packets and the next expected id is not the highest one. */
  lemma TimerComesBackAt(c: Config)
    requires ValidConfig(c) && !c.fifo
    ensures |c.packets| >= M - 1 && |c.packets| % M != M - 2 <==>
      exists s: Connection :: ConnReaches(c, s) && s.tm.rearmed
  {
    RestartLimit(c);
    TimerComesBack(c);
  }

  /** For either channel: M - 2 is the largest number of packets up to which the timers end
      with the transfer. */
  lemma RestLimit(fifo: bool, bound: nat)
    ensures bound <= M - 2 <==>
      forall c: Config, s: Connection {:trigger ConnReaches(c, s)} ::
        ConnReaches(c, s) && c.fifo == fifo && |c.packets| <= bound ==> !s.tm.rearmed
  {
    if bound <= M - 2 {
      forall c: Config, s: Connection | ConnReaches(c, s) && c.fifo == fifo && |c.packets| <= bound
        ensures !s.tm.rearmed
      {
        var run :| ConnEnds(c, run, s);
        ShortTransfersRest(c, run, |run| - 1);
      }
    } else {
      var t := ShortestIsDisturbed(fifo);
      TimerComesBack(Shortest(fifo));
    }
  }
}
