/** The retransmission timer of a connection: a thread that waits on a notifier
    until it is told to stop or its time is up, and the handler thread that stops it
    by lowering a flag, posting a token and giving up the lock while it joins.

    One transfer, from the first window sent on. Acknowledgements are handled after the
    completion too; `late` says whether one of them may restart the sender, which arms a
    timer again. When that can happen is the subject of modules GoBackNFinished and
    Connections. */
module Timers {

  /** A timer thread waits, has run out and wants the lock, holds it, or is over. */
  datatype Timer = Waiting | TimedOut | Locked | Exited

  /** What the handler does when the old timers are joined: send a window and arm a
      new timer, or end the transfer, which stops the timers a second time. */
  datatype Goal = NextWindow | Complete | CompleteAgain

  datatype Host =
    | Idle
    | Handling
    | Joining(goal: Goal)
    | Relocking(goal: Goal)
    | Resuming(goal: Goal)

  datatype Owner = Nobody | HostThread | TimerThread(t: nat)

  /** The timer threads ever started, those in the thread list, the tokens in the
      notifier, the flag, the owner of the lock, whether the transfer is finished, whether
      a timer was armed after that, and how often a timer retransmitted. */
  datatype State = State(
    timers: seq<Timer>,
    listed: set<nat>,
    tokens: nat,
    allowed: bool,
    lock: Owner,
    host: Host,
    finished: bool,
    rearmed: bool,
    retransmits: nat,
    late: bool)

  // ------------------------------------------------------------- timer threads

  /** wait_dequeue_timed finds a token: the thread ends. */
  ghost predicate TakeToken(s: State, s': State, t: nat) {
    && t < |s.timers| && s.timers[t] == Waiting && s.tokens > 0
    && s' == s.(timers := s.timers[t := Exited], tokens := s.tokens - 1)
  }

  ghost predicate RunOut(s: State, s': State, t: nat) {
    && t < |s.timers| && s.timers[t] == Waiting
    && s' == s.(timers := s.timers[t := TimedOut])
  }

  ghost predicate Acquire(s: State, s': State, t: nat) {
    && t < |s.timers| && s.timers[t] == TimedOut && s.lock == Nobody
    && s' == s.(timers := s.timers[t := Locked], lock := TimerThread(t))
  }

  /** Under the lock: if still allowed, retransmit and start the next timer. */
  ghost predicate Act(s: State, s': State, t: nat) {
    && t < |s.timers| && s.timers[t] == Locked
    && s' == if s.allowed then
               s.(timers := s.timers[t := Exited] + [Waiting], listed := s.listed + {|s.timers|},
                  lock := Nobody, retransmits := s.retransmits + 1)
             else s.(timers := s.timers[t := Exited], lock := Nobody)
  }

  ghost predicate TimerStep(s: State, s': State, t: nat) {
    TakeToken(s, s', t) || RunOut(s, s', t) || Acquire(s, s', t) || Act(s, s', t)
  }

  // ------------------------------------------------------------ handler thread

  ghost predicate StartHandling(s: State, s': State) {
    s.host == Idle && s.lock == Nobody && s' == s.(host := Handling, lock := HostThread)
  }

  /** An acknowledgement that neither completes the window nor restarts it. */
  ghost predicate HandleQuietly(s: State, s': State) {
    s.host == Handling && s' == s.(host := Idle, lock := Nobody)
  }

  /** stopTimeout, first part: flag, token, unlock. */
  function Stopping(s: State, goal: Goal): State {
    s.(allowed := false, tokens := s.tokens + 1, lock := Nobody, host := Joining(goal))
  }

  ghost predicate BeginStop(s: State, s': State, goal: Goal) {
    && s.host == Handling && s' == Stopping(s, goal)
    && (goal == NextWindow ==> !s.finished || s.late)
    && (goal == Complete ==> !s.finished) && goal != CompleteAgain
  }

  /** All threads of the list are joined; the list is cleared. */
  ghost predicate Joined(s: State, s': State) {
    && s.host.Joining? && (forall t :: t in s.listed ==> t < |s.timers| && s.timers[t] == Exited)
    && s' == s.(listed := {}, host := Relocking(s.host.goal))
  }

  /** stopTimeout, last part: lock, fresh notifier. */
  ghost predicate Relock(s: State, s': State) {
    && s.host.Relocking? && s.lock == Nobody
    && s' == s.(lock := HostThread, tokens := 0, host := Resuming(s.host.goal))
  }

  ghost predicate Resume(s: State, s': State) {
    && s.host.Resuming?
    && s' == match s.host.goal
             case NextWindow => s.(timers := s.timers + [Waiting], listed := s.listed + {|s.timers|},
                                   allowed := true, lock := Nobody, host := Idle, rearmed := s.finished)
             case Complete => Stopping(s, CompleteAgain)
             case CompleteAgain => s.(lock := Nobody, host := Idle, finished := true)
  }

  ghost predicate HostStep(s: State, s': State) {
    || StartHandling(s, s') || HandleQuietly(s, s')
    || BeginStop(s, s', NextWindow) || BeginStop(s, s', Complete)
    || Joined(s, s') || Relock(s, s') || Resume(s, s')
  }

  /** The first window has been sent and its timer started. */
  ghost predicate Init(s: State) {
    s == State([Waiting], {0}, 0, true, Nobody, Idle, false, false, 0, s.late)
  }

  ghost predicate Next(s: State, s': State) {
    HostStep(s, s') || exists t: nat :: TimerStep(s, s', t)
  }

  ghost predicate StepAt(run: seq<State>, i: nat)
    requires i + 1 < |run|
  {
    Next(run[i], run[i + 1])
  }

  ghost predicate IsRun(run: seq<State>) {
    && run != [] && Init(run[0])
    && forall i: nat {:trigger StepAt(run, i)} :: i + 1 < |run| ==> StepAt(run, i)
  }

  // ----------------------------------------------------------------- invariant

  /** The youngest timer thread. */
  function Last(s: State): nat
    requires s.timers != []
  {
    |s.timers| - 1
  }

  /** A timer that is not the youngest is over; one that is not over is listed. */
  ghost predicate TimerOk(s: State, t: nat)
    requires t < |s.timers|
  {
    && (t + 1 < |s.timers| ==> s.timers[t] == Exited)
    && (s.timers[t] != Exited ==> t in s.listed)
    && (s.timers[t] == Locked <==> s.lock == TimerThread(t))
  }

  predicate HostHasLock(h: Host) {
    h.Handling? || h.Resuming?
  }

  /** The flag, the tokens and the youngest timer, by what the handler is doing. */
  predicate PhaseOk(s: State)
    requires s.timers != []
  {
    var last := s.timers[Last(s)];
    && (s.rearmed ==> s.finished && s.late)
    && (s.finished && !s.host.Idle? && !s.host.Handling? ==> s.late && s.host.goal == NextWindow)
    && if s.host.Idle? || s.host.Handling? then
         if s.finished && !s.rearmed then !s.allowed && last == Exited
         else s.allowed && last != Exited && s.tokens == 0
       else if s.host.Joining? then !s.allowed && (last == Waiting ==> s.tokens > 0)
       else !s.allowed && last == Exited && s.listed == {} && (s.host.Resuming? ==> s.tokens == 0)
  }

  ghost predicate Inv(s: State) {
    && s.timers != [] && PhaseOk(s)
    && (forall t: nat {:trigger TimerOk(s, t)} :: t < |s.timers| ==> TimerOk(s, t))
    && (forall t :: t in s.listed ==> t < |s.timers|)
    && (s.lock == HostThread <==> HostHasLock(s.host))
    && (s.lock.TimerThread? ==> s.lock.t < |s.timers|)
  }

  lemma TimerStepKeepsInv(s: State, s': State, t: nat)
    requires Inv(s) && TimerStep(s, s', t)
    ensures Inv(s')
  {
    assert TimerOk(s, t) && t == Last(s);
    forall u: nat | u < |s'.timers| ensures TimerOk(s', u) {
      if u < |s.timers| {
        assert TimerOk(s, u);
      }
    }
  }

  lemma HostStepKeepsInv(s: State, s': State)
    requires Inv(s) && HostStep(s, s')
    ensures Inv(s')
  {
    assert TimerOk(s, Last(s));
    forall u: nat | u < |s'.timers| ensures TimerOk(s', u) {
      if u < |s.timers| {
        assert TimerOk(s, u);
      }
    }
  }

  lemma {:induction false} RunKeepsInv(run: seq<State>, i: nat)
    requires IsRun(run) && i < |run|
    ensures Inv(run[i])
  {
    if i == 0 {
      assert TimerOk(run[0], 0);
    } else {
      RunKeepsInv(run, i - 1);
      assert StepAt(run, i - 1);
      if HostStep(run[i - 1], run[i]) {
        HostStepKeepsInv(run[i - 1], run[i]);
      } else {
        var t: nat :| TimerStep(run[i - 1], run[i], t);
        TimerStepKeepsInv(run[i - 1], run[i], t);
      }
    }
  }

  // --------------------------------------------------------------- main results

  ghost predicate NoneAlive(s: State) {
    !s.allowed && forall t :: 0 <= t < |s.timers| ==> s.timers[t] == Exited
  }

  /** One timer thread is alive, it is in the thread list, and it is allowed to act. */
  ghost predicate OneAlive(s: State) {
    && s.allowed && s.tokens == 0
    && exists t :: 0 <= t < |s.timers| && t in s.listed
                   && forall u :: 0 <= u < |s.timers| ==> (s.timers[u] != Exited <==> u == t)
  }

  /** Between two handler calls exactly one timer thread is alive, listed and allowed to
      retransmit while the transfer is unfinished, and none after it, unless a late
      acknowledgement has restarted the sender; then there is one again. */
  lemma ExactlyOneTimer(run: seq<State>, i: nat)
    requires IsRun(run) && i < |run| && run[i].host == Idle
    ensures if run[i].finished && !run[i].rearmed then NoneAlive(run[i]) else OneAlive(run[i])
    ensures run[i].rearmed ==> run[i].finished && run[i].late
  {
    var s := run[i];
    RunKeepsInv(run, i);
    var t := Last(s);
    assert TimerOk(s, t);
    forall u | 0 <= u < |s.timers| ensures s.timers[u] != Exited ==> u == t {
      assert TimerOk(s, u);
    }
  }

  lemma StepKeepsRearmed(s: State, s': State)
    requires Inv(s) && Next(s, s') && s.rearmed
    ensures s'.rearmed
  {
  }

  /** Such a timer is there for good: between handler calls one is alive ever after, and
      each that runs out starts the next. */
  lemma {:induction false} RearmedForEver(run: seq<State>, i: nat, j: nat)
    requires IsRun(run) && i <= j < |run| && run[i].rearmed
    ensures run[j].rearmed && (run[j].host == Idle ==> OneAlive(run[j]))
    decreases j
  {
    if i < j {
      RearmedForEver(run, i, j - 1);
      RunKeepsInv(run, j - 1);
      assert StepAt(run, j - 1);
      StepKeepsRearmed(run[j - 1], run[j]);
    }
    if run[j].host == Idle {
      ExactlyOneTimer(run, j);
    }
  }

  /** While the handler has given up the lock to join, no timer thread retransmits,
      starts a thread or touches the thread list. */
  lemma NobodyActsDuringJoin(run: seq<State>, i: nat, t: nat)
    requires IsRun(run) && i + 1 < |run| && TimerStep(run[i], run[i + 1], t)
    requires run[i].host.Joining? || run[i].host.Relocking?
    ensures run[i + 1].retransmits == run[i].retransmits && run[i + 1].listed == run[i].listed
    ensures |run[i + 1].timers| == |run[i].timers| && !run[i + 1].allowed
  {
    RunKeepsInv(run, i);
  }

  ghost predicate CanStep(s: State, t: nat) {
    exists s' :: TimerStep(s, s', t)
  }

  /** Joining comes to an end: each thread of the list that is not over can take a
      step, and never waits for the handler. */
  lemma JoinIsNeverStuck(run: seq<State>, i: nat, t: nat)
    requires IsRun(run) && i < |run| && run[i].host.Joining? && t in run[i].listed
    ensures t < |run[i].timers|
    ensures run[i].timers[t] != Exited ==> CanStep(run[i], t)
  {
    var s := run[i];
    RunKeepsInv(run, i);
    var holder := if s.lock.TimerThread? then s.lock.t else t;
    assert TimerOk(s, t) && TimerOk(s, holder);
    match s.timers[t]
    case Waiting =>
      assert TimerStep(s, s.(timers := s.timers[t := Exited], tokens := s.tokens - 1), t);
    case TimedOut =>
      assert TimerStep(s, s.(timers := s.timers[t := Locked], lock := TimerThread(t)), t);
    case Locked =>
      assert TimerStep(s, s.(timers := s.timers[t := Exited], lock := Nobody), t);
    case Exited =>
  }

  /** The steps a timer thread still has to take. */
  function Remaining(x: Timer): nat {
    match x
    case Waiting => 3
    case TimedOut => 2
    case Locked => 1
    case Exited => 0
  }

  /** And each such step brings it closer to its end, so at most three are taken
      before the handler goes on. */
  lemma JoinComesCloser(run: seq<State>, i: nat, t: nat)
    requires IsRun(run) && i + 1 < |run| && run[i].host.Joining? && TimerStep(run[i], run[i + 1], t)
    ensures t < |run[i].timers| && t < |run[i + 1].timers|
    ensures Remaining(run[i + 1].timers[t]) < Remaining(run[i].timers[t])
    ensures forall u :: 0 <= u < |run[i].timers| && u != t ==> run[i + 1].timers[u] == run[i].timers[u]
  {
    RunKeepsInv(run, i);
  }

  /** What the youngest timer, the only one that can be alive, still has to do. */
  function Left(s: State): nat
    requires s.timers != []
  {
    Remaining(s.timers[Last(s)])
  }

  lemma JoiningStep(s: State, s': State)
    requires Inv(s) && Next(s, s') && s.host.Joining? && s'.host.Joining?
    ensures s'.timers != [] && Left(s') < Left(s)
  {
    var t: nat :| TimerStep(s, s', t);
    assert TimerOk(s, t);
  }

  /** So a join lasts for at most three steps, whatever is scheduled: as long as the handler
      is joining, each step brings the one living timer closer to its end. */
  lemma {:induction false} JoinIsShort(run: seq<State>, i: nat, j: nat)
    requires IsRun(run) && i <= j < |run|
    requires forall k: nat {:trigger run[k]} :: i <= k <= j ==> run[k].host.Joining?
    ensures run[i].timers != [] && run[j].timers != []
    ensures j - i <= Left(run[i]) - Left(run[j]) <= 3
    decreases j
  {
    RunKeepsInv(run, i);
    if i < j {
      JoinIsShort(run, i, j - 1);
      RunKeepsInv(run, j - 1);
      assert run[j - 1].host.Joining? && run[j].host.Joining?;
      assert StepAt(run, j - 1);
      JoiningStep(run[j - 1], run[j]);
    }
  }

  /** The thread list is cleared only when all its threads have been joined, and a
      timer thread that is alive is always listed: no thread is forgotten. */
  lemma NoThreadIsForgotten(run: seq<State>, i: nat, t: nat)
    requires IsRun(run) && i < |run| && t < |run[i].timers| && run[i].timers[t] != Exited
    ensures t in run[i].listed
    ensures !run[i].host.Relocking? && !run[i].host.Resuming?
  {
    RunKeepsInv(run, i);
    assert TimerOk(run[i], t);
  }

  /** The lock has one owner at a time. */
  lemma LockIsExclusive(run: seq<State>, i: nat, t: nat, u: nat)
    requires IsRun(run) && i < |run| && t < |run[i].timers| && u < |run[i].timers|
    requires run[i].timers[t] == Locked
    ensures !HostHasLock(run[i].host)
    ensures run[i].timers[u] == Locked ==> u == t
  {
    RunKeepsInv(run, i);
    assert TimerOk(run[i], t) && TimerOk(run[i], u);
  }
}
