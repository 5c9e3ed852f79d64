/** Whole calls of the free list: try_get comes back with nothing only if the list was
    empty at some moment of the call, and calls that nobody disturbs pop the first node
    and push a node in front. */
module FreeListCalls {
  import opened Options
  import opened FreeList
  import opened Totals

  // ------------------------------------------------- a call that gets nothing

  /** Inside try_get, before a node was popped. */
  predicate Getting(p: Pc) {
    match p
    case GetHead => true
    case LoadRefs(_) => true
    case TakeRef(_, _) => true
    case LoadNext(_) => true
    case PopHead(_, _) => true
    case DropOne(_, _) => true
    case LoadHead(_, after) => after.Retry?
    case StoreNext(_, _, after) => after.Retry?
    case StoreRef(_, _, after) => after.Retry?
    case PushHead(_, _, after) => after.Retry?
    case Unpublish(_, _, after) => after.Retry?
    case _ => false
  }

  /** The thread has seen the list empty and will return when it has dropped its
      reference. */
  predicate SawEmpty(p: Pc) {
    match p
    case DropOne(_, newHead) => newHead == None
    case LoadHead(_, after) => after == Retry(None)
    case StoreNext(_, _, after) => after == Retry(None)
    case StoreRef(_, _, after) => after == Retry(None)
    case PushHead(_, _, after) => after == Retry(None)
    case Unpublish(_, _, after) => after == Retry(None)
    case _ => false
  }

  lemma ExecGets(s: State, t: Tid)
    requires NodesKnown(s) && t in s.pc && Getting(s.pc[t])
    ensures var s' := Exec(s, t);
      && t in s'.pc
      && (s'.pc[t].DropTwo? || (s'.pc[t] == Idle && (SawEmpty(s.pc[t]) || s.head == None))
          || (Getting(s'.pc[t]) && (SawEmpty(s'.pc[t]) ==> SawEmpty(s.pc[t]) || s.head == None)))
  {
    assert KnownAt(s, t);
  }

  lemma ExecMovesOne(s: State, u: Tid)
    requires NodesKnown(s) && u in s.pc
    ensures u in Exec(s, u).pc && Exec(s, u).pc == s.pc[u := Exec(s, u).pc[u]]
  {
    assert KnownAt(s, u);
  }

  lemma OthersLeave(s: State, s': State, t: Tid)
    requires Next(s, s') && t in s.pc && s.pc[t] != Idle
    ensures NodesKnown(s) && t in s'.pc && (s'.pc[t] == s.pc[t] || s' == Exec(s, t))
  {
    var u :| u in s.pc && (s' == Exec(s, u) || StartGet(s, s', u) || exists n :: StartAdd(s, s', u, n));
    ExecMovesOne(s, u);
  }

  /** One step of a call that has not popped a node. */
  lemma GoesOn(run: seq<State>, k: nat, t: Tid)
    requires IsRun(run) && k + 1 < |run| && t in run[k].pc && Getting(run[k].pc[t])
    ensures t in run[k + 1].pc
    ensures run[k + 1].pc[t] == Idle ==> SawEmpty(run[k].pc[t]) || run[k].head == None
    ensures run[k + 1].pc[t] == Idle || run[k + 1].pc[t].DropTwo? || Getting(run[k + 1].pc[t])
    ensures Getting(run[k + 1].pc[t]) && SawEmpty(run[k + 1].pc[t]) ==> SawEmpty(run[k].pc[t]) || run[k].head == None
  {
    assert StepAt(run, k);
    OthersLeave(run[k], run[k + 1], t);
    ExecGets(run[k], t);
  }

  ghost predicate EmptyBetween(run: seq<State>, i: nat, k: nat) {
    exists m: nat :: i <= m <= k < |run| && run[m].head == None
  }

  lemma {:induction false} StillGetting(run: seq<State>, i: nat, k: nat, t: Tid)
    requires IsRun(run) && i < k < |run| && StartGet(run[i], run[i + 1], t)
    requires forall m: nat {:trigger run[m]} :: i < m <= k && t in run[m].pc ==>
      run[m].pc[t] != Idle && !run[m].pc[t].DropTwo?
    ensures t in run[k].pc && Getting(run[k].pc[t])
    ensures SawEmpty(run[k].pc[t]) ==> EmptyBetween(run, i, k)
  {
    if k > i + 1 {
      StillGetting(run, i, k - 1, t);
      GoesOn(run, k - 1, t);
      assert run[k].pc[t] != Idle;
    }
  }

  /** A call of try_get that begins at i and is back at j without having popped a node: the
      list was empty at some moment in between. */
  lemma NothingOnlyFromEmpty(run: seq<State>, i: nat, j: nat, t: Tid)
    requires IsRun(run) && i + 1 < j < |run| && StartGet(run[i], run[i + 1], t)
    requires t in run[j].pc && run[j].pc[t] == Idle
    requires forall k: nat {:trigger run[k]} :: i < k < j && t in run[k].pc ==>
      run[k].pc[t] != Idle && !run[k].pc[t].DropTwo?
    ensures exists k: nat :: i <= k <= j && run[k].head == None
  {
    StillGetting(run, i, j - 1, t);
    GoesOn(run, j - 1, t);
    if SawEmpty(run[j - 1].pc[t]) {
      var m: nat :| i <= m <= j - 1 && run[m].head == None;
    } else {
      assert run[j - 1].head == None;
    }
  }

  // ------------------------------------------------------------ references

  /** The flag in the node's word. */
  function FlagOf(status: Status): nat {
    if status.Flagged? || status.Bare? then 1 else 0
  }

  lemma WordFits(s: State, n: Node)
    requires Inv(s) && n in s.word
    ensures n in s.status && 0 <= s.word[n] < WORD_SIZE && Refs(s.word[n]) == s.word[n] % SHOULD_BE_ON_FREELIST
    ensures s.word[n] / SHOULD_BE_ON_FREELIST == FlagOf(s.status[n])
  {
    assert Counted(s, n);
    RefsBounded(s, n);
    FlagAndRefs(s.word[n], FlagOf(s.status[n]));
  }

  lemma FlagAndRefs(word: int, flag: nat)
    requires flag <= 1 && 0 <= word - flag * SHOULD_BE_ON_FREELIST < SHOULD_BE_ON_FREELIST
    ensures word / SHOULD_BE_ON_FREELIST == flag && Refs(word) == word % SHOULD_BE_ON_FREELIST
  {
  }

  lemma TakesReference(s: State, t: Tid)
    requires NodesKnown(s) && t in s.pc && s.pc[t].TakeRef? && s.pc[t].node in s.word
    requires Exec(s, t).pc[t].LoadNext?
    ensures var n, s' := s.pc[t].node, Exec(s, t);
      && Refs(s.word[n]) != 0 && n in s'.word && s'.word[n] == FetchAdd(s.word[n], 1)
      && n in s'.status && s'.status[n] == s.status[n]
  {
  }

  /** A thread takes a reference only to a node that has one already, and the count of
      references never runs into the flag. */
  lemma ReferencesNeedOne(run: seq<State>, i: nat, t: Tid)
    requires IsRun(run) && i + 1 < |run| && t in run[i].pc && run[i].pc[t].TakeRef?
    requires t in run[i + 1].pc && run[i + 1].pc[t].LoadNext?
    ensures var n := run[i].pc[t].node;
      && n in run[i].word && n in run[i + 1].word
      && run[i].word[n] % SHOULD_BE_ON_FREELIST != 0
      && run[i + 1].word[n] == run[i].word[n] + 1
      && run[i + 1].word[n] / SHOULD_BE_ON_FREELIST == run[i].word[n] / SHOULD_BE_ON_FREELIST
  {
    RunKeepsInv(run, i);
    RunKeepsInv(run, i + 1);
    assert StepAt(run, i);
    ReferenceStep(run[i], run[i + 1], t);
  }

  lemma ReferenceStep(s: State, s': State, t: Tid)
    requires Inv(s) && Inv(s') && Next(s, s') && t in s.pc && s.pc[t].TakeRef? && t in s'.pc && s'.pc[t].LoadNext?
    ensures var n := s.pc[t].node;
      && n in s.word && n in s'.word && s.word[n] % SHOULD_BE_ON_FREELIST != 0 && s'.word[n] == s.word[n] + 1
      && s'.word[n] / SHOULD_BE_ON_FREELIST == s.word[n] / SHOULD_BE_ON_FREELIST
  {
    OthersLeave(s, s', t);
    assert KnownAt(s, t);
    TakesReference(s, t);
    WordFits(s, s.pc[t].node);
    WordFits(s', s.pc[t].node);
  }

  // ------------------------------------------------------- undisturbed calls

  ghost predicate OthersIdle(s: State, t: Tid) {
    forall u :: u in s.pc && u != t ==> s.pc[u] == Idle
  }

  /** Nobody but t is inside a call from i to j, and t is back for the first time at j. */
  ghost predicate AloneUntil(run: seq<State>, i: nat, j: nat, t: Tid) {
    && i + 1 < j < |run| && t in run[j].pc && run[j].pc[t] == Idle
    && (forall k: nat {:trigger run[k]} :: i <= k <= j ==> OthersIdle(run[k], t))
    && (forall k: nat {:trigger run[k]} :: i < k < j && t in run[k].pc ==> run[k].pc[t] != Idle)
  }

  /** How many steps the thread is from its return if nobody disturbs it. */
  function Left(p: Pc): nat {
    match p
    case Idle => 0
    case GetHead => 6
    case LoadRefs(_) => 5
    case TakeRef(_, _) => 4
    case LoadNext(_) => 3
    case PopHead(_, _) => 2
    case DropTwo(_) => 1
    case DropOne(_, _) => 7
    case AddFlag(_) => 5
    case LoadHead(_, _) => 4
    case StoreNext(_, _, _) => 3
    case StoreRef(_, _, _) => 2
    case PushHead(_, _, _) => 1
    case Unpublish(_, _, _) => 7
  }

  /** t's try_get, begun in state a, where nobody was inside a call. */
  ghost predicate GetPhase(a: State, s: State, t: Tid) {
    && t in s.pc && OthersIdle(s, t) && s.next == a.next && s.word.Keys == a.word.Keys
    && if a.list == [] then
         s.head == None && s.list == [] && s.status == a.status && (s.pc[t] == GetHead || s.pc[t] == Idle)
       else
         var n := a.list[0];
         && n in a.word && n in a.next && n in a.status
         && match s.pc[t]
            case GetHead => s.list == a.list && s.head == Some(n) && s.status == a.status && s.word[n] == 1
            case LoadRefs(m) =>
              m == n && s.list == a.list && s.head == Some(n) && s.status == a.status && s.word[n] == 1
            case TakeRef(m, refs) =>
              m == n && refs == 1 && s.list == a.list && s.head == Some(n) && s.status == a.status && s.word[n] == 1
            case LoadNext(m) => m == n && s.list == a.list && s.head == Some(n) && s.status == a.status
            case PopHead(m, next) => m == n && s.list == a.list && s.head == Some(n) && s.status == a.status
            case DropTwo(m) => m == n && s.list == a.list[1..] && s.status == a.status[n := Popped(t)]
            case Idle => s.list == a.list[1..] && s.status == a.status[n := Held]
            case _ => false
  }

  lemma GetPhaseGoesOn(a: State, s: State, t: Tid)
    requires GetPhase(a, s, t) && NodesKnown(s) && s.pc[t] != Idle
    ensures GetPhase(a, Exec(s, t), t) && Left(Exec(s, t).pc[t]) < Left(s.pc[t])
  {
    assert KnownAt(s, t);
  }

  lemma GetPhaseBegins(a: State, s: State, t: Tid)
    requires Inv(a) && OthersIdle(a, t) && StartGet(a, s, t)
    ensures GetPhase(a, s, t)
  {
    if a.list != [] {
      var n := a.list[0];
      assert n in a.list && ListedIff(a, n) && Counted(a, n);
      NoReferences(a, n);
    }
  }

  lemma NoReferences(a: State, n: Node)
    requires forall u :: u in a.pc ==> a.pc[u] == Idle
    ensures Total(a.pc, RefWeight(n)) == 0
  {
    TotalZero(a.pc, RefWeight(n));
  }

  /** t's add of n, begun in state a, where nobody was inside a call. */
  ghost predicate AddPhase(a: State, s: State, t: Tid, n: Node) {
    && t in s.pc && OthersIdle(s, t) && n in s.word && n in s.status && s.status == a.status[n := s.status[n]]
    && match s.pc[t]
       case AddFlag(m) => m == n && s.list == a.list && s.head == a.head && s.word[n] == 0
       case LoadHead(m, after) => m == n && after == Return && s.list == a.list && s.head == a.head
       case StoreNext(m, head, after) => m == n && after == Return && s.list == a.list && head == s.head == a.head
       case StoreRef(m, head, after) => m == n && after == Return && s.list == a.list && head == s.head == a.head
       case PushHead(m, head, after) => m == n && after == Return && s.list == a.list && head == s.head == a.head
       case Idle => s.list == [n] + a.list && s.status[n] == Listed
       case _ => false
  }

  lemma AddPhaseGoesOn(a: State, s: State, t: Tid, n: Node)
    requires AddPhase(a, s, t, n) && NodesKnown(s) && s.pc[t] != Idle
    ensures AddPhase(a, Exec(s, t), t, n) && Left(Exec(s, t).pc[t]) < Left(s.pc[t])
  {
    assert KnownAt(s, t);
  }

  lemma AddPhaseBegins(a: State, s: State, t: Tid, n: Node)
    requires Inv(a) && OthersIdle(a, t) && StartAdd(a, s, t, n)
    ensures AddPhase(a, s, t, n)
  {
    assert Counted(a, n);
    NoReferences(a, n);
  }

  /** A step while the others are idle is t's own or none. */
  lemma AloneStep(run: seq<State>, k: nat, t: Tid)
    requires IsRun(run) && k + 1 < |run| && t in run[k].pc && run[k].pc[t] != Idle
    requires OthersIdle(run[k], t) && OthersIdle(run[k + 1], t)
    ensures NodesKnown(run[k]) && (run[k + 1] == run[k] || run[k + 1] == Exec(run[k], t))
  {
    assert StepAt(run, k);
    IdleStepIsNone(run[k], run[k + 1], t);
  }

  lemma IdleStepIsNone(s: State, s': State, t: Tid)
    requires Next(s, s') && t in s.pc && s.pc[t] != Idle && OthersIdle(s, t) && OthersIdle(s', t)
    ensures NodesKnown(s) && (s' == s || s' == Exec(s, t))
  {
    var u :| u in s.pc && (s' == Exec(s, u) || StartGet(s, s', u) || exists n :: StartAdd(s, s', u, n));
    if s' == Exec(s, u) {
      IdleStays(s, u);
    } else {
      StartLeavesIdle(s, s', u);
    }
  }

  lemma IdleStays(s: State, u: Tid)
    requires NodesKnown(s) && u in s.pc
    ensures s.pc[u] == Idle ==> Exec(s, u) == s
  {
  }

  lemma StartLeavesIdle(s: State, s': State, u: Tid)
    requires StartGet(s, s', u) || exists n :: StartAdd(s, s', u, n)
    ensures u in s.pc && s.pc[u] == Idle && u in s'.pc && s'.pc[u] != Idle
  {
  }

  lemma {:induction false} AloneGets(run: seq<State>, i: nat, k: nat, j: nat, t: Tid)
    requires IsRun(run) && AloneUntil(run, i, j, t) && i < k <= j && StartGet(run[i], run[i + 1], t)
    ensures GetPhase(run[i], run[k], t)
  {
    RunKeepsInv(run, i);
    assert OthersIdle(run[i], t);
    if k == i + 1 {
      GetPhaseBegins(run[i], run[k], t);
    } else {
      AloneGets(run, i, k - 1, j, t);
      assert OthersIdle(run[k - 1], t) && OthersIdle(run[k], t) && run[k - 1].pc[t] != Idle;
      AloneStep(run, k - 1, t);
      GetPhaseGoesOn(run[i], run[k - 1], t);
    }
  }

  lemma {:induction false} AloneAdds(run: seq<State>, i: nat, k: nat, j: nat, t: Tid, n: Node)
    requires IsRun(run) && AloneUntil(run, i, j, t) && i < k <= j && StartAdd(run[i], run[i + 1], t, n)
    ensures AddPhase(run[i], run[k], t, n)
  {
    RunKeepsInv(run, i);
    assert OthersIdle(run[i], t);
    if k == i + 1 {
      AddPhaseBegins(run[i], run[k], t, n);
    } else {
      AloneAdds(run, i, k - 1, j, t, n);
      assert OthersIdle(run[k - 1], t) && OthersIdle(run[k], t) && run[k - 1].pc[t] != Idle;
      AloneStep(run, k - 1, t);
      AddPhaseGoesOn(run[i], run[k - 1], t, n);
    }
  }

  /** A call of try_get that nobody disturbs pops the first node, if there is one, for its
      caller, and leaves the rest of the list. */
  lemma UndisturbedGet(run: seq<State>, i: nat, j: nat, t: Tid)
    requires IsRun(run) && AloneUntil(run, i, j, t) && StartGet(run[i], run[i + 1], t)
    ensures if run[i].list == [] then run[j].list == [] && run[j].status == run[i].status
            else
              && run[j].list == run[i].list[1..]
              && run[j].status == run[i].status[run[i].list[0] := Held]
  {
    AloneGets(run, i, j, j, t);
  }

  /** A call of add that nobody disturbs puts its node in front of the list. */
  lemma UndisturbedAdd(run: seq<State>, i: nat, j: nat, t: Tid, n: Node)
    requires IsRun(run) && AloneUntil(run, i, j, t) && StartAdd(run[i], run[i + 1], t, n)
    ensures run[j].list == [n] + run[i].list && run[j].status == run[i].status[n := Listed]
  {
    AloneAdds(run, i, j, j, t, n);
  }

  // ------------------------------------------------------------ they come back

  ghost predicate Extends(run: seq<State>, longer: seq<State>, steps: nat) {
    IsRun(longer) && |longer| <= |run| + steps && run <= longer
  }

  lemma OneMore(run: seq<State>, t: Tid) returns (longer: seq<State>)
    requires IsRun(run) && t in run[|run| - 1].pc
    ensures NodesKnown(run[|run| - 1]) && IsRun(longer) && longer == run + [Exec(run[|run| - 1], t)]
  {
    var last := run[|run| - 1];
    RunKeepsInv(run, |run| - 1);
    longer := run + [Exec(last, t)];
    forall k: nat | k + 1 < |longer| ensures StepAt(longer, k) {
      if k + 1 < |run| {
        assert StepAt(run, k);
      }
    }
  }

  lemma {:induction false} GetsBack(run: seq<State>, a: State, t: Tid) returns (longer: seq<State>)
    requires IsRun(run) && GetPhase(a, run[|run| - 1], t)
    ensures Extends(run, longer, Left(run[|run| - 1].pc[t]))
    ensures GetPhase(a, longer[|longer| - 1], t) && longer[|longer| - 1].pc[t] == Idle
    decreases Left(run[|run| - 1].pc[t])
  {
    if run[|run| - 1].pc[t] == Idle {
      longer := run;
    } else {
      var next := OneMore(run, t);
      GetPhaseGoesOn(a, run[|run| - 1], t);
      longer := GetsBack(next, a, t);
    }
  }

  lemma {:induction false} AddsBack(run: seq<State>, a: State, t: Tid, n: Node) returns (longer: seq<State>)
    requires IsRun(run) && AddPhase(a, run[|run| - 1], t, n)
    ensures Extends(run, longer, Left(run[|run| - 1].pc[t]))
    ensures AddPhase(a, longer[|longer| - 1], t, n) && longer[|longer| - 1].pc[t] == Idle
    decreases Left(run[|run| - 1].pc[t])
  {
    if run[|run| - 1].pc[t] == Idle {
      longer := run;
    } else {
      var next := OneMore(run, t);
      AddPhaseGoesOn(a, run[|run| - 1], t, n);
      longer := AddsBack(next, a, t, n);
    }
  }

  /** Left alone, a thread that has begun a call is back after at most six steps: with the
      first node of the list, or with its own node in front of it. */
  lemma UndisturbedCallsEnd(run: seq<State>, i: nat, t: Tid, n: Node)
    requires IsRun(run) && i + 2 == |run| && OthersIdle(run[i], t)
    requires StartGet(run[i], run[i + 1], t) || StartAdd(run[i], run[i + 1], t, n)
    ensures exists longer: seq<State> ::
      && Extends(run, longer, 6) && t in longer[|longer| - 1].pc && longer[|longer| - 1].pc[t] == Idle
      && longer[|longer| - 1].list == (if StartAdd(run[i], run[i + 1], t, n) then [n] + run[i].list
                                       else if run[i].list == [] then [] else run[i].list[1..])
  {
    RunKeepsInv(run, i);
    if StartAdd(run[i], run[i + 1], t, n) {
      AddPhaseBegins(run[i], run[i + 1], t, n);
      var longer := AddsBack(run, run[i], t, n);
      assert Extends(run, longer, 6);
    } else {
      GetPhaseBegins(run[i], run[i + 1], t);
      var longer := GetsBack(run, run[i], t);
      assert Extends(run, longer, 6);
    }
  }
}
