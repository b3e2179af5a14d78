/** Restarting the input method: requests are coalesced by a counter, tasks work them off.

    Tasks may overlap with requests of other threads, so the counter and the tasks drift apart; the
    counter may even become negative.  The handler may refuse a task.  A refusal resets the counter,
    except when a task re-posts itself to wait for an attach: that answer is not looked at. */
module RestartTasks {

  const MAX_RESTART_TASKS := 2
  const WAIT_ATTACH_FINISH_MAX_TIMES := 20

  /** `restarts` is the counter and `waits` the retries spent on unfinished attaches.  The rest counts
      tasks: about to be posted, about to be re-posted for an attach, waiting in the queue, past the
      attach check, about to decrement. */
  datatype State = State(
    restarts: int, waits: nat, posting: nat, reposting: nat, queued: nat, starting: nat, finishing: nat)

  const INITIAL := State(0, 0, 0, 0, 0, 0, 0)

  function Tasks(s: State): nat {
    s.posting + s.reposting + s.queued + s.starting + s.finishing
  }

  datatype Decision = Discard | Retry | Proceed

  /** `attaching`: an attach is under way; `firstScb`: the scene board started at most once. */
  function Decide(s: State, attaching: bool, firstScb: bool): Decision {
    if attaching && firstScb then Discard
    else if attaching && s.waits < WAIT_ATTACH_FINISH_MAX_TIMES then Retry
    else Proceed
  }

  datatype Step =
    | Request
    | Post(ok: bool)
    | Repost(ok: bool)
    | Check(attaching: bool, firstScb: bool)
    | Start(canStart: bool)
    | Decrement

  predicate Enabled(s: State, step: Step) {
    match step
    case Request => true
    case Post(_) => s.posting > 0
    case Repost(_) => s.reposting > 0
    case Check(_, _) => s.queued > 0
    case Start(_) => s.starting > 0
    case Decrement => s.finishing > 0
  }

  function Next(s: State, step: Step): State
    requires Enabled(s, step)
  {
    match step
    case Request =>
      if s.restarts >= MAX_RESTART_TASKS then s else
      var n := (if s.restarts < 0 then 0 else s.restarts) + 1;
      s.(restarts := n, posting := if n == 1 then s.posting + 1 else s.posting)
    case Post(ok) =>
      if ok then s.(posting := s.posting - 1, queued := s.queued + 1)
      else s.(posting := s.posting - 1, restarts := 0)
    case Repost(ok) =>
      s.(reposting := s.reposting - 1, queued := if ok then s.queued + 1 else s.queued)
    case Check(attaching, firstScb) =>
      var s1 := s.(queued := s.queued - 1);
      match Decide(s, attaching, firstScb) {
        case Discard => s1.(restarts := 0)
        case Retry => s1.(waits := s.waits + 1, reposting := s.reposting + 1)
        case Proceed => s1.(waits := 0, starting := s.starting + 1)
      }
    case Start(canStart) =>
      s.(restarts := if canStart then 0 else s.restarts, starting := s.starting - 1, finishing := s.finishing + 1)
    case Decrement =>
      var n := s.restarts - 1;
      s.(restarts := n, finishing := s.finishing - 1, posting := if n > 0 then s.posting + 1 else s.posting)
  }

  ghost predicate Run(ss: seq<State>, steps: seq<Step>) {
    && |ss| == |steps| + 1 && ss[0] == INITIAL
    && forall i :: 0 <= i < |steps| ==> Enabled(ss[i], steps[i]) && ss[i + 1] == Next(ss[i], steps[i])
  }

  predicate Bounded(s: State) {
    s.restarts <= 2 && s.waits <= 20
  }

  /** While the counter is positive there is a task that will look at it. */
  predicate Covered(s: State) {
    s.restarts > 0 ==> Tasks(s) > 0
  }

  /** The refused re-post of the only task, with requests counted. */
  predicate Strands(s: State, step: Step) {
    step == Repost(false) && Tasks(s) == 1 && s.restarts > 0
  }

  /** One step keeps the counter covered exactly when it is not that refusal. */
  lemma CoveredIff(s: State, step: Step)
    requires Covered(s) && Enabled(s, step)
    ensures Covered(Next(s, step)) <==> !Strands(s, step)
  {
  }

  /** The counter stays at two or below in every run, whatever the handler refuses. */
  lemma {:induction false} RunIsBounded(ss: seq<State>, steps: seq<Step>, k: nat)
    requires Run(ss, steps) && k < |ss|
    ensures Bounded(ss[k])
  {
    if k == 0 {
    } else {
      RunIsBounded(ss, steps, k - 1);
    }
  }

  ghost predicate NeverStrands(ss: seq<State>, steps: seq<Step>, n: nat) {
    |ss| == |steps| + 1 && n < |ss| && forall i :: 0 <= i < n ==> !Strands(ss[i], steps[i])
  }

  /** A positive counter has a task in every state, unless a refused re-post stranded it. */
  lemma {:induction false} RunIsCovered(ss: seq<State>, steps: seq<Step>, k: nat)
    requires Run(ss, steps) && k < |ss| && NeverStrands(ss, steps, k)
    ensures Covered(ss[k])
  {
    if k == 0 {
    } else {
      RunIsCovered(ss, steps, k - 1);
      CoveredIff(ss[k - 1], steps[k - 1]);
    }
  }

  /** Stranded once, the counter stays positive without a task: no request is ever served again. */
  lemma {:induction false} StrandedForever(ss: seq<State>, steps: seq<Step>, i: nat, n: nat)
    requires Run(ss, steps) && i < n < |ss| && Strands(ss[i], steps[i])
    ensures Tasks(ss[n]) == 0 && ss[n].restarts > 0
  {
    if n == i + 1 {
    } else {
      StrandedForever(ss, steps, i, n - 1);
    }
  }

  /** Stranding happens: a request, a task that waits for an attach, and a refusal. */
  lemma StrandingExists() returns (ss: seq<State>, steps: seq<Step>)
    ensures Run(ss, steps) && steps != [] && Strands(ss[|steps| - 1], steps[|steps| - 1])
  {
    ss, steps := Extend([INITIAL], [], Request);
    ss, steps := Extend(ss, steps, Post(true));
    ss, steps := Extend(ss, steps, Check(true, false));
    ss, steps := Extend(ss, steps, Repost(false));
  }

  // -------------------------------------------------- coalesced requests are served

  /** A task tries to start the IME. */
  predicate Attempts(step: Step) {
    step == Start(true)
  }

  /** A task ends without trying: the IME cannot be started, or the request is dropped for the first
      scene-board start. */
  predicate GivesUp(s: State, step: Step) {
    step == Start(false) || (step.Check? && Decide(s, step.attaching, step.firstScb) == Discard)
  }

  predicate Refused(step: Step) {
    step == Post(false) || step == Repost(false)
  }

  /** A task has yet to reach its start, or its decrement will leave the counter positive. */
  predicate Awaited(s: State) {
    s.posting + s.reposting + s.queued + s.starting > 0 || (s.finishing > 0 && s.restarts >= 2)
  }

  lemma RequestIsAwaited(s: State)
    requires Covered(s)
    ensures Awaited(Next(s, Request))
  {
  }

  lemma AwaitedStep(s: State, step: Step)
    requires Awaited(s) && Enabled(s, step) && !Attempts(step) && !GivesUp(s, step) && !Refused(step)
    ensures Awaited(Next(s, step))
  {
  }

  lemma {:induction false} RequestStaysAwaited(ss: seq<State>, steps: seq<Step>, i: nat, n: nat)
    requires Run(ss, steps) && i < n < |ss| && steps[i] == Request && NeverStrands(ss, steps, i)
    requires forall j :: i < j < n ==> !Attempts(steps[j]) && !GivesUp(ss[j], steps[j]) && !Refused(steps[j])
    ensures Awaited(ss[n])
  {
    if n == i + 1 {
      RunIsCovered(ss, steps, i);
      RequestIsAwaited(ss[i]);
    } else {
      RequestStaysAwaited(ss, steps, i, n - 1);
      AwaitedStep(ss[n - 1], steps[n - 1]);
    }
  }

  /** Whenever all tasks are done, every request, coalesced or not, was followed by an attempt, or a
      task gave up or was refused after it. */
  lemma RequestsAreServed(ss: seq<State>, steps: seq<Step>, i: nat, n: nat)
    requires Run(ss, steps) && i < n < |ss| && steps[i] == Request && NeverStrands(ss, steps, i)
    requires Tasks(ss[n]) == 0
    ensures exists j :: i < j < n && (Attempts(steps[j]) || GivesUp(ss[j], steps[j]) || Refused(steps[j]))
  {
    if forall j :: i < j < n ==> !Attempts(steps[j]) && !GivesUp(ss[j], steps[j]) && !Refused(steps[j]) {
      RequestStaysAwaited(ss, steps, i, n);
    }
  }

  /** What a task decides: it drops the request only for an attach during the first scene-board start,
      waits only for an attach and 20 times at most, and otherwise goes on to start the IME. */
  lemma DecisionIs(s: State, attaching: bool, firstScb: bool)
    ensures Decide(s, attaching, firstScb) == Discard <==> attaching && firstScb
    ensures Decide(s, attaching, firstScb) == Retry <==> attaching && !firstScb && s.waits < 20
    ensures Decide(s, attaching, firstScb) == Proceed <==> !attaching || (!firstScb && s.waits >= 20)
  {
  }

  /** An attach during the first scene-board start: the one reason to drop a request. */
  predicate DropsForAttach(step: Step) {
    step.Check? && step.attaching && step.firstScb
  }

  lemma UndroppedStaysAwaited(s: State, step: Step)
    requires Awaited(s) && Enabled(s, step) && !step.Start? && !Refused(step) && !DropsForAttach(step)
    ensures Awaited(Next(s, step))
  {
  }

  lemma {:induction false} UndroppedRequestStays(ss: seq<State>, steps: seq<Step>, i: nat, n: nat)
    requires Run(ss, steps) && i < n < |ss| && steps[i] == Request && NeverStrands(ss, steps, i)
    requires forall j :: i < j < n ==> !steps[j].Start? && !Refused(steps[j]) && !DropsForAttach(steps[j])
    ensures Awaited(ss[n])
  {
    if n == i + 1 {
      RunIsCovered(ss, steps, i);
      RequestIsAwaited(ss[i]);
    } else {
      UndroppedRequestStays(ss, steps, i, n - 1);
      UndroppedStaysAwaited(ss[n - 1], steps[n - 1]);
    }
  }

  /** Without such an attach every request is followed by a start, whatever else the tasks met, or by a
      refusal of the handler, before all tasks are done. */
  lemma RequestsAreStarted(ss: seq<State>, steps: seq<Step>, i: nat, n: nat)
    requires Run(ss, steps) && i < n < |ss| && steps[i] == Request && NeverStrands(ss, steps, i)
    requires Tasks(ss[n]) == 0 && forall j :: i < j < n ==> !DropsForAttach(steps[j])
    ensures exists j :: i < j < n && (steps[j].Start? || Refused(steps[j]))
  {
    if forall j :: i < j < n ==> !steps[j].Start? && !Refused(steps[j]) {
      UndroppedRequestStays(ss, steps, i, n);
    }
  }

  /** A request and no attempt or refusal are in the run, which leads to `s`. */
  ghost predicate Untried(steps: seq<Step>, s: State) {
    && Request in steps && Start(true) !in steps && Post(false) !in steps && Repost(false) !in steps
    && exists ss :: Run(ss, steps) && ss[|steps|] == s
  }

  lemma UntriedStep(steps: seq<Step>, s: State, step: Step)
    requires Untried(steps, s) && Enabled(s, step) && !Attempts(step) && !Refused(step)
    ensures Untried(steps + [step], Next(s, step))
  {
    var ss :| Run(ss, steps) && ss[|steps|] == s;
    var ss1, steps1 := Extend(ss, steps, step);
  }

  /** Giving up loses requests, because the IME cannot be started or because of an attach during the
      first scene-board start: the run ends without a task and without an attempt. */
  lemma GivingUpLoses()
    ensures Untried([Request] + [Post(true)] + [Check(false, false)] + [Start(false)] + [Decrement], INITIAL)
    ensures Untried([Request] + [Post(true)] + [Check(true, true)], INITIAL)
  {
    var ss, steps := Extend([INITIAL], [], Request);
    assert steps == [Request];
    UntriedStep([Request], State(1, 0, 1, 0, 0, 0, 0), Post(true));
    UntriedStep([Request] + [Post(true)], State(1, 0, 0, 0, 1, 0, 0), Check(true, true));
    UntriedStep([Request] + [Post(true)], State(1, 0, 0, 0, 1, 0, 0), Check(false, false));
    UntriedStep([Request] + [Post(true)] + [Check(false, false)], State(1, 0, 0, 0, 0, 1, 0), Start(false));
    UntriedStep([Request] + [Post(true)] + [Check(false, false)] + [Start(false)], State(1, 0, 0, 0, 0, 0, 1), Decrement);
  }

  // ------------------------------------------------------------- attach retries end

  predicate Retries(s: State, step: Step) {
    step.Check? && Decide(s, step.attaching, step.firstScb) == Retry
  }

  predicate Proceeds(s: State, step: Step) {
    step.Check? && Decide(s, step.attaching, step.firstScb) == Proceed
  }

  function CountRetries(ss: seq<State>, steps: seq<Step>, i: nat, n: nat): nat
    requires |ss| == |steps| + 1 && i <= n < |ss|
  {
    if i == n then 0 else CountRetries(ss, steps, i, n - 1) + if Retries(ss[n - 1], steps[n - 1]) then 1 else 0
  }

  lemma {:induction false} RetriesAreCounted(ss: seq<State>, steps: seq<Step>, i: nat, n: nat)
    requires Run(ss, steps) && i <= n < |ss|
    requires forall j :: i <= j < n ==> !Proceeds(ss[j], steps[j])
    ensures ss[n].waits == ss[i].waits + CountRetries(ss, steps, i, n)
  {
    if i == n {
    } else {
      RetriesAreCounted(ss, steps, i, n - 1);
    }
  }

  /** Unless a task gets past the attach check, at most 20 re-posts happen in a row. */
  lemma AtMostTwentyRetriesInARow(ss: seq<State>, steps: seq<Step>, i: nat, n: nat)
    requires Run(ss, steps) && i <= n < |ss|
    requires forall j :: i <= j < n ==> !Proceeds(ss[j], steps[j])
    ensures CountRetries(ss, steps, i, n) <= WAIT_ATTACH_FINISH_MAX_TIMES
  {
    RetriesAreCounted(ss, steps, i, n);
    RunIsBounded(ss, steps, n);
  }

  // ----------------------------------------------- the bound is not one on the tasks

  /** Only a request that finds the counter at zero or below adds a task. */
  lemma TasksGrowIff(s: State, step: Step)
    requires Enabled(s, step)
    ensures Tasks(Next(s, step)) > Tasks(s) <==> step == Request && s.restarts <= 0
  {
  }

  /** A request that finds the counter reset while k tasks are still out. */
  predicate Overtakes(s: State, step: Step, k: nat) {
    step == Request && s.restarts <= 0 && Tasks(s) == k
  }

  lemma TasksBoundedStepIff(s: State, step: Step, k: nat)
    requires Enabled(s, step) && Tasks(s) <= k
    ensures Tasks(Next(s, step)) <= k <==> !Overtakes(s, step, k)
  {
  }

  ghost predicate NeverOvertaken(ss: seq<State>, steps: seq<Step>, k: nat, n: nat) {
    |ss| == |steps| + 1 && n < |ss| && forall i {:trigger Overtakes(ss[i], steps[i], k)} :: 0 <= i < n ==> !Overtakes(ss[i], steps[i], k)
  }

  lemma {:induction false} TasksStayBounded(ss: seq<State>, steps: seq<Step>, k: nat, n: nat)
    requires Run(ss, steps) && n < |ss| && NeverOvertaken(ss, steps, k, n)
    ensures Tasks(ss[n]) <= k
  {
    if n == 0 {
    } else {
      TasksStayBounded(ss, steps, k, n - 1);
      assert !Overtakes(ss[n - 1], steps[n - 1], k);
      TasksBoundedStepIff(ss[n - 1], steps[n - 1], k);
    }
  }

  lemma OvertakingExceeds(ss: seq<State>, steps: seq<Step>, k: nat, i: nat)
    requires Run(ss, steps) && i < |steps| && Overtakes(ss[i], steps[i], k)
    ensures Tasks(ss[i + 1]) > k
  {
  }

  /** A run has at most k tasks at any time exactly if no request overtakes k tasks.  For k = 1: one
      task at most, unless a request comes after a reset while a task is still out. */
  lemma TasksBoundedIff(ss: seq<State>, steps: seq<Step>, k: nat)
    requires Run(ss, steps)
    ensures (forall n :: 0 <= n < |ss| ==> Tasks(ss[n]) <= k) <==> NeverOvertaken(ss, steps, k, |steps|)
  {
    if NeverOvertaken(ss, steps, k, |steps|) {
      forall n | 0 <= n < |ss|
        ensures Tasks(ss[n]) <= k
      {
        TasksStayBounded(ss, steps, k, n);
      }
    } else {
      var i :| 0 <= i < |steps| && Overtakes(ss[i], steps[i], k);
      OvertakingExceeds(ss, steps, k, i);
    }
  }

  /** The counter's bound of two does not bound the queue: any number of tasks can wait. */
  lemma {:induction false} QueuedTasksAreUnbounded(k: nat) returns (ss: seq<State>, steps: seq<Step>)
    requires k > 0
    ensures Run(ss, steps) && ss[|steps|] == State(1, 0, 0, 0, k, 0, 0)
  {
    if k == 1 {
      steps := [Request, Post(true)];
      ss := [INITIAL, State(1, 0, 1, 0, 0, 0, 0), State(1, 0, 0, 0, 1, 0, 0)];
    } else {
      ss, steps := QueuedTasksAreUnbounded(k - 1);
      ss, steps := Extend(ss, steps, Check(false, false));
      ss, steps := Extend(ss, steps, Start(true));
      ss, steps := Extend(ss, steps, Request);
      ss, steps := Extend(ss, steps, Post(true));
      ss, steps := Extend(ss, steps, Request);
      ss, steps := Extend(ss, steps, Decrement);
      ss, steps := Extend(ss, steps, Post(true));
    }
  }

  lemma Extend(ss: seq<State>, steps: seq<Step>, step: Step) returns (ss1: seq<State>, steps1: seq<Step>)
    requires Run(ss, steps) && Enabled(ss[|steps|], step)
    ensures Run(ss1, steps1) && steps1 == steps + [step]
    ensures ss1[|steps|] == ss[|steps|] && ss1[|steps1|] == Next(ss[|steps|], step)
  {
    ss1, steps1 := ss + [Next(ss[|steps|], step)], steps + [step];
  }

  // ------------------------------------------------------------------ running code

  class RestartCounter {
    var restartTasks: int
    var waitAttachTimes: nat

    constructor ()
      ensures restartTasks == 0 && waitAttachTimes == 0
    {
      restartTasks, waitAttachTimes := 0, 0;
    }

    method AddRestartIme(ghost s: State) returns (post: bool)
      requires s.restarts == restartTasks
      modifies this`restartTasks
      ensures restartTasks == Next(s, Request).restarts && post == (Next(s, Request).posting > s.posting)
    {
      if restartTasks >= MAX_RESTART_TASKS {
        return false;
      }
      restartTasks := if restartTasks < 0 then 0 else restartTasks;
      restartTasks := restartTasks + 1;
      return restartTasks == 1;
    }

    /** After a refused task. */
    method ResetRestartTasks(ghost s: State)
      requires s.restarts == restartTasks && s.posting > 0
      modifies this`restartTasks
      ensures restartTasks == Next(s, Post(false)).restarts
    {
      restartTasks := 0;
    }

    method IsAttachFinished(attachCount: nat) returns (finished: bool)
      modifies this`waitAttachTimes
      ensures finished == (attachCount == 0 || old(waitAttachTimes) >= WAIT_ATTACH_FINISH_MAX_TIMES)
      ensures waitAttachTimes == if finished then 0 else old(waitAttachTimes) + 1
    {
      if attachCount != 0 && waitAttachTimes < WAIT_ATTACH_FINISH_MAX_TIMES {
        waitAttachTimes := waitAttachTimes + 1;
        return false;
      }
      waitAttachTimes := 0;
      return true;
    }

    method RestartTaskHead(attachCount: nat, scbStartCount: nat, ghost s: State) returns (d: Decision)
      requires s.restarts == restartTasks && s.waits == waitAttachTimes && s.queued > 0
      modifies this
      ensures d == Discard <==> attachCount != 0 && scbStartCount <= 1
      ensures d == Retry <==> attachCount != 0 && scbStartCount > 1 && old(waitAttachTimes) < 20
      ensures d == Decide(s, attachCount != 0, scbStartCount <= 1)
      ensures var t := Next(s, Check(attachCount != 0, scbStartCount <= 1));
        restartTasks == t.restarts && waitAttachTimes == t.waits
    {
      if attachCount != 0 && scbStartCount <= 1 {
        restartTasks := 0;
        return Discard;
      }
      var finished := IsAttachFinished(attachCount);
      return if finished then Proceed else Retry;
    }

    method RestartTaskTail(ghost s: State) returns (repost: bool)
      requires s.restarts == restartTasks && s.finishing > 0
      modifies this`restartTasks
      ensures restartTasks == Next(s, Decrement).restarts && repost == (Next(s, Decrement).posting > s.posting)
    {
      restartTasks := restartTasks - 1;
      return restartTasks > 0;
    }
  }
}
