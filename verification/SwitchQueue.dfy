/** Input-method switches wait in a queue for their turn.

    Every switching thread pushes an entry, waits until its entry is in front, switches, and pops
    once on whichever path it leaves.  The entry carries a time stamp and the target. */
module SwitchQueue {
  import opened Options

  const MAX_QUEUE_SIZE := 1000

  /** Entries are compared by these fields only. */
  datatype SwitchInfo = SwitchInfo(timestamp: int, bundleName: string, subName: string)

  function Pushed<T>(q: seq<T>, data: T, max: nat): seq<T> {
    if |q| < max then q + [data] else q
  }

  function Popped<T>(q: seq<T>): seq<T> {
    if q == [] then [] else q[1..]
  }

  class BlockQueue<T(==)> {
    var queues: seq<T>
    const maxQueueSize: nat

    constructor (maxSize: nat)
      ensures queues == [] && maxQueueSize == maxSize
    {
      queues, maxQueueSize := [], maxSize;
    }

    method Pop()
      modifies this
      ensures queues == Popped(old(queues))
    {
      if queues == [] {
        return;
      }
      queues := queues[1..];
    }

    method Push(data: T) returns (ok: bool)
      modifies this
      ensures ok == (|old(queues)| < maxQueueSize)
      ensures queues == Pushed(old(queues), data, maxQueueSize)
    {
      if |queues| >= maxQueueSize {
        return false;
      }
      queues := queues + [data];
      return true;
    }

    method IsReady(data: T) returns (ready: bool)
      requires queues != []
      ensures ready == (queues[0] == data)
    {
      return data == queues[0];
    }

    method GetFront() returns (front: Option<T>)
      ensures front == if queues == [] then None else Some(queues[0])
    {
      return if queues == [] then None else Some(queues[0]);
    }
  }

  // ------------------------------------------------------------------- protocol

  datatype Pc = Waiting | Running | Done

  /** A switching thread; `queued` is what its push returned. */
  datatype Thread = Thread(entry: SwitchInfo, queued: bool, pc: Pc)

  /** Threads are listed in the order of their pushes. */
  datatype State = State(queue: seq<SwitchInfo>, threads: seq<Thread>)

  datatype Step =
    | Push(entry: SwitchInfo)
    | Enter(t: nat)
    | TimeOut(t: nat)
    | Leave(t: nat)

  predicate Enabled(s: State, step: Step) {
    match step
    case Push(_) => true
    case Enter(t) => t < |s.threads| && s.threads[t].pc == Waiting && s.queue != [] && s.queue[0] == s.threads[t].entry
    case TimeOut(t) => t < |s.threads| && s.threads[t].pc == Waiting
    case Leave(t) => t < |s.threads| && s.threads[t].pc == Running
  }

  function Next(s: State, step: Step): State
    requires Enabled(s, step)
  {
    match step
    case Push(e) =>
      State(Pushed(s.queue, e, MAX_QUEUE_SIZE), s.threads + [Thread(e, |s.queue| < MAX_QUEUE_SIZE, Waiting)])
    case Enter(t) => s.(threads := s.threads[t := s.threads[t].(pc := Running)])
    case TimeOut(t) => s.(threads := s.threads[t := s.threads[t].(pc := Running)])
    case Leave(t) =>
      State(Popped(s.queue), s.threads[t := s.threads[t].(pc := Done)])
  }

  /** A push is refused exactly if 1000 entries are queued, and leaves the queue as it is. */
  lemma RefusedPushIff(s: State, e: SwitchInfo)
    ensures var t := Next(s, Push(e)).threads[|s.threads|];
      && (t.queued <==> |s.queue| < 1000) && t.entry == e && t.pc == Waiting
      && Next(s, Push(e)).queue == if t.queued then s.queue + [e] else s.queue
  {
  }

  /** The part of a switch after its wait: one pop on either path.  `permitted` and `switched` are the
      answers of the permission check and of the switch itself. */
  method OnSwitchInputMethod(q: BlockQueue<SwitchInfo>, permitted: bool, switched: bool, ghost s: State, ghost t: nat)
    returns (ok: bool)
    requires Enabled(s, Leave(t)) && q.queues == s.queue
    modifies q
    ensures q.queues == Next(s, Leave(t)).queue && ok == (permitted && switched)
  {
    if !permitted {
      q.Pop();
      return false;
    }
    ok := switched;
    q.Pop();
  }

  /** The same for an input type, which may need no permission and no switch. */
  method OnStartInputType(
    q: BlockQueue<SwitchInfo>, isCheckPermission: bool, permitted: bool, needed: bool, switched: bool, ghost s: State, ghost t: nat)
    returns (ok: bool)
    requires Enabled(s, Leave(t)) && q.queues == s.queue
    modifies q
    ensures q.queues == Next(s, Leave(t)).queue
    ensures ok == ((isCheckPermission ==> permitted) && (needed ==> switched))
  {
    if isCheckPermission && !permitted {
      q.Pop();
      return false;
    }
    if !needed {
      q.Pop();
      return true;
    }
    ok := switched;
    q.Pop();
  }

  const INITIAL := State([], [])

  ghost predicate Run(ss: seq<State>, steps: seq<Step>) {
    && |ss| == |steps| + 1 && ss[0] == INITIAL
    && forall i :: 0 <= i < |steps| ==> Enabled(ss[i], steps[i]) && ss[i + 1] == Next(ss[i], steps[i])
  }

  // ------------------------------------------------------------------ invariant

  ghost predicate Distinct(ts: seq<Thread>) {
    forall i, j :: 0 <= i < j < |ts| ==> ts[i].entry != ts[j].entry
  }

  predicate IsLive(t: Thread) { t.queued && t.pc != Done }

  /** The entries of queued, unfinished threads, in push order. */
  function Live(ts: seq<Thread>): seq<SwitchInfo> {
    if ts == [] then []
    else Live(ts[..|ts| - 1]) + if IsLive(ts[|ts| - 1]) then [ts[|ts| - 1].entry] else []
  }

  /** `f` is the first live thread. */
  ghost predicate FirstLive(ts: seq<Thread>, f: nat) {
    f < |ts| && IsLive(ts[f]) && forall i :: 0 <= i < f ==> !IsLive(ts[i])
  }

  ghost predicate Inv(s: State) {
    && s.queue == Live(s.threads)
    && (forall t :: 0 <= t < |s.threads| && s.threads[t].pc == Running ==> FirstLive(s.threads, t))
    && (forall t :: 0 <= t < |s.threads| && !s.threads[t].queued ==> s.threads[t].pc == Waiting)
    && (forall a, t :: 0 <= a < t < |s.threads| && s.threads[t].pc == Done ==> !IsLive(s.threads[a]))
  }

  lemma {:induction false} LiveHead(ts: seq<Thread>) returns (f: nat)
    requires Live(ts) != []
    ensures FirstLive(ts, f) && Live(ts)[0] == ts[f].entry
  {
    var front := ts[..|ts| - 1];
    if Live(front) != [] {
      f := LiveHead(front);
    } else {
      f := |ts| - 1;
      NoneLive(front);
    }
  }

  lemma {:induction false} NoneLive(ts: seq<Thread>)
    requires Live(ts) == []
    ensures forall i :: 0 <= i < |ts| ==> !IsLive(ts[i])
  {
    if ts == [] {
    } else {
      NoneLive(ts[..|ts| - 1]);
    }
  }

  lemma {:induction false} LiveSame(ts: seq<Thread>, us: seq<Thread>)
    requires |ts| == |us|
    requires forall i :: 0 <= i < |ts| ==> ts[i].entry == us[i].entry && (IsLive(ts[i]) <==> IsLive(us[i]))
    ensures Live(ts) == Live(us)
  {
    if ts == [] {
    } else {
      LiveSame(ts[..|ts| - 1], us[..|us| - 1]);
    }
  }

  /** Finishing the first live thread takes the head off. */
  lemma {:induction false} LiveTail(ts: seq<Thread>, f: nat)
    requires FirstLive(ts, f)
    ensures Live(ts) != [] && Live(ts[f := ts[f].(pc := Done)]) == Live(ts)[1..]
  {
    var us := ts[f := ts[f].(pc := Done)];
    var n := |ts| - 1;
    if f == n {
      LiveSame(us[..n], ts[..n]);
      AllDead(ts[..n]);
    } else {
      LiveTail(ts[..n], f);
      assert us[..n] == ts[..n][f := ts[f].(pc := Done)];
    }
  }

  lemma {:induction false} AllDead(ts: seq<Thread>)
    requires forall i :: 0 <= i < |ts| ==> !IsLive(ts[i])
    ensures Live(ts) == []
  {
    if ts == [] {
    } else {
      AllDead(ts[..|ts| - 1]);
    }
  }

  lemma LivePush(ts: seq<Thread>, x: Thread)
    ensures Live(ts + [x]) == Live(ts) + if IsLive(x) then [x.entry] else []
  {
  }

  lemma PushKeepsInv(s: State, e: SwitchInfo)
    requires Inv(s)
    ensures Inv(Next(s, Push(e)))
  {
    var n := Next(s, Push(e));
    var k := |s.threads|;
    LivePush(s.threads, n.threads[k]);
    forall t | 0 <= t < |n.threads| && n.threads[t].pc == Running
      ensures FirstLive(n.threads, t)
    {
      assert t < k && FirstLive(s.threads, t);
    }
    forall a, t | 0 <= a < t < |n.threads| && n.threads[t].pc == Done
      ensures !IsLive(n.threads[a])
    {
      assert t < k && n.threads[a] == s.threads[a];
    }
  }

  lemma FirstLiveIsFront(ts: seq<Thread>, t: nat)
    requires FirstLive(ts, t)
    ensures Live(ts) != [] && Live(ts)[0] == ts[t].entry
  {
    LiveTail(ts, t);
    var f := LiveHead(ts);
    assert f == t;
  }

  /** With distinct entries a waiting thread finds its entry in front exactly if it is the first live
      one, so the look at the queue decides whose turn it is. */
  lemma ReadyIffFirstLive(s: State, t: nat)
    requires Inv(s) && Distinct(s.threads) && t < |s.threads| && s.threads[t].pc == Waiting
    ensures Enabled(s, Enter(t)) <==> FirstLive(s.threads, t)
  {
    if Enabled(s, Enter(t)) {
      var f := LiveHead(s.threads);
      assert f == t;
    }
    if FirstLive(s.threads, t) {
      FirstLiveIsFront(s.threads, t);
    }
  }

  /** A thread that starts, by its turn or by an expired wait, is the first live one. */
  ghost predicate InTurn(s: State, step: Step) {
    step.Enter? || step.TimeOut? ==> FirstLive(s.threads, step.t)
  }

  lemma EntryKeepsInvIff(s: State, step: Step)
    requires Inv(s) && Enabled(s, step) && (step.Enter? || step.TimeOut?)
    ensures Inv(Next(s, step)) <==> InTurn(s, step)
  {
    var n := Next(s, step);
    assert forall i :: 0 <= i < |s.threads| ==> (IsLive(s.threads[i]) <==> IsLive(n.threads[i]));
    LiveSame(s.threads, n.threads);
    assert n.threads[step.t].pc == Running;
  }

  lemma LeaveKeepsInv(s: State, t: nat)
    requires Inv(s) && Enabled(s, Leave(t))
    ensures Inv(Next(s, Leave(t)))
  {
    var n := Next(s, Leave(t));
    LiveTail(s.threads, t);
    assert forall u :: 0 <= u < |s.threads| && u != t ==> n.threads[u] == s.threads[u];
    assert forall u :: 0 <= u < |s.threads| && s.threads[u].pc == Running ==> FirstLive(s.threads, u);
    assert forall u :: 0 <= u < |s.threads| && u != t ==> n.threads[u].pc != Running;
  }

  /** Exactly a start out of turn breaks the link between queue and threads. */
  lemma InvIff(s: State, step: Step)
    requires Inv(s) && Enabled(s, step)
    ensures Inv(Next(s, step)) <==> InTurn(s, step)
  {
    match step
    case Push(e) => PushKeepsInv(s, e);
    case Leave(t) => LeaveKeepsInv(s, t);
    case _ => EntryKeepsInvIff(s, step);
  }

  /** One thread at a time, the one whose entry is in front. */
  ghost predicate Exclusive(s: State) {
    && (forall t, u :: 0 <= t < |s.threads| && 0 <= u < |s.threads| && s.threads[t].pc == Running && s.threads[u].pc == Running ==> t == u)
    && (forall t :: 0 <= t < |s.threads| && s.threads[t].pc == Running ==> s.queue != [] && s.queue[0] == s.threads[t].entry)
  }

  /** Whoever started, everyone queued before has finished. */
  ghost predicate InPushOrder(s: State) {
    forall a, t :: 0 <= a < t < |s.threads| && s.threads[t].pc != Waiting && s.threads[a].queued ==> s.threads[a].pc == Done
  }

  lemma InvIsOrderly(s: State)
    requires Inv(s)
    ensures Exclusive(s) && InPushOrder(s)
  {
    forall t | 0 <= t < |s.threads| && s.threads[t].pc == Running
      ensures s.queue != [] && s.queue[0] == s.threads[t].entry
    {
      FirstLiveIsFront(s.threads, t);
    }
  }

  /** A queued thread keeps the push order by starting exactly if it starts in turn. */
  lemma OrderIff(s: State, step: Step)
    requires Inv(s) && Enabled(s, step) && (step.Enter? || step.TimeOut?) && s.threads[step.t].queued
    ensures InPushOrder(Next(s, step)) <==> InTurn(s, step)
  {
    InvIff(s, step);
    var n := Next(s, step);
    if InTurn(s, step) {
      InvIsOrderly(n);
    } else {
      var a :| 0 <= a < step.t && IsLive(s.threads[a]);
      assert n.threads[a] == s.threads[a] && n.threads[step.t].pc == Running;
    }
  }

  ghost predicate TurnsRespected(ss: seq<State>, steps: seq<Step>, n: nat) {
    |ss| == |steps| + 1 && n < |ss| && forall i :: 0 <= i < n ==> InTurn(ss[i], steps[i])
  }

  lemma {:induction false} RunKeepsInv(ss: seq<State>, steps: seq<Step>, n: nat)
    requires Run(ss, steps) && TurnsRespected(ss, steps, n)
    ensures Inv(ss[n])
  {
    if n == 0 {
    } else {
      RunKeepsInv(ss, steps, n - 1);
      InvIff(ss[n - 1], steps[n - 1]);
    }
  }

  /** As long as everyone starts in turn, switches run one at a time in push order, even if some
      pushes met a full queue. */
  lemma SwitchesRunInOrder(ss: seq<State>, steps: seq<Step>, n: nat)
    requires Run(ss, steps) && TurnsRespected(ss, steps, n)
    ensures Exclusive(ss[n]) && InPushOrder(ss[n])
  {
    RunKeepsInv(ss, steps, n);
    InvIsOrderly(ss[n]);
  }

  /** The single pop of a leaving thread removes that thread's own entry. */
  lemma PopRemovesOwnEntry(ss: seq<State>, steps: seq<Step>, n: nat)
    requires Run(ss, steps) && TurnsRespected(ss, steps, n) && n < |steps| && steps[n].Leave?
    ensures ss[n].queue == [ss[n].threads[steps[n].t].entry] + ss[n + 1].queue
  {
    RunKeepsInv(ss, steps, n);
    InvIsOrderly(ss[n]);
  }

  /** A queued thread that waits finds the queue non-empty, so looking at its front is defined. */
  lemma WaitersSeeAFront(ss: seq<State>, steps: seq<Step>, n: nat, t: nat)
    requires Run(ss, steps) && TurnsRespected(ss, steps, n)
    requires t < |ss[n].threads| && IsLive(ss[n].threads[t])
    ensures ss[n].queue != []
  {
    RunKeepsInv(ss, steps, n);
    if ss[n].queue == [] {
      NoneLive(ss[n].threads);
    }
  }

  /** Distinct entries and no expired wait. */
  ghost predicate Conditions(ss: seq<State>, steps: seq<Step>) {
    |ss| == |steps| + 1 && Distinct(ss[|steps|].threads) && forall i :: 0 <= i < |steps| ==> !steps[i].TimeOut?
  }

  lemma {:induction false} DistinctEarlier(ss: seq<State>, steps: seq<Step>, k: nat)
    requires Run(ss, steps) && Conditions(ss, steps) && k < |ss|
    ensures Distinct(ss[k].threads)
    decreases |ss| - k
  {
    if k == |steps| {
    } else {
      DistinctEarlier(ss, steps, k + 1);
      forall i | 0 <= i < |ss[k].threads|
        ensures ss[k].threads[i].entry == ss[k + 1].threads[i].entry
      {
      }
    }
  }

  /** With distinct entries and no expired wait everyone starts in turn. */
  lemma {:induction false} ConditionsGiveTurns(ss: seq<State>, steps: seq<Step>, n: nat)
    requires Run(ss, steps) && Conditions(ss, steps) && n < |ss|
    ensures TurnsRespected(ss, steps, n)
  {
    if n == 0 {
    } else {
      ConditionsGiveTurns(ss, steps, n - 1);
      RunKeepsInv(ss, steps, n - 1);
      DistinctEarlier(ss, steps, n - 1);
      if steps[n - 1].Enter? {
        ReadyIffFirstLive(ss[n - 1], steps[n - 1].t);
      }
    }
  }

  /** A waiting thread looks at the queue: the answer says whether everyone before it is done. */
  method LookForTurn(q: BlockQueue<SwitchInfo>, info: SwitchInfo, ghost s: State, ghost t: nat) returns (ready: bool)
    requires Inv(s) && Distinct(s.threads) && q.queues == s.queue
    requires t < |s.threads| && IsLive(s.threads[t]) && s.threads[t].pc == Waiting && s.threads[t].entry == info
    ensures ready == Enabled(s, Enter(t))
    ensures ready <==> forall a :: 0 <= a < t && s.threads[a].queued ==> s.threads[a].pc == Done
  {
    if s.queue == [] {
      NoneLive(s.threads);
    }
    ReadyIffFirstLive(s, t);
    ready := q.IsReady(info);
  }

  /** The front names the thread whose turn it is. */
  method WhoseTurn(q: BlockQueue<SwitchInfo>, ghost s: State) returns (front: Option<SwitchInfo>)
    requires Inv(s) && q.queues == s.queue
    ensures front.None? <==> forall t :: 0 <= t < |s.threads| ==> !IsLive(s.threads[t])
    ensures front.Some? ==> exists f: nat :: FirstLive(s.threads, f) && s.threads[f].entry == front.value
  {
    front := q.GetFront();
    if s.queue == [] {
      NoneLive(s.threads);
    } else {
      var f := LiveHead(s.threads);
    }
  }

  lemma Extend(ss: seq<State>, steps: seq<Step>, step: Step) returns (tt: seq<State>)
    requires Run(ss, steps) && Enabled(ss[|steps|], step)
    ensures Run(tt, steps + [step]) && tt[|steps| + 1] == Next(ss[|steps|], step)
  {
    tt := ss + [Next(ss[|steps|], step)];
  }

  /** Without the conditions two switches can run at once: equal entries, or an expired wait. */
  lemma ConditionsAreNeeded(e: SwitchInfo, f: SwitchInfo) returns (ss: seq<State>, steps: seq<Step>)
    ensures Run(ss, steps) && !Exclusive(ss[|steps|])
    ensures e == f ==> forall i :: 0 <= i < |steps| ==> !steps[i].TimeOut?
    ensures e != f ==> Distinct(ss[|steps|].threads)
  {
    var a, b := Thread(e, true, Waiting), Thread(f, true, Waiting);
    ss := Extend([INITIAL], [], Push(e));
    ss := Extend(ss, [Push(e)], Push(f));
    assert ss[2] == State([e, f], [a, b]);
    ss := Extend(ss, [Push(e), Push(f)], Enter(0));
    assert ss[3] == State([e, f], [a.(pc := Running), b]);
    var last := if e == f then Enter(1) else TimeOut(1);
    ss := Extend(ss, [Push(e), Push(f), Enter(0)], last);
    steps := [Push(e), Push(f), Enter(0), last];
    var ts := ss[4].threads;
    assert ts == [a.(pc := Running), b.(pc := Running)];
    assert ts[0].pc == Running && ts[1].pc == Running;
  }
}
