/** Switching the input method by a key: presses are counted and one task works them off.

    A press takes the lock, counts itself and, if no task is executing, marks one and posts it after
    releasing the lock.  The task repeats: take the whole count, switch that many places along the
    list of enabled methods, and check under the lock whether more presses came. */
module SwitchRequests {
  import opened Options

  const TWO_32 := 0x1_0000_0000

  /** Where a switch task stands: about to take the count, switching, or about to check for more. */
  datatype Pc = AtTake | Switching(count: nat) | AtCheck

  /** `posting` counts threads past the lock that have not posted yet.  `index` is the current method's
      place in the enabled list of size `n`.  The last four fields only count. */
  datatype State = State(
    executing: bool, target: nat, posting: nat, tasks: seq<Pc>, index: nat, n: nat,
    requested: nat, taken: nat, moved: nat, dropped: nat)

  function Init(index: nat, n: nat): State {
    State(false, 0, 0, [], index, n, 0, 0, 0, 0)
  }

  /** 32-bit arithmetic of the service. */
  function NextIndex(count: nat, index: nat, n: nat): nat
    requires n > 0
  {
    (count + index) % TWO_32 % n
  }

  datatype Step =
    | Press
    | Post(ok: bool)
    | Take(i: nat)
    | Finish(i: nat, ok: bool)
    | Check(i: nat)

  predicate Enabled(s: State, step: Step) {
    match step
    case Press => true
    case Post(_) => s.posting > 0
    case Take(i) => i < |s.tasks| && s.tasks[i].AtTake?
    case Finish(i, _) => i < |s.tasks| && s.tasks[i].Switching? && s.n > 0
    case Check(i) => i < |s.tasks| && s.tasks[i].AtCheck?
  }

  function Next(s: State, step: Step): State
    requires Enabled(s, step)
  {
    match step
    case Press =>
      s.(executing := true, target := (s.target + 1) % TWO_32, requested := s.requested + 1,
         posting := if s.executing then s.posting else s.posting + 1)
    case Post(ok) => s.(posting := s.posting - 1, tasks := if ok then s.tasks + [AtTake] else s.tasks)
    case Take(i) => s.(target := 0, taken := s.taken + s.target, tasks := s.tasks[i := Switching(s.target)])
    case Finish(i, ok) =>
      var c := s.tasks[i].count;
      var s1 := s.(tasks := s.tasks[i := AtCheck]);
      if ok then s1.(index := NextIndex(c, s.index, s.n), moved := s.moved + c) else s1.(dropped := s.dropped + c)
    case Check(i) =>
      if s.target > 0 then s.(tasks := s.tasks[i := AtTake])
      else s.(executing := false, tasks := s.tasks[..i] + s.tasks[i + 1..])
  }

  // ------------------------------------------------------------------- one task

  /** One task, posted or about to be, exactly while the flag is set. */
  ghost predicate OneTask(s: State) {
    s.posting + |s.tasks| == if s.executing then 1 else 0
  }

  function InHand(s: State): nat {
    if |s.tasks| == 1 && s.tasks[0].Switching? then s.tasks[0].count else 0
  }

  ghost predicate Inv(s: State) {
    && OneTask(s)
    && s.taken == s.moved + s.dropped + InHand(s)
    && (!s.executing ==> s.target == 0)
    && s.target < TWO_32
    && s.taken + s.target <= s.requested
  }

  /** A step keeps the counts and the one task exactly when it is not a refused post. */
  lemma InvIff(s: State, step: Step)
    requires Inv(s) && Enabled(s, step)
    ensures Inv(Next(s, step)) <==> step != Post(false)
  {
  }

  lemma NextKeepsIndex(s: State, step: Step)
    requires Enabled(s, step) && s.index < s.n
    ensures Next(s, step).n == s.n && Next(s, step).index < s.n
  {
  }

  ghost predicate AnyRun(ss: seq<State>, steps: seq<Step>) {
    && |ss| == |steps| + 1 && ss[0] == Init(ss[0].index, ss[0].n) && ss[0].index < ss[0].n
    && forall i :: 0 <= i < |steps| ==> Enabled(ss[i], steps[i]) && ss[i + 1] == Next(ss[i], steps[i])
  }

  /** A run in which the handler takes every task it is given. */
  ghost predicate Run(ss: seq<State>, steps: seq<Step>) {
    AnyRun(ss, steps) && forall i :: 0 <= i < |steps| && steps[i].Post? ==> steps[i].ok
  }

  lemma {:induction false} RunKeepsInv(ss: seq<State>, steps: seq<Step>, k: nat)
    requires Run(ss, steps) && k < |ss|
    ensures Inv(ss[k]) && ss[k].n == ss[0].n && ss[k].index < ss[k].n
  {
    if k == 0 {
    } else {
      RunKeepsInv(ss, steps, k - 1);
      InvIff(ss[k - 1], steps[k - 1]);
      NextKeepsIndex(ss[k - 1], steps[k - 1]);
    }
  }

  // ------------------------------------------------------------- nothing is lost

  /** The step does not overflow 32 bits in a way that matters. */
  predicate NoWrap(s: State, step: Step) {
    match step
    case Press => s.target + 1 < TWO_32
    case Finish(i, ok) =>
      i < |s.tasks| && s.tasks[i].Switching? && s.n > 0 ==>
        s.tasks[i].count + s.index < TWO_32 || TWO_32 % s.n == 0
    case _ => true
  }

  ghost predicate NoWrapRun(ss: seq<State>, steps: seq<Step>) {
    |ss| == |steps| + 1 && forall i :: 0 <= i < |steps| ==> NoWrap(ss[i], steps[i])
  }

  lemma WrapShifts(x: nat, n: nat)
    requires 0 < n && x < TWO_32
    ensures (x + TWO_32) % n == x % n <==> TWO_32 % n == 0
  {
    var q, r := x / n, x % n;
    var p, w := TWO_32 / n, TWO_32 % n;
    var sum := x + TWO_32;
    assert x == q * n + r && TWO_32 == p * n + w;
    assert sum == (q + p) * n + (r + w);
    if r + w < n {
      ModUnique(sum, n, q + p, r + w);
    } else {
      assert sum == (q + p + 1) * n + (r + w - n);
      ModUnique(sum, n, q + p + 1, r + w - n);
    }
  }

  lemma MultiplesAreApart(d: int, n: int)
    requires 0 < n
    ensures d > 0 ==> d * n >= n
    ensures d < 0 ==> d * n <= -n
  {
  }

  lemma ModUnique(x: int, n: int, q: int, r: int)
    requires 0 < n && 0 <= r < n && x == q * n + r
    ensures x % n == r && x / n == q
  {
    var p, s := x / n, x % n;
    assert x == p * n + s && 0 <= s < n;
    assert (p - q) * n == p * n - q * n;
    MultiplesAreApart(p - q, n);
  }

  /** The service's index is the true modular one exactly when the sum fits 32 bits or the wrap is
      invisible because the list size divides 2^32. */
  lemma NextIndexIsExactIff(count: nat, index: nat, n: nat)
    requires 0 < n && index < n <= TWO_32 && count < TWO_32
    ensures NextIndex(count, index, n) == (count + index) % n <==> count + index < TWO_32 || TWO_32 % n == 0
  {
    var x := count + index;
    if x >= TWO_32 {
      ModUnique(x, TWO_32, 1, x - TWO_32);
      WrapShifts(x - TWO_32, n);
    } else {
      ModUnique(x, TWO_32, 0, x);
    }
  }

  /** With three methods, 2^32 - 1 presses from the second one end at the wrong place. */
  lemma WrappedIndexIsWrong()
    ensures NextIndex(TWO_32 - 1, 1, 3) != (TWO_32 - 1 + 1) % 3
  {
    NextIndexIsExactIff(TWO_32 - 1, 1, 3);
  }

  lemma ModStep(a: nat, c: nat, n: nat)
    requires 0 < n
    ensures (c + a % n) % n == (a + c) % n
  {
    ModUnique(a + c, n, a / n + (c + a % n) / n, (c + a % n) % n);
  }

  /** No press is lost, and the current method is where the served presses put it. */
  lemma {:induction false} PressesAreConserved(ss: seq<State>, steps: seq<Step>, k: nat)
    requires Run(ss, steps) && NoWrapRun(ss, steps) && k < |ss| && ss[0].n <= TWO_32
    ensures ss[k].requested == ss[k].taken + ss[k].target
    ensures ss[k].index == (ss[0].index + ss[k].moved) % ss[0].n
  {
    if k == 0 {
      ModUnique(ss[0].index, ss[0].n, 0, ss[0].index);
    } else {
      PressesAreConserved(ss, steps, k - 1);
      RunKeepsInv(ss, steps, k - 1);
      var s, step := ss[k - 1], steps[k - 1];
      if step == Press {
        ModUnique(s.target + 1, TWO_32, 0, s.target + 1);
      } else if step.Finish? && step.ok {
        var c := s.tasks[step.i].count;
        TakenFits(ss, steps, k - 1);
        NextIndexIsExactIff(c, s.index, s.n);
        ModStep(ss[0].index + s.moved, c, s.n);
      }
    }
  }

  lemma {:induction false} TakenFits(ss: seq<State>, steps: seq<Step>, k: nat)
    requires Run(ss, steps) && k < |ss|
    ensures InHand(ss[k]) < TWO_32
  {
    if k == 0 {
    } else {
      TakenFits(ss, steps, k - 1);
      RunKeepsInv(ss, steps, k - 1);
      RunKeepsInv(ss, steps, k);
    }
  }

  // ---------------------------------------------------- batching cannot be noticed

  /** `k` presses served one by one. */
  function SingleSteps(index: nat, k: nat, n: nat): nat
    requires n > 0
  {
    if k == 0 then index else NextIndex(1, SingleSteps(index, k - 1, n), n)
  }

  lemma {:induction false} SingleStepsAdvance(index: nat, k: nat, n: nat)
    requires index < n < TWO_32
    ensures SingleSteps(index, k, n) == (index + k) % n
  {
    if k == 0 {
      ModUnique(index, n, 0, index);
    } else {
      SingleStepsAdvance(index, k - 1, n);
      var i := SingleSteps(index, k - 1, n);
      ModUnique(1 + i, TWO_32, 0, 1 + i);
      ModStep(index + k - 1, 1, n);
    }
  }

  /** Once no task is left and no switch failed, the method is the one `requested` single presses
      would have reached, however they were batched. */
  lemma QuietRunsIgnoreBatching(ss: seq<State>, steps: seq<Step>, k: nat)
    requires Run(ss, steps) && NoWrapRun(ss, steps) && k < |ss| && ss[0].n < TWO_32
    requires !ss[k].executing && ss[k].dropped == 0
    ensures ss[k].index == (ss[0].index + ss[k].requested) % ss[0].n
    ensures ss[k].index == SingleSteps(ss[0].index, ss[k].requested, ss[0].n)
  {
    RunKeepsInv(ss, steps, k);
    PressesAreConserved(ss, steps, k);
    SingleStepsAdvance(ss[0].index, ss[k].requested, ss[0].n);
  }

  /** While the flag is clear nothing waits: every press so far was taken. */
  lemma IdleMeansServed(ss: seq<State>, steps: seq<Step>, k: nat)
    requires Run(ss, steps) && NoWrapRun(ss, steps) && k < |ss| && ss[0].n <= TWO_32
    ensures ss[k].executing <==> ss[k].posting + |ss[k].tasks| == 1
    ensures ss[k].posting + |ss[k].tasks| <= 1
    ensures !ss[k].executing ==> ss[k].requested == ss[k].moved + ss[k].dropped
  {
    RunKeepsInv(ss, steps, k);
    PressesAreConserved(ss, steps, k);
  }

  /** Steps that the one task has ahead of it, if no more presses come. */
  function Ahead(s: State): nat {
    if s.posting > 0 then 6
    else if |s.tasks| != 1 then 0
    else
      match s.tasks[0]
      case AtTake => 3
      case Switching(_) => if s.target > 0 then 5 else 2
      case AtCheck => if s.target > 0 then 4 else 1
  }

  /** Without further presses the task comes to its end: every step of it leaves less to do, one is possible
      as long as the flag is set, and the flag is cleared exactly with the last. */
  lemma TasksEnd(s: State, step: Step)
    requires Inv(s) && s.n > 0
    ensures s.executing <==> Ahead(s) > 0
    ensures s.executing ==> Enabled(s, Post(true)) || Enabled(s, Take(0)) || Enabled(s, Finish(0, true)) || Enabled(s, Check(0))
    ensures Enabled(s, step) && step != Press && step != Post(false) ==> Ahead(Next(s, step)) < Ahead(s)
  {
  }

  /** A check ends the task exactly if nothing was counted since it took the count. */
  lemma CheckIff(s: State, i: nat)
    requires Inv(s) && Enabled(s, Check(i))
    ensures var t := Next(s, Check(i));
      && (t.tasks == [] && !t.executing <==> s.target == 0)
      && (t.tasks == [AtTake] && t.executing <==> s.target > 0)
  {
  }

  /** Marked as executing with no task that could ever clear the mark. */
  ghost predicate Stranded(s: State) {
    s.executing && s.posting == 0 && s.tasks == []
  }

  /** One task that the handler refuses strands every later press. */
  lemma {:induction false} LostPostStrandsForever(ss: seq<State>, steps: seq<Step>, i: nat, k: nat)
    requires AnyRun(ss, steps) && i < k < |ss| && Inv(ss[i]) && steps[i] == Post(false)
    ensures Stranded(ss[k]) && ss[k].taken == ss[i].taken
  {
    if k == i + 1 {
    } else {
      LostPostStrandsForever(ss, steps, i, k - 1);
    }
  }

  /** A run that gets there: the task of the first press is refused. */
  lemma LostPostExists(index: nat, n: nat) returns (ss: seq<State>)
    requires index < n
    ensures AnyRun(ss, [Press, Post(false)]) && Inv(ss[1]) && Stranded(ss[2])
  {
    var s0 := Init(index, n);
    var s1 := Next(s0, Press);
    ss := [s0, s1, Next(s1, Post(false))];
  }

  // ------------------------------------------------------------------ running code

  datatype Switch = Stay | SwitchTo(bundleName: string) | PackageManagerError

  /** `fallback` is the default method's bundle, used when the current one is not enabled. */
  method GetSwitchInfoBySwitchCount(props: seq<string>, current: string, fallback: Option<string>, cacheCount: nat)
    returns (r: Switch)
    ensures current !in props ==> r == if fallback.Some? then SwitchTo(fallback.value) else PackageManagerError
    ensures current in props ==> exists i ::
      && 0 <= i < |props| && props[i] == current && current !in props[..i]
      && r == if NextIndex(cacheCount, i, |props|) == i then Stay else SwitchTo(props[NextIndex(cacheCount, i, |props|)])
  {
    var i := 0;
    while i < |props| && props[i] != current
      invariant 0 <= i <= |props| && current !in props[..i]
    {
      i := i + 1;
    }
    if i == |props| {
      assert props[..i] == props;
      return if fallback.Some? then SwitchTo(fallback.value) else PackageManagerError;
    }
    var next := (cacheCount + i) % TWO_32 % |props|;
    return if next == i then Stay else SwitchTo(props[next]);
  }

  /** The flag and the counter under `switchImeMutex_`; each method is one critical section. */
  class SwitchCounter {
    var switchTaskExecuting: bool
    var targetSwitchCount: nat

    constructor ()
      ensures !switchTaskExecuting && targetSwitchCount == 0
    {
      switchTaskExecuting, targetSwitchCount := false, 0;
    }

    method DealSwitchRequest(ghost s: State) returns (post: bool)
      requires s.executing == switchTaskExecuting && s.target == targetSwitchCount
      modifies this
      ensures var t := Next(s, Press);
        && switchTaskExecuting == t.executing && targetSwitchCount == t.target
        && post == (t.posting == s.posting + 1)
    {
      if switchTaskExecuting {
        targetSwitchCount := (targetSwitchCount + 1) % TWO_32;
        return false;
      }
      switchTaskExecuting := true;
      targetSwitchCount := (targetSwitchCount + 1) % TWO_32;
      return true;
    }

    method TakeCount(ghost s: State, ghost i: nat) returns (count: nat)
      requires s.executing == switchTaskExecuting && s.target == targetSwitchCount && Enabled(s, Take(i))
      modifies this
      ensures var t := Next(s, Take(i));
        && switchTaskExecuting == t.executing && targetSwitchCount == t.target
        && t.tasks[i] == Switching(count)
    {
      count := targetSwitchCount;
      targetSwitchCount := 0;
    }

    method CheckSwitchCount(ghost s: State, ghost i: nat) returns (again: bool)
      requires s.executing == switchTaskExecuting && s.target == targetSwitchCount && Enabled(s, Check(i))
      modifies this
      ensures var t := Next(s, Check(i));
        && switchTaskExecuting == t.executing && targetSwitchCount == t.target
        && again == (|t.tasks| == |s.tasks|)
    {
      if targetSwitchCount > 0 {
        return true;
      }
      switchTaskExecuting := false;
      return false;
    }
  }
}
