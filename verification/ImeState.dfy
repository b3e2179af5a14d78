/** Freezing an idle input method and stopping it after a delay.

    Request threads bracket every call to the IME with `BeforeIpc` and `AfterIpc`.  A bracket sets the
    flags and then acts on them, effect by effect, under one lock; the handler's own thread takes and
    runs delayed tasks without it.  So a run interleaves brackets of many threads, and between any two
    effects of a bracket a task may be taken or may run.  The two kinds of manager differ in what they
    do when the frozen flag flips. */
module ImeState {

  datatype RequestType = NORMAL | START_INPUT | STOP_INPUT | REQUEST_SHOW | REQUEST_HIDE

  /** `Lifecycle` reports at once and stops the IME later; `Freeze` reports a freeze later. */
  datatype Kind = Lifecycle(delay: nat) | Freeze

  const FREEZE_DELAY := 3000

  function Delay(k: Kind): nat {
    if k.Lifecycle? then k.delay else FREEZE_DELAY
  }

  /** What the holder of the lock does outside: report to the resource scheduler, take back the posted
      task, post it. */
  datatype Effect = Report(frozen: bool) | Cancel | Post

  datatype Effects = Done | Do(effect: Effect, rest: Effects)

  predicate Holds(es: Effects, e: Effect) {
    es.Do? && (es.effect == e || Holds(es.rest, e))
  }

  /** `todo` is what the holder of the lock has yet to do; `Done` means that the lock is free.
      `pending` holds the due times of the posted tasks, and `running` says that the handler's thread
      has taken one.  `controls`, `reports` and `stops` record the calls of `ControlIme`, of the
      resource scheduler and of the stop function. */
  datatype Manager = Manager(
    kind: Kind, hasHandler: bool, isFrozen: bool, isImeInUse: bool, inFlight: nat,
    now: int, todo: Effects, pending: seq<int>, running: bool, controls: seq<bool>, reports: seq<bool>, stops: nat)

  function Init(kind: Kind, hasHandler: bool, now: int): Manager {
    Manager(kind, hasHandler, true, false, 0, now, Done, [], false, [], [], 0)
  }

  predicate Uses(t: RequestType) { t == START_INPUT || t == REQUEST_SHOW }

  predicate IpcNeeded(m: Manager, t: RequestType) {
    !(t == REQUEST_HIDE && !m.isImeInUse)
  }

  /** Acting on a flip of the frozen flag. */
  function EffectsOf(m: Manager, freeze: bool): Effects {
    if m.kind.Lifecycle? then
      if !m.hasHandler then Done
      else if freeze then Do(Report(true), Do(Post, Done))
      else Do(Report(false), Do(Cancel, Done))
    else
      if !m.hasHandler then Do(Report(freeze), Done)
      else if freeze then Do(Post, Done)
      else Do(Cancel, Do(Report(false), Done))
  }

  function Control(m: Manager, freeze: bool): Manager {
    m.(isFrozen := freeze, controls := m.controls + [freeze], todo := EffectsOf(m, freeze))
  }

  function Before(m: Manager, t: RequestType): Manager {
    var m1 := m.(isImeInUse := m.isImeInUse || Uses(t), inFlight := m.inFlight + 1);
    if m.isFrozen then Control(m1, false) else m1
  }

  function InUseAfter(m: Manager, t: RequestType, ok: bool): bool {
    match t
    case START_INPUT => ok
    case REQUEST_SHOW => ok
    case REQUEST_HIDE => m.isImeInUse && !ok
    case STOP_INPUT => false
    case NORMAL => m.isImeInUse
  }

  function After(m: Manager, t: RequestType, ok: bool): Manager {
    var inUse := InUseAfter(m, t, ok);
    var m1 := m.(isImeInUse := inUse, inFlight := if m.inFlight > 0 then m.inFlight - 1 else 0);
    if m.isFrozen == !inUse then m1 else Control(m1, !inUse)
  }

  function TemporaryActive(m: Manager): Manager {
    if m.isFrozen && m.kind.Freeze? then m.(todo := Do(Report(false), Do(Report(true), Done))) else m
  }

  function Perform(m: Manager): Manager
    requires m.todo.Do?
  {
    var m1 := m.(todo := m.todo.rest);
    match m.todo.effect
    case Report(frozen) => m1.(reports := m.reports + [frozen])
    case Cancel => m1.(pending := [])
    case Post => m1.(pending := m.pending + [m.now + Delay(m.kind)])
  }

  function Fire(m: Manager): Manager {
    var m1 := m.(running := false);
    if m.kind.Lifecycle? then m1.(stops := m.stops + 1) else m1.(reports := m.reports + [true])
  }

  datatype Step =
    | BeforeIpc(t: RequestType)
    | AfterIpc(t: RequestType, ok: bool)
    | TemporaryActiveIme
    | Act
    | TaskTaken(i: nat)
    | TaskRuns
    | TimePasses(d: nat)

  predicate Enabled(m: Manager, s: Step) {
    match s
    case BeforeIpc(_) => m.todo.Done?
    case AfterIpc(_, _) => m.todo.Done? && m.inFlight > 0
    case TemporaryActiveIme => m.todo.Done?
    case Act => m.todo.Do?
    case TaskTaken(i) => !m.running && i < |m.pending| && m.pending[i] <= m.now
    case TaskRuns => m.running
    case TimePasses(_) => true
  }

  function Next(m: Manager, s: Step): Manager
    requires Enabled(m, s)
  {
    match s
    case BeforeIpc(t) => Before(m, t)
    case AfterIpc(t, ok) => After(m, t, ok)
    case TemporaryActiveIme => TemporaryActive(m)
    case Act => Perform(m)
    case TaskTaken(i) => m.(pending := m.pending[..i] + m.pending[i + 1..], running := true)
    case TaskRuns => Fire(m)
    case TimePasses(d) => m.(now := m.now + d)
  }

  // ------------------------------------------------------------------ invariants

  /** false, true, false, true, ... */
  ghost predicate Alternates(c: seq<bool>) {
    forall i :: 0 <= i < |c| ==> (c[i] <==> i % 2 == 1)
  }

  ghost predicate FlagsAgree(m: Manager) {
    && (m.isFrozen ==> !m.isImeInUse)
    && (m.inFlight == 0 ==> m.isFrozen == !m.isImeInUse)
  }

  predicate LastIs(reports: seq<bool>, frozen: bool) {
    reports != [] && reports[|reports| - 1] == frozen
  }

  /** What the holder of the lock has yet to do is the rest of what the flag asks for, or of a
      temporary activation. */
  predicate TodoFits(m: Manager) {
    var effects := EffectsOf(m, m.isFrozen);
    || m.todo.Done? || m.todo == effects || (effects.Do? && m.todo == effects.rest)
    || (m.kind.Freeze? && m.isFrozen
        && (m.todo == Do(Report(false), Do(Report(true), Done)) || m.todo == Do(Report(true), Done)))
  }

  /** One task at most, posted while frozen and not yet taken back. */
  predicate TaskFits(m: Manager) {
    && |m.pending| <= 1 && (m.pending != [] || m.running ==> m.hasHandler)
    && (m.pending != [] ==> !Holds(m.todo, Post) && (m.isFrozen || Holds(m.todo, Cancel)))
  }

  /** With the reports that the holder of the lock has yet to make. */
  function WithReports(reports: seq<bool>, es: Effects): seq<bool>
    decreases es
  {
    if es.Done? then reports
    else WithReports(if es.effect.Report? then reports + [es.effect.frozen] else reports, es.rest)
  }

  /** The last report is right, or a right one will follow. */
  predicate Right(m: Manager) {
    if m.isFrozen then
      || m.controls == [] || Holds(m.todo, Post) || Holds(m.todo, Report(true)) || m.pending != [] || m.running
      || LastIs(m.reports, true)
    else
      Holds(m.todo, Report(false)) || (LastIs(m.reports, false) && !m.running)
  }

  ghost predicate Inv(m: Manager) {
    && FlagsAgree(m) && TodoFits(m) && TaskFits(m)
    && Alternates(m.controls) && (m.isFrozen <==> |m.controls| % 2 == 0)
    && (m.kind.Freeze? && m.isFrozen ==> Right(m))
    && (m.kind.Lifecycle? ==> WithReports(m.reports, m.todo) == if m.hasHandler then m.controls else [])
  }

  lemma ControlKeepsInv(m: Manager, freeze: bool)
    requires Inv(m) && m.todo.Done? && m.isFrozen == !freeze
    ensures Alternates(Control(m, freeze).controls) && TodoFits(Control(m, freeze)) && TaskFits(Control(m, freeze))
    ensures m.kind.Freeze? ==> Right(Control(m, freeze))
    ensures var n := Control(m, freeze);
      n.kind.Lifecycle? ==> WithReports(n.reports, n.todo) == if n.hasHandler then n.controls else []
  {
    var told := m.reports + [freeze];
    assert WithReports(told, Do(Post, Done)) == told && WithReports(told, Do(Cancel, Done)) == told;
  }

  lemma PerformKeepsInv(m: Manager)
    requires Inv(m) && m.todo.Do?
    ensures Inv(Perform(m))
  {
  }

  lemma BeforeKeepsInv(m: Manager, t: RequestType)
    requires Inv(m) && m.todo.Done?
    ensures Inv(Before(m, t))
  {
    if m.isFrozen {
      ControlKeepsInv(m, false);
    }
  }

  lemma AfterKeepsInv(m: Manager, t: RequestType, ok: bool)
    requires Inv(m) && m.todo.Done?
    ensures Inv(After(m, t, ok)) && After(m, t, ok).isFrozen == !After(m, t, ok).isImeInUse
  {
    if After(m, t, ok).isFrozen != m.isFrozen {
      ControlKeepsInv(m, !m.isFrozen);
    }
  }

  lemma NextKeepsInv(m: Manager, s: Step)
    requires Inv(m) && Enabled(m, s)
    ensures Inv(Next(m, s))
  {
    match s
    case BeforeIpc(t) => BeforeKeepsInv(m, t);
    case AfterIpc(t, ok) => AfterKeepsInv(m, t, ok);
    case Act => PerformKeepsInv(m);
    case _ =>
  }

  lemma NextKeepsKind(m: Manager, s: Step)
    requires Enabled(m, s)
    ensures Next(m, s).kind == m.kind && Next(m, s).hasHandler == m.hasHandler
  {
  }

  ghost predicate Run(ms: seq<Manager>, ss: seq<Step>) {
    && |ms| == |ss| + 1 && ms[0] == Init(ms[0].kind, ms[0].hasHandler, ms[0].now)
    && forall i :: 0 <= i < |ss| ==> Enabled(ms[i], ss[i]) && ms[i + 1] == Next(ms[i], ss[i])
  }

  lemma {:induction false} RunKeepsInv(ms: seq<Manager>, ss: seq<Step>, n: nat)
    requires Run(ms, ss) && n < |ms|
    ensures Inv(ms[n]) && ms[n].kind == ms[0].kind && ms[n].hasHandler == ms[0].hasHandler
  {
    if n == 0 {
    } else {
      RunKeepsInv(ms, ss, n - 1);
      NextKeepsInv(ms[n - 1], ss[n - 1]);
      NextKeepsKind(ms[n - 1], ss[n - 1]);
    }
  }

  /** Over any interleaving: with no call in flight frozen is the opposite of in use, and the control
      calls alternate, the first one unfreezing. */
  lemma EveryRunAgrees(ms: seq<Manager>, ss: seq<Step>)
    requires Run(ms, ss)
    ensures forall n :: 0 <= n < |ms| ==>
      && (ms[n].inFlight == 0 ==> ms[n].isFrozen == !ms[n].isImeInUse)
      && Alternates(ms[n].controls)
  {
    forall n | 0 <= n < |ms|
      ensures (ms[n].inFlight == 0 ==> ms[n].isFrozen == !ms[n].isImeInUse) && Alternates(ms[n].controls)
    {
      RunKeepsInv(ms, ss, n);
    }
  }

  // ------------------------------------------------------------------ what use means

  /** A request to start input or to show begins the use, and its success confirms it. */
  predicate Begins(s: Step) {
    || (s.BeforeIpc? && (s.t == START_INPUT || s.t == REQUEST_SHOW))
    || (s.AfterIpc? && (s.t == START_INPUT || s.t == REQUEST_SHOW) && s.ok)
  }

  /** A stop ends the use whatever the IME answered, a hide if it succeeded, a start or show if it
      failed. */
  predicate Ends(s: Step) {
    s.AfterIpc? &&
    match s.t
    case STOP_INPUT => true
    case REQUEST_HIDE => s.ok
    case START_INPUT => !s.ok
    case REQUEST_SHOW => !s.ok
    case NORMAL => false
  }

  lemma UseStep(m: Manager, s: Step)
    requires Enabled(m, s)
    ensures Next(m, s).isImeInUse <==> Begins(s) || (m.isImeInUse && !Ends(s))
  {
  }

  /** When a call ends the use, the IME is frozen with it, even if other calls are under way. */
  lemma EndOfUseFreezes(m: Manager, s: Step)
    requires Inv(m) && Enabled(m, s) && Ends(s)
    ensures !Next(m, s).isImeInUse && Next(m, s).isFrozen
  {
  }

  ghost predicate LastsSince(ss: seq<Step>, i: int, n: nat) {
    0 <= i < n <= |ss| && forall j :: i < j < n ==> !Ends(ss[j])
  }

  /** Something began the use and nothing ended it since. */
  ghost predicate UsedAt(ss: seq<Step>, n: nat) {
    exists i :: LastsSince(ss, i, n) && Begins(ss[i])
  }

  /** The same with a start or show that succeeded. */
  ghost predicate ConfirmedAt(ss: seq<Step>, n: nat) {
    exists i :: LastsSince(ss, i, n) && Begins(ss[i]) && ss[i].AfterIpc?
  }

  lemma LastsLonger(ss: seq<Step>, i: int, n: nat)
    requires 0 <= i < n - 1 && n <= |ss|
    ensures LastsSince(ss, i, n) <==> LastsSince(ss, i, n - 1) && !Ends(ss[n - 1])
  {
    if LastsSince(ss, i, n - 1) && !Ends(ss[n - 1]) {
      assert forall j :: i < j < n ==> j == n - 1 || !Ends(ss[j]);
    }
  }

  lemma UsedStep(ss: seq<Step>, n: nat)
    requires 0 < n <= |ss|
    ensures UsedAt(ss, n) <==> Begins(ss[n - 1]) || (UsedAt(ss, n - 1) && !Ends(ss[n - 1]))
  {
    if Begins(ss[n - 1]) {
      assert LastsSince(ss, n - 1, n);
    } else if UsedAt(ss, n) {
      var i :| LastsSince(ss, i, n) && Begins(ss[i]);
      LastsLonger(ss, i, n);
    }
    if UsedAt(ss, n - 1) && !Ends(ss[n - 1]) {
      var i :| LastsSince(ss, i, n - 1) && Begins(ss[i]);
      LastsLonger(ss, i, n);
    }
  }

  lemma ConfirmedStep(ss: seq<Step>, n: nat)
    requires 0 < n <= |ss|
    ensures ConfirmedAt(ss, n) <==>
      (Begins(ss[n - 1]) && ss[n - 1].AfterIpc?) || (ConfirmedAt(ss, n - 1) && !Ends(ss[n - 1]))
  {
    if Begins(ss[n - 1]) && ss[n - 1].AfterIpc? {
      assert LastsSince(ss, n - 1, n);
    } else if ConfirmedAt(ss, n) {
      var i :| LastsSince(ss, i, n) && Begins(ss[i]) && ss[i].AfterIpc?;
      LastsLonger(ss, i, n);
    }
    if ConfirmedAt(ss, n - 1) && !Ends(ss[n - 1]) {
      var i :| LastsSince(ss, i, n - 1) && Begins(ss[i]) && ss[i].AfterIpc?;
      LastsLonger(ss, i, n);
    }
  }

  /** Over any interleaving: the IME is in use exactly if something began its use and nothing ended it
      since. */
  lemma {:induction false} InUseIff(ms: seq<Manager>, ss: seq<Step>, n: nat)
    requires Run(ms, ss) && n < |ms|
    ensures ms[n].isImeInUse <==> UsedAt(ss, n)
  {
    if n == 0 {
    } else {
      InUseIff(ms, ss, n - 1);
      UsedStep(ss, n);
      UseStep(ms[n - 1], ss[n - 1]);
    }
  }

  datatype InCall = Idle | Calling(t: RequestType) | Overlapping

  /** The call that is under way after `n` steps, when calls are made one at a time. */
  function CallAt(ss: seq<Step>, n: nat): InCall
    requires n <= |ss|
  {
    if n == 0 then Idle else
    var c := CallAt(ss, n - 1);
    match ss[n - 1]
    case BeforeIpc(t) => if c == Idle then Calling(t) else Overlapping
    case AfterIpc(t, _) => if c == Calling(t) then Idle else Overlapping
    case _ => c
  }

  /** With calls made one at a time, between calls the IME is in use exactly if a start or show succeeded
      and no stop, successful hide, or failed start or show came after it; and frozen exactly if not. */
  lemma SerialUseIff(ms: seq<Manager>, ss: seq<Step>, n: nat)
    requires Run(ms, ss) && n < |ms| && CallAt(ss, n) == Idle
    ensures ms[n].isImeInUse <==> ConfirmedAt(ss, n)
    ensures ms[n].isFrozen <==> !ConfirmedAt(ss, n)
  {
    InUseIff(ms, ss, n);
    UsedOrCalling(ss, n);
    RunKeepsInv(ms, ss, n);
    IdleMeansNone(ms, ss, n);
  }

  lemma {:induction false} UsedOrCalling(ss: seq<Step>, n: nat)
    requires n <= |ss| && CallAt(ss, n) != Overlapping
    ensures UsedAt(ss, n) <==>
      ConfirmedAt(ss, n) || (CallAt(ss, n).Calling? && (CallAt(ss, n).t == START_INPUT || CallAt(ss, n).t == REQUEST_SHOW))
  {
    if n == 0 {
    } else {
      UsedOrCalling(ss, n - 1);
      UsedStep(ss, n);
      ConfirmedStep(ss, n);
    }
  }

  lemma {:induction false} IdleMeansNone(ms: seq<Manager>, ss: seq<Step>, n: nat)
    requires Run(ms, ss) && n < |ms| && CallAt(ss, n) != Overlapping
    ensures ms[n].inFlight == if CallAt(ss, n) == Idle then 0 else 1
  {
    if n == 0 {
    } else {
      IdleMeansNone(ms, ss, n - 1);
    }
  }

  // --------------------------------------------------------------- freeze reports

  /** Nothing is posted, taken or still to be done. */
  predicate Quiet(m: Manager) {
    m.todo.Done? && m.pending == [] && !m.running
  }

  /** The IME is reported active while a freeze report, taken by the handler's thread, is yet to be made. */
  predicate Overtakes(m: Manager, s: Step) {
    s == Act && m.todo.Do? && m.todo.effect == Report(false) && !m.isFrozen && m.running
  }

  lemma RightAfterAct(m: Manager)
    requires Inv(m) && m.kind.Freeze? && m.todo.Do? && Right(m)
    ensures Right(Perform(m)) <==> !Overtakes(m, Act)
  {
    PerformKeepsInv(m);
  }

  /** A step leaves the last report right, or a right one to come, exactly if it is not that. */
  lemma RightIff(m: Manager, s: Step)
    requires Inv(m) && m.kind.Freeze? && Enabled(m, s)
    requires Right(m)
    ensures Right(Next(m, s)) <==> !Overtakes(m, s)
  {
    match s
    case BeforeIpc(_) =>
      if m.isFrozen {
        ControlKeepsInv(m, false);
      }
    case AfterIpc(t, ok) =>
      if After(m, t, ok).isFrozen != m.isFrozen {
        ControlKeepsInv(m, !m.isFrozen);
      }
    case Act => RightAfterAct(m);
    case _ =>
  }

  /** Once wrong, the reports stay wrong until the IME is frozen again. */
  lemma WrongStaysWrong(m: Manager, s: Step)
    requires Inv(m) && m.kind.Freeze? && Enabled(m, s)
    requires !Right(m) && !Next(m, s).isFrozen
    ensures !Right(Next(m, s))
  {
  }

  lemma QuietIff(m: Manager)
    requires Inv(m) && m.kind.Freeze? && Quiet(m) && m.controls != []
    ensures Right(m) <==> LastIs(m.reports, m.isFrozen)
  {
  }

  /** Some report was overtaken and the IME has not been frozen since. */
  ghost predicate Overtaken(ms: seq<Manager>, ss: seq<Step>, n: nat)
    requires |ms| == |ss| + 1 && n < |ms|
  {
    exists i :: 0 <= i < n && Overtakes(ms[i], ss[i]) && forall j :: i < j <= n ==> !ms[j].isFrozen
  }

  lemma OvertakenStep(ms: seq<Manager>, ss: seq<Step>, n: nat)
    requires Run(ms, ss) && 0 < n < |ms|
    ensures Overtaken(ms, ss, n) <==>
      !ms[n].isFrozen && (Overtakes(ms[n - 1], ss[n - 1]) || (Overtaken(ms, ss, n - 1) && !ms[n - 1].isFrozen))
  {
    if Overtaken(ms, ss, n) {
      var i :| 0 <= i < n && Overtakes(ms[i], ss[i]) && forall j :: i < j <= n ==> !ms[j].isFrozen;
      assert !ms[n].isFrozen;
      if i < n - 1 {
        assert !ms[n - 1].isFrozen;
        assert Overtaken(ms, ss, n - 1);
      }
    }
    if !ms[n].isFrozen && Overtaken(ms, ss, n - 1) {
      var i :| 0 <= i < n - 1 && Overtakes(ms[i], ss[i]) && forall j :: i < j <= n - 1 ==> !ms[j].isFrozen;
      assert forall j :: i < j <= n ==> j == n || !ms[j].isFrozen;
    }
  }

  lemma {:induction false} RightUnlessOvertaken(ms: seq<Manager>, ss: seq<Step>, n: nat)
    requires Run(ms, ss) && n < |ms| && ms[0].kind.Freeze?
    ensures Right(ms[n]) <==> !Overtaken(ms, ss, n)
  {
    if n == 0 {
    } else {
      RightUnlessOvertaken(ms, ss, n - 1);
      RunKeepsInv(ms, ss, n - 1);
      RunKeepsInv(ms, ss, n);
      OvertakenStep(ms, ss, n);
      RightStep(ms[n - 1], ss[n - 1]);
    }
  }

  lemma RightStep(m: Manager, s: Step)
    requires Inv(m) && m.kind.Freeze? && Enabled(m, s)
    ensures var n := Next(m, s);
      Right(n) <==> n.isFrozen || (!Overtakes(m, s) && (Right(m) || m.isFrozen))
  {
    NextKeepsInv(m, s);
    if Right(m) {
      RightIff(m, s);
    } else if !Next(m, s).isFrozen {
      WrongStaysWrong(m, s);
    }
  }

  /** Whenever nothing is under way after a request, the last report agrees with the flag, temporary
      activations included: exactly unless a report was overtaken since the IME was last frozen. */
  lemma FreezeReportsSettleIff(ms: seq<Manager>, ss: seq<Step>, n: nat)
    requires Run(ms, ss) && n < |ms| && ms[0].kind.Freeze? && Quiet(ms[n])
    requires exists i :: 0 <= i < n && ss[i].BeforeIpc?
    ensures LastIs(ms[n].reports, ms[n].isFrozen) <==> !Overtaken(ms, ss, n)
  {
    var i :| 0 <= i < n && ss[i].BeforeIpc?;
    RunKeepsInv(ms, ss, i);
    RunKeepsInv(ms, ss, n);
    ControlsGrow(ms, ss, i + 1, n);
    assert ms[i + 1].controls != [];
    RightUnlessOvertaken(ms, ss, n);
    QuietIff(ms[n]);
  }

  lemma {:induction false} ControlsGrow(ms: seq<Manager>, ss: seq<Step>, i: nat, n: nat)
    requires Run(ms, ss) && i <= n < |ms|
    ensures |ms[i].controls| <= |ms[n].controls|
  {
    if i == n {
    } else {
      ControlsGrow(ms, ss, i, n - 1);
    }
  }

  // ------------------------------------------------------------------ delayed stop

  /** Frozen, or being unfrozen by a bracket that has not come to taking the task back. */
  predicate NotTakenBack(m: Manager) {
    m.isFrozen || Holds(m.todo, Cancel)
  }

  lemma TaskStaysOrIsNew(m: Manager, s: Step)
    requires Inv(m) && Enabled(m, s) && Next(m, s).pending != []
    ensures NotTakenBack(Next(m, s))
    ensures m.pending == [] ==> Next(m, s).isFrozen
    ensures Next(m, s).pending == if m.pending != [] then m.pending else [Next(m, s).now + Delay(m.kind)]
  {
    NextKeepsInv(m, s);
  }

  ghost predicate NeverTakenBack(ms: seq<Manager>, i: nat, n: nat) {
    i <= n < |ms| && forall j :: i <= j <= n ==> NotTakenBack(ms[j])
  }

  lemma StillNotTakenBack(ms: seq<Manager>, i: nat, n: nat)
    requires NeverTakenBack(ms, i, n) && n + 1 < |ms| && NotTakenBack(ms[n + 1])
    ensures NeverTakenBack(ms, i, n + 1)
  {
  }

  /** A waiting task was posted while the IME was frozen, and nobody has taken it back since. */
  lemma {:induction false} PendingWasFrozen(ms: seq<Manager>, ss: seq<Step>, n: nat) returns (i: nat)
    requires Run(ms, ss) && n < |ms| && ms[n].pending != []
    ensures NeverTakenBack(ms, i, n) && ms[i].isFrozen
    ensures ms[n].pending == [ms[i].now + if ms[0].kind.Freeze? then 3000 else ms[0].kind.delay]
  {
    RunKeepsInv(ms, ss, n - 1);
    TaskStaysOrIsNew(ms[n - 1], ss[n - 1]);
    if ms[n - 1].pending != [] {
      i := PendingWasFrozen(ms, ss, n - 1);
      StillNotTakenBack(ms, i, n - 1);
    } else {
      i := n;
    }
  }

  lemma {:induction false} RunningWasTaken(ms: seq<Manager>, ss: seq<Step>, n: nat) returns (i: nat)
    requires Run(ms, ss) && n < |ms| && ms[n].running
    ensures i < n && ss[i].TaskTaken? && forall j :: i < j <= n ==> ms[j].running
  {
    if ms[n - 1].running {
      i := RunningWasTaken(ms, ss, n - 1);
      assert forall j :: i < j <= n ==> j == n || ms[j].running;
    } else {
      i := n - 1;
    }
  }

  /** The stop function runs only for a task that was taken after its whole delay, with the IME frozen
      from the post on and nobody having taken the task back before it was taken. */
  lemma StopNeedsFullFreeze(ms: seq<Manager>, ss: seq<Step>, n: nat) returns (i: nat, t: nat)
    requires Run(ms, ss) && n < |ss| && ms[n + 1].stops > ms[n].stops
    ensures i <= t < n && ss[t].TaskTaken? && ms[t].now - ms[i].now >= Delay(ms[0].kind)
    ensures ms[i].isFrozen && NeverTakenBack(ms, i, t)
    ensures forall j :: t < j <= n ==> ms[j].running
  {
    t := RunningWasTaken(ms, ss, n);
    i := PendingWasFrozen(ms, ss, t);
  }

  /** A taken task finds the IME still frozen. */
  predicate Timely(m: Manager) {
    m.running ==> m.isFrozen
  }

  /** The task is taken between the unfreezing and its being taken back, or the IME is unfrozen after
      the task was taken. */
  predicate Outruns(m: Manager, s: Step) {
    if s.TaskTaken? then !m.isFrozen
    else m.running && ((s.BeforeIpc? && m.isFrozen) || (s.AfterIpc? && InUseAfter(m, s.t, s.ok)))
  }

  /** A step lets a taken task meet an IME that is not frozen exactly if it is one of these two. */
  lemma TimelyIff(m: Manager, s: Step)
    requires Inv(m) && Timely(m) && Enabled(m, s)
    ensures Timely(Next(m, s)) <==> !Outruns(m, s)
  {
  }

  lemma {:induction false} RunIsTimely(ms: seq<Manager>, ss: seq<Step>, n: nat)
    requires Run(ms, ss) && n < |ms|
    requires forall i :: 0 <= i < n ==> !Outruns(ms[i], ss[i])
    ensures Timely(ms[n])
  {
    if n == 0 {
    } else {
      RunIsTimely(ms, ss, n - 1);
      RunKeepsInv(ms, ss, n - 1);
      TimelyIff(ms[n - 1], ss[n - 1]);
    }
  }

  lemma {:induction false} FrozenSince(ms: seq<Manager>, ss: seq<Step>, i: nat, t: nat, j: nat)
    requires Run(ms, ss) && i <= j <= t < |ms| && ms[t].isFrozen && NeverTakenBack(ms, i, t)
    ensures ms[j].isFrozen
    decreases t - j
  {
    if j == t {
    } else {
      FrozenSince(ms, ss, i, t, j + 1);
      assert NotTakenBack(ms[j]) && ms[j + 1] == Next(ms[j], ss[j]);
    }
  }

  /** In a run without such steps the IME was frozen all the time, from the post to the stop. */
  lemma StopFindsFrozen(ms: seq<Manager>, ss: seq<Step>, n: nat) returns (i: nat)
    requires Run(ms, ss) && n < |ss| && ms[n + 1].stops > ms[n].stops
    requires forall k :: 0 <= k < n ==> !Outruns(ms[k], ss[k])
    ensures i <= n && ms[n].now - ms[i].now >= Delay(ms[0].kind)
    ensures forall j :: i <= j <= n ==> ms[j].isFrozen
  {
    var t;
    i, t := StopNeedsFullFreeze(ms, ss, n);
    TimeAdvances(ms, ss, t, n);
    forall j | i <= j <= n
      ensures ms[j].isFrozen
    {
      if j <= t {
        FrozenSince(ms, ss, i, t, j);
      } else {
        RunIsTimely(ms, ss, j);
      }
    }
  }

  lemma {:induction false} TimeAdvances(ms: seq<Manager>, ss: seq<Step>, i: nat, n: nat)
    requires Run(ms, ss) && i <= n < |ms|
    ensures ms[i].now <= ms[n].now
  {
    if i == n {
    } else {
      TimeAdvances(ms, ss, i, n - 1);
    }
  }

  // -------------------------------------------------------------- runs that go wrong

  lemma Extend(ms: seq<Manager>, ss: seq<Step>, s: Step) returns (ms1: seq<Manager>, ss1: seq<Step>)
    requires Run(ms, ss) && Enabled(ms[|ss|], s)
    ensures Run(ms1, ss1) && ss1 == ss + [s] && ms1[0] == ms[0] && ms1[|ss1|] == Next(ms[|ss|], s)
  {
    ms1, ss1 := ms + [Next(ms[|ss|], s)], ss + [s];
  }

  /** Two overlapping calls: the one that ends first freezes the IME under the other. */
  lemma OverlapFreezesDuringCall(kind: Kind) returns (ms: seq<Manager>, ss: seq<Step>)
    ensures Run(ms, ss) && ms[|ss|].isFrozen && ms[|ss|].inFlight > 0
  {
    ms, ss := [Init(kind, true, 0)], [];
    ms, ss := Extend(ms, ss, BeforeIpc(NORMAL));
    ms, ss := Extend(ms, ss, Act);
    ms, ss := Extend(ms, ss, Act);
    ms, ss := Extend(ms, ss, BeforeIpc(NORMAL));
    ms, ss := Extend(ms, ss, AfterIpc(NORMAL, true));
  }

  /** One request: the IME is unfrozen for it and out of use. */
  lemma RequestIsMade(kind: Kind) returns (ms: seq<Manager>, ss: seq<Step>)
    ensures Run(ms, ss) && ms[0].kind == kind
    ensures ms[|ss|] == Manager(kind, true, false, false, 1, 0, Done, [], false, [false], [false], 0)
  {
    ms, ss := [Init(kind, true, 0)], [];
    ms, ss := Extend(ms, ss, BeforeIpc(NORMAL));
    ms, ss := Extend(ms, ss, Act);
    ms, ss := Extend(ms, ss, Act);
  }

  predicate TakenAndFrozen(m: Manager) {
    m.hasHandler && m.isFrozen && m.todo.Done? && m.pending == [] && m.running && m.stops == 0
  }

  /** The request ends, and the handler's thread takes the task that follows. */
  lemma TaskIsTaken(kind: Kind) returns (ms: seq<Manager>, ss: seq<Step>)
    ensures Run(ms, ss) && ms[0].kind == ms[|ss|].kind == kind && TakenAndFrozen(ms[|ss|])
  {
    ms, ss := RequestIsMade(kind);
    ms, ss := Extend(ms, ss, AfterIpc(NORMAL, true));
    ms, ss := Extend(ms, ss, Act);
    if kind.Lifecycle? {
      ms, ss := Extend(ms, ss, Act);
    }
    var m := ms[|ss|];
    assert TakenAndFrozen(m.(pending := [], running := true)) && m.pending == [m.now + Delay(kind)] && !m.running;
    ms, ss := Extend(ms, ss, TimePasses(Delay(kind)));
    ms, ss := Extend(ms, ss, TaskTaken(0));
  }

  /** The taken report comes after the one of the next request: everything is quiet, the IME is in use,
      and it is reported frozen. */
  lemma LateReportExists() returns (ms: seq<Manager>, ss: seq<Step>)
    ensures Run(ms, ss) && ms[0].kind.Freeze? && Quiet(ms[|ss|])
    ensures ms[|ss|].isImeInUse && !ms[|ss|].isFrozen && LastIs(ms[|ss|].reports, true)
  {
    ms, ss := TaskIsTaken(Freeze);
    ms, ss := Extend(ms, ss, BeforeIpc(START_INPUT));
    ms, ss := Extend(ms, ss, Act);
    ms, ss := Extend(ms, ss, Act);
    ms, ss := Extend(ms, ss, TaskRuns);
  }

  /** The taken stop comes after the next request: the IME is stopped while it is in use. */
  lemma LateStopExists(delay: nat) returns (ms: seq<Manager>, ss: seq<Step>)
    ensures Run(ms, ss) && ms[0].kind == Lifecycle(delay)
    ensures ms[|ss|].stops == 1 && ms[|ss|].isImeInUse && !ms[|ss|].isFrozen
  {
    ms, ss := TaskIsTaken(Lifecycle(delay));
    ms, ss := Extend(ms, ss, BeforeIpc(START_INPUT));
    ms, ss := Extend(ms, ss, TaskRuns);
  }

  // ---------------------------------------------------------- frozen during a call

  predicate UnfrozenInCalls(m: Manager) {
    m.inFlight > 0 ==> !m.isFrozen
  }

  /** A call that ends with the IME out of use while another is under way. */
  predicate EndsUnderAnother(m: Manager, s: Step) {
    s.AfterIpc? && m.inFlight > 1 && !InUseAfter(m, s.t, s.ok)
  }

  /** That is exactly the step that freezes the IME during a call. */
  lemma UnfrozenIff(m: Manager, s: Step)
    requires UnfrozenInCalls(m) && Enabled(m, s)
    ensures UnfrozenInCalls(Next(m, s)) <==> !EndsUnderAnother(m, s)
  {
  }

  lemma {:induction false} CallsAreUnfrozen(ms: seq<Manager>, ss: seq<Step>, n: nat)
    requires Run(ms, ss) && n < |ms|
    requires forall i :: 0 <= i < n ==> !EndsUnderAnother(ms[i], ss[i])
    ensures UnfrozenInCalls(ms[n])
  {
    if n == 0 {
    } else {
      CallsAreUnfrozen(ms, ss, n - 1);
      UnfrozenIff(ms[n - 1], ss[n - 1]);
    }
  }

  /** Calls made one at a time never meet a frozen IME. */
  lemma {:induction false} SerialCallsAreUnfrozen(ms: seq<Manager>, ss: seq<Step>, n: nat)
    requires Run(ms, ss) && n < |ms|
    requires forall i :: 0 <= i < n && ss[i].BeforeIpc? ==> ms[i].inFlight == 0
    ensures ms[n].inFlight <= 1 && UnfrozenInCalls(ms[n])
  {
    if n == 0 {
    } else {
      SerialCallsAreUnfrozen(ms, ss, n - 1);
    }
  }

  // ----------------------------------------------------------------- skipped hides

  predicate SameFlags(m: Manager, n: Manager) {
    m.isFrozen == n.isFrozen && m.isImeInUse == n.isImeInUse && m.inFlight == n.inFlight
  }

  /** The holder of the lock goes on to the end. */
  function Drained(m: Manager): (n: Manager)
    ensures SameFlags(m, n) && n.todo.Done? && n.kind == m.kind && n.hasHandler == m.hasHandler && n.now == m.now
    decreases m.todo
  {
    if m.todo.Done? then m else Drained(Perform(m))
  }

  /** A call with nothing happening meanwhile. */
  function Call(m: Manager, t: RequestType, ok: bool): Manager {
    Drained(After(Drained(Before(m, t)), t, ok))
  }

  /** A hide may be left out exactly when it would change no flag, whatever the IME answered. */
  lemma HideIsInvisibleIff(m: Manager)
    requires FlagsAgree(m) && m.inFlight == 0
    ensures (forall ok :: SameFlags(m, Call(m, REQUEST_HIDE, ok))) <==> !IpcNeeded(m, REQUEST_HIDE)
  {
    if IpcNeeded(m, REQUEST_HIDE) {
      assert !SameFlags(m, Call(m, REQUEST_HIDE, true));
    }
  }

  /** A frozen IME of a freeze manager is reported active and frozen again; nothing else is changed, and
      nothing at all for others. */
  lemma TemporaryIsVisible(m: Manager)
    requires m.todo.Done?
    ensures Drained(TemporaryActive(m)) ==
      if m.isFrozen && m.kind.Freeze? then m.(reports := m.reports + [false, true]) else m
  {
    if m.isFrozen && m.kind.Freeze? {
      var t := TemporaryActive(m);
      TwoEffects(t);
      assert m.reports + [false] + [true] == m.reports + [false, true];
    }
  }

  lemma TwoEffects(m: Manager)
    requires m.todo.Do? && m.todo.rest.Do? && m.todo.rest.rest.Done?
    ensures Drained(m) == Perform(Perform(m))
  {
    assert Drained(Perform(m)) == Perform(Perform(m));
  }

  /** Sent all the same, it would put off the delayed stop of the idle IME. */
  lemma NeedlessHidePutsOffStop(m: Manager, ok: bool)
    requires FlagsAgree(m) && m.inFlight == 0 && m.todo.Done? && !IpcNeeded(m, REQUEST_HIDE)
    requires m.kind.Lifecycle? && m.hasHandler
    ensures Call(m, REQUEST_HIDE, ok).pending == [m.now + m.kind.delay]
  {
    TwoEffects(Before(m, REQUEST_HIDE));
    var b := Drained(Before(m, REQUEST_HIDE));
    assert b.pending == [];
    TwoEffects(After(b, REQUEST_HIDE, ok));
  }

  // ------------------------------------------------------------------ running code

  /** Steps of the handler's thread, which does not take the lock. */
  predicate OfHandler(s: Step) {
    s.TaskTaken? || s.TaskRuns? || s.TimePasses?
  }

  /** The manager after other threads took those of the given steps that were possible; with the lock
      `held` only the handler's thread can. */
  function All(m: Manager, ss: seq<Step>, held: bool): (r: Manager)
    ensures r.kind == m.kind && r.hasHandler == m.hasHandler && (held ==> r.todo == m.todo && SameFlags(m, r))
  {
    if ss == [] then m else
    var n, s := All(m, ss[..|ss| - 1], held), ss[|ss| - 1];
    if Enabled(n, s) && (held ==> OfHandler(s)) then Next(n, s) else n
  }

  lemma {:induction false} AllKeepsInv(m: Manager, ss: seq<Step>, held: bool)
    requires Inv(m)
    ensures Inv(All(m, ss, held))
  {
    if ss == [] {
    } else {
      var n, s := All(m, ss[..|ss| - 1], held), ss[|ss| - 1];
      AllKeepsInv(m, ss[..|ss| - 1], held);
      if Enabled(n, s) {
        NextKeepsInv(n, s);
      }
    }
  }

  /** What the handler's thread does before each of the effects of a bracket. */
  datatype Gaps = Gaps(first: seq<Step>, second: seq<Step>)

  function Finished(m: Manager, gap: seq<Step>): Manager {
    if m.todo.Do? then Perform(All(m, gap, true)) else m
  }

  /** The effects of a bracket, one after the other; there are two at most. */
  function Bracketed(m: Manager, g: Gaps): Manager {
    Finished(Finished(m, g.first), g.second)
  }

  lemma FinishedKeepsInv(m: Manager, gap: seq<Step>)
    requires Inv(m)
    ensures var n := Finished(m, gap);
      Inv(n) && SameFlags(m, n) && n.todo == if m.todo.Do? then m.todo.rest else m.todo
  {
    AllKeepsInv(m, gap, true);
    if m.todo.Do? {
      PerformKeepsInv(All(m, gap, true));
    }
  }

  /** Whatever the handler's thread does meanwhile, a bracket gives the lock back. */
  lemma BracketKeepsInv(m: Manager, g: Gaps)
    requires Inv(m)
    ensures Inv(Bracketed(m, g)) && Bracketed(m, g).todo.Done? && SameFlags(m, Bracketed(m, g))
  {
    FinishedKeepsInv(m, g.first);
    FinishedKeepsInv(Finished(m, g.first), g.second);
  }

  lemma {:induction false} DrainedKeepsInv(m: Manager)
    requires Inv(m)
    ensures Inv(Drained(m))
    decreases m.todo
  {
    if m.todo.Done? {
    } else {
      PerformKeepsInv(m);
      DrainedKeepsInv(Perform(m));
    }
  }

  /** Other threads during a request: while it waits for the lock, and while the IME is called. */
  datatype Others = Others(before: Gaps, during: seq<Step>, after: Gaps)

  /** A request through both brackets, with the lock taken when it is free. */
  function Requested(m: Manager, t: RequestType, ok: bool, w: Others): Manager {
    var called := All(Bracketed(Before(Drained(m), t), w.before), w.during, false);
    Bracketed(After(Drained(called), t, ok), w.after)
  }

  /** Whatever the others do, after a request the IME is frozen exactly if it is not in use. */
  lemma RequestKeepsInv(m: Manager, t: RequestType, ok: bool, w: Others)
    requires Inv(m)
    ensures var n := Requested(m, t, ok, w);
      Inv(n) && n.todo.Done? && n.isFrozen == !n.isImeInUse
  {
    DrainedKeepsInv(m);
    BeforeKeepsInv(Drained(m), t);
    BracketKeepsInv(Before(Drained(m), t), w.before);
    var begun := Bracketed(Before(Drained(m), t), w.before);
    AllKeepsInv(begun, w.during, false);
    var called := All(begun, w.during, false);
    DrainedKeepsInv(called);
    AfterKeepsInv(Drained(called), t, ok);
    BracketKeepsInv(After(Drained(called), t, ok), w.after);
  }

  class ImeStateManager {
    const kind: Kind
    const hasHandler: bool
    var isFrozen: bool
    var isImeInUse: bool

    // The lock, the handler's queue and thread, and what was done so far, as seen from here.
    var inFlight: nat
    var now: int
    var todo: Effects
    var pending: seq<int>
    var running: bool
    var controls: seq<bool>
    var reports: seq<bool>
    var stops: nat

    function Value(): Manager
      reads this
    {
      Manager(
        kind, hasHandler, isFrozen, isImeInUse, inFlight, now, todo, pending, running, controls, reports, stops)
    }

    constructor (k: Kind, handler: bool, time: int)
      ensures Value() == Init(k, handler, time)
    {
      kind, hasHandler, now := k, handler, time;
      isFrozen, isImeInUse, inFlight := true, false, 0;
      todo, pending, running := Done, [], false;
      controls, reports, stops := [], [], 0;
    }

    // ------------------------------------------------------------------ single effects

    method ReportRss(frozen: bool)
      requires todo.Do? && todo.effect == Report(frozen)
      modifies this`todo, this`reports
      ensures Value() == Perform(old(Value()))
    {
      todo := todo.rest;
      reports := reports + [frozen];
    }

    method RemoveTask()
      requires todo.Do? && todo.effect == Cancel
      modifies this`todo, this`pending
      ensures Value() == Perform(old(Value()))
    {
      todo := todo.rest;
      pending := [];
    }

    method PostTask()
      requires todo.Do? && todo.effect == Post
      modifies this`todo, this`pending
      ensures Value() == Perform(old(Value()))
    {
      todo := todo.rest;
      pending := pending + [now + Delay(kind)];
    }

    method PerformNext()
      requires todo.Do?
      modifies this`todo, this`pending, this`reports
      ensures Value() == Perform(old(Value()))
    {
      match todo.effect
      case Report(frozen) => ReportRss(frozen);
      case Cancel => RemoveTask();
      case Post => PostTask();
    }

    // ---------------------------------------------------------------- the other threads

    method TakeTask(i: nat)
      requires Enabled(Value(), TaskTaken(i))
      modifies this`pending, this`running
      ensures Value() == Next(old(Value()), TaskTaken(i))
    {
      pending := pending[..i] + pending[i + 1..];
      running := true;
    }

    /** The body of the taken task: stop the IME, or report it frozen. */
    method RunTask()
      requires running
      modifies this`running, this`stops, this`reports
      ensures Value() == Next(old(Value()), TaskRuns)
    {
      running := false;
      if kind.Lifecycle? {
        stops := stops + 1;
      } else {
        reports := reports + [true];
      }
    }

    /** A step of another thread. */
    method TakeStep(s: Step)
      requires Enabled(Value(), s)
      modifies this
      ensures Value() == Next(old(Value()), s)
    {
      match s
      case BeforeIpc(t) => var _ := BeginBefore(t);
      case AfterIpc(t, ok) => var _ := BeginAfter(t, ok);
      case TemporaryActiveIme => var _ := BeginTemporary();
      case Act => PerformNext();
      case TaskTaken(i) => TakeTask(i);
      case TaskRuns => RunTask();
      case TimePasses(d) => now := now + d;
    }

    method Interfere(ss: seq<Step>, held: bool)
      modifies this
      ensures Value() == All(old(Value()), ss, held)
    {
      var i := 0;
      while i < |ss|
        invariant 0 <= i <= |ss| && Value() == All(old(Value()), ss[..i], held)
      {
        if Enabled(Value(), ss[i]) && (held ==> OfHandler(ss[i])) {
          TakeStep(ss[i]);
        }
        i := i + 1;
        assert ss[..i][..i - 1] == ss[..i - 1];
      }
      assert ss[..i] == ss;
    }

    /** Waiting for the lock: its holder goes on to the end. */
    method Lock()
      modifies this`todo, this`pending, this`reports
      ensures Value() == Drained(old(Value()))
    {
      while todo.Do?
        invariant Drained(Value()) == Drained(old(Value()))
        decreases todo
      {
        PerformNext();
      }
    }

    // -------------------------------------------------------------------- the brackets

    method IsIpcNeeded(t: RequestType) returns (r: bool)
      ensures r == IpcNeeded(Value(), t)
    {
      return !(t == REQUEST_HIDE && !isImeInUse);
    }

    /** Called with the flag set; what is to be done has been noted in `todo`. */
    method ControlIme(shouldApply: bool, g: Gaps)
      requires todo == EffectsOf(Value(), shouldApply)
      modifies this
      ensures Value() == Bracketed(old(Value()), g)
    {
      match kind {
        case Lifecycle(_) =>
          if !hasHandler {
            return;
          }
          Interfere(g.first, true);
          ReportRss(shouldApply);
          Interfere(g.second, true);
          if shouldApply {
            PostTask();
          } else {
            RemoveTask();
          }
        case Freeze =>
          Interfere(g.first, true);
          if !hasHandler {
            ReportRss(shouldApply);
            return;
          }
          if shouldApply {
            PostTask();
          } else {
            RemoveTask();
            Interfere(g.second, true);
            ReportRss(false);
          }
      }
    }

    method Flip(freeze: bool)
      modifies this`isFrozen, this`controls, this`todo
      ensures Value() == Control(old(Value()), freeze)
    {
      isFrozen := freeze;
      controls := controls + [freeze];
      todo := EffectsOf(Value(), freeze);
    }

    /** The flags; true if the frozen flag flipped and has to be acted on. */
    method BeginBefore(t: RequestType) returns (flipped: bool)
      modifies this`isImeInUse, this`inFlight, this`isFrozen, this`controls, this`todo
      ensures Value() == Before(old(Value()), t) && flipped == old(isFrozen)
    {
      inFlight := inFlight + 1;
      if t == START_INPUT || t == REQUEST_SHOW {
        isImeInUse := true;
      }
      if !isFrozen {
        return false;
      }
      Flip(false);
      return true;
    }

    method BeginAfter(t: RequestType, isSuccess: bool) returns (flipped: bool)
      modifies this`isImeInUse, this`inFlight, this`isFrozen, this`controls, this`todo
      ensures Value() == After(old(Value()), t, isSuccess) && flipped == (isFrozen != old(isFrozen))
    {
      inFlight := if inFlight > 0 then inFlight - 1 else 0;
      RecordUse(t, isSuccess);
      if isFrozen == !isImeInUse {
        return false;
      }
      Flip(!isImeInUse);
      return true;
    }

    method RecordUse(t: RequestType, isSuccess: bool)
      modifies this`isImeInUse
      ensures isImeInUse == InUseAfter(old(Value()), t, isSuccess)
      ensures t == STOP_INPUT ==> !isImeInUse
      ensures t == REQUEST_HIDE ==> isImeInUse == (old(isImeInUse) && !isSuccess)
      ensures t == START_INPUT || t == REQUEST_SHOW ==> isImeInUse == isSuccess
      ensures t == NORMAL ==> isImeInUse == old(isImeInUse)
    {
      if t == START_INPUT || t == REQUEST_SHOW {
        isImeInUse := isSuccess;
      }
      if t == REQUEST_HIDE && isImeInUse {
        isImeInUse := !isSuccess;
      }
      if t == STOP_INPUT {
        isImeInUse := false;
      }
    }

    method BeforeIpcBracket(t: RequestType, g: Gaps)
      requires todo.Done?
      modifies this
      ensures Value() == Bracketed(Before(old(Value()), t), g)
    {
      var flipped := BeginBefore(t);
      if flipped {
        ControlIme(false, g);
      }
    }

    method AfterIpcBracket(t: RequestType, isSuccess: bool, g: Gaps)
      requires todo.Done?
      modifies this
      ensures Value() == Bracketed(After(old(Value()), t, isSuccess), g)
    {
      var flipped := BeginAfter(t, isSuccess);
      if flipped {
        ControlIme(isFrozen, g);
      }
    }

    method BeginTemporary() returns (active: bool)
      modifies this`todo
      ensures Value() == TemporaryActive(old(Value())) && active == (isFrozen && kind.Freeze?)
    {
      if !isFrozen || kind.Lifecycle? {
        return false;
      }
      todo := Do(Report(false), Do(Report(true), Done));
      return true;
    }

    method TemporaryActivate(g: Gaps)
      requires todo.Done?
      modifies this
      ensures Value() == Bracketed(TemporaryActive(old(Value())), g)
    {
      var active := BeginTemporary();
      if active {
        Interfere(g.first, true);
        ReportRss(false);
        Interfere(g.second, true);
        ReportRss(true);
      }
    }

    /** `ok` is the answer of the IME, if it is asked. */
    method RequestIme(t: RequestType, ok: bool, w: Others) returns (sent: bool, ret: bool)
      requires Inv(Value())
      modifies this
      ensures Inv(Value()) && todo.Done? && ret == (sent ==> ok)
      ensures sent <==> !(t == REQUEST_HIDE && !old(isImeInUse))
      ensures Value() == if sent then Requested(old(Value()), t, ok, w) else Drained(old(Value()))
      ensures sent ==> isFrozen == !isImeInUse
      ensures old(inFlight) == 0 && !sent ==> SameFlags(Value(), Call(old(Value()), t, ok))
    {
      ghost var m := Value();
      Lock();
      DrainedKeepsInv(m);
      var needed := IsIpcNeeded(t);
      if !needed {
        if inFlight == 0 {
          HideIsInvisibleIff(m);
        }
        return false, true;
      }
      RequestKeepsInv(m, t, ok, w);
      BeforeIpcBracket(t, w.before);
      Interfere(w.during, false);
      Lock();
      AfterIpcBracket(t, ok, w.after);
      return true, ok;
    }
  }
}
