/** Starting and stopping the real input method of a user.

    The session holds at most one record of the real IME, and a status table drives what start, stop
    and time-out do.  One step of the machine below is one locked section or one flag access of the
    service; steps of all threads interleave freely.  Handing over the core takes three steps (the
    record is filled, its status changes, the started flag rises) and so does the death of an exiting
    IME (it is seen, its record is removed, the stopper is notified).  Only a holder of the start lock
    creates or connects records. */
module ImeLifecycle {
  import opened Options

  datatype ImeStatus = STARTING | READY | EXITING

  datatype ImeEvent = START_IME | START_IME_TIMEOUT | STOP_IME | SET_CORE_AND_AGENT

  datatype ImeAction =
    | DO_NOTHING | HANDLE_STARTING_IME | FORCE_STOP_IME | STOP_READY_IME
    | START_AFTER_FORCE_STOP | DO_SET_CORE_AND_AGENT | DO_ACTION_IN_NULL_IME_DATA

  datatype ImeId = ImeId(bundleName: string, extName: string)

  /** `serial` tells apart the records made over time; the service has their addresses. */
  datatype ImeData = ImeData(serial: nat, ime: ImeId, pid: int, hasCore: bool, startTime: int, imeStatus: ImeStatus)

  datatype Ret =
    | NO_ERROR | TRY_IME_START_FAILED | IME_TO_START_NULLPTR | MALLOC_FAILED | IME_CONNECT_FAILED | IME_START_TIMEOUT
    | IME_DISCONNECT_FAILED | START_MORE_THAN_EIGHT_SECOND | FORCE_STOP_IME_TIMEOUT | REBOOT_OLD_IME_NOT_STOP

  const START_TIME_OUT := 18000

  /** The transition table. */
  function Convert(s: ImeStatus, e: ImeEvent): (ImeStatus, ImeAction) {
    match (s, e)
    case (READY, START_IME) => (READY, DO_NOTHING)
    case (STARTING, START_IME) => (STARTING, HANDLE_STARTING_IME)
    case (EXITING, START_IME) => (EXITING, START_AFTER_FORCE_STOP)
    case (READY, START_IME_TIMEOUT) => (READY, DO_NOTHING)
    case (STARTING, START_IME_TIMEOUT) => (EXITING, START_AFTER_FORCE_STOP)
    case (EXITING, START_IME_TIMEOUT) => (EXITING, START_AFTER_FORCE_STOP)
    case (READY, STOP_IME) => (EXITING, STOP_READY_IME)
    case (STARTING, STOP_IME) => (EXITING, FORCE_STOP_IME)
    case (EXITING, STOP_IME) => (EXITING, FORCE_STOP_IME)
    case (READY, SET_CORE_AND_AGENT) => (READY, DO_NOTHING)
    case (STARTING, SET_CORE_AND_AGENT) => (READY, DO_SET_CORE_AND_AGENT)
    case (EXITING, SET_CORE_AND_AGENT) => (EXITING, DO_NOTHING)
  }

  // --------------------------------------------------------------------- machine

  /** What happened so far.  Record number k was created for `names[k]` and went through the
      statuses `statuses[k]`; `takeovers` lists the records that a hand-over made READY,
      `connections` the record and the IME of every connection request.  `lateClears` counts clears
      of the started flag with a hand-over still about to raise it, `lateStops` stop waits begun over
      a record with a death notice still to come, `missed` dead IMEs whose record was not the one
      there when it was to be removed. */
  datatype History = History(
    names: seq<ImeId>, statuses: seq<seq<ImeStatus>>, takeovers: seq<nat>, connections: seq<(nat, ImeId)>,
    lateClears: nat, lateStops: nat, missed: nat)

  /** `filling` holds the records of hand-overs before their status change, `raising` counts those
      after it; `dying` holds the processes seen dead whose record is to be removed, `noticing`
      counts the notices to be given after that. */
  datatype State = State(
    record: Option<ImeData>, isSwitching: bool, isImeStarted: bool,
    filling: multiset<nat>, raising: nat, dying: multiset<int>, noticing: nat, past: History)

  const NO_HISTORY := History([], [], [], [], 0, 0, 0)
  const INITIAL := State(None, false, false, multiset{}, 0, multiset{}, 0, NO_HISTORY)

  datatype Step =
    | Create(ime: ImeId, now: int)
    | Connect(serial: nat, ime: ImeId)
    | ClearStarted
    | Act(event: ImeEvent)
    | BeginStopWait
    | Remove
    | RemoveOf(pid: int)
    | SetPid(pid: int)
    | Fill(pid: int, recipientAdded: bool)
    | TakeOver(serial: nat)
    | Raise
    | SeeDeath(pid: int)
    | RemoveDead(pid: int)
    | Notify

  /** Steps that other threads take while the start lock is held. */
  predicate Outside(step: Step) {
    !step.Create? && !step.Connect? && !step.ClearStarted? && (step.Act? ==> step.event == STOP_IME)
  }

  predicate Enabled(st: State, step: Step) {
    match step
    case Create(_, _) => st.record.None?
    case Connect(serial, _) => serial < |st.past.names|
    case Act(e) => e != SET_CORE_AND_AGENT
    case SetPid(_) => st.record.Some?
    case Fill(_, _) => st.record.Some?
    case TakeOver(serial) => serial in st.filling
    case Raise => st.raising > 0
    case SeeDeath(pid) => st.record.Some? && st.record.value.pid == pid && st.record.value.imeStatus == EXITING
    case RemoveDead(pid) => pid in st.dying
    case Notify => st.noticing > 0
    case _ => true
  }

  function SetStatus(h: History, k: nat, s: ImeStatus): History {
    if k < |h.statuses| then h.(statuses := h.statuses[k := h.statuses[k] + [s]]) else h
  }

  function Action(record: Option<ImeData>, e: ImeEvent): ImeAction {
    if record.None? then DO_ACTION_IN_NULL_IME_DATA else Convert(record.value.imeStatus, e).1
  }

  /** The table is applied to the record that is there. */
  function Acted(st: State, e: ImeEvent): State {
    if st.record.None? then st else
    var d := st.record.value;
    var (status, action) := Convert(d.imeStatus, e);
    var h := SetStatus(st.past, d.serial, status);
    st.(record := Some(d.(imeStatus := status)),
        past := if action == DO_SET_CORE_AND_AGENT then h.(takeovers := h.takeovers + [d.serial]) else h)
  }

  predicate IsRecordOf(record: Option<ImeData>, pid: int) {
    record.Some? && record.value.pid == pid
  }

  function Next(st: State, step: Step): State
    requires Enabled(st, step)
  {
    match step
    case Create(ime, now) =>
      var h := st.past.(names := st.past.names + [ime], statuses := st.past.statuses + [[STARTING]]);
      st.(record := Some(ImeData(|st.past.names|, ime, -1, false, now, STARTING)), past := h)
    case Connect(serial, ime) => st.(past := st.past.(connections := st.past.connections + [(serial, ime)]))
    case ClearStarted =>
      st.(isImeStarted := false,
          past := if st.raising > 0 then st.past.(lateClears := st.past.lateClears + 1) else st.past)
    case Act(e) => Acted(st, e)
    case BeginStopWait =>
      st.(isSwitching := true,
          past := if st.noticing > 0 && st.record.Some? then st.past.(lateStops := st.past.lateStops + 1) else st.past)
    case Remove => st.(record := None)
    case RemoveOf(pid) => if IsRecordOf(st.record, pid) then st.(record := None) else st
    case SetPid(pid) => st.(record := Some(st.record.value.(pid := pid)))
    case Fill(pid, recipientAdded) =>
      var d := st.record.value;
      st.(record := Some(d.(pid := pid, hasCore := true)),
          filling := if recipientAdded then st.filling + multiset{d.serial} else st.filling)
    case TakeOver(serial) =>
      Acted(st, SET_CORE_AND_AGENT).(
        filling := st.filling - multiset{serial},
        raising := if Action(st.record, SET_CORE_AND_AGENT) == DO_SET_CORE_AND_AGENT then st.raising + 1 else st.raising)
    case Raise => st.(raising := st.raising - 1, isImeStarted := true)
    case SeeDeath(pid) => st.(dying := st.dying + multiset{pid})
    case RemoveDead(pid) =>
      st.(record := if IsRecordOf(st.record, pid) then None else st.record,
          dying := st.dying - multiset{pid}, noticing := st.noticing + 1,
          past := if Misses(st, step) then st.past.(missed := st.past.missed + 1) else st.past)
    case Notify => st.(noticing := st.noticing - 1, isSwitching := false)
  }

  /** The dead IME's record is gone already and another one has taken its place. */
  predicate Misses(st: State, step: Step) {
    step.RemoveDead? && st.record.Some? && st.record.value.pid != step.pid
  }

  /** `held`: the start lock is held by the thread that waits. */
  function Do(st: State, step: Step, held: bool): State {
    if Enabled(st, step) && (held ==> Outside(step)) then Next(st, step) else st
  }

  /** The state after other threads took those of the given steps that were possible. */
  function After(st: State, steps: seq<Step>, held: bool): State {
    if steps == [] then st else Do(After(st, steps[..|steps| - 1], held), steps[|steps| - 1], held)
  }

  // ------------------------------------------------------------------- invariant

  function Rank(s: ImeStatus): nat {
    match s
    case STARTING => 0
    case READY => 1
    case EXITING => 2
  }

  /** STARTING, then READY, then EXITING; a status may repeat or be skipped but never comes back. */
  ghost predicate Advances(h: seq<ImeStatus>) {
    forall i, j :: 0 <= i < j < |h| ==> Rank(h[i]) <= Rank(h[j])
  }

  ghost predicate Distinct(s: seq<nat>) {
    forall i, j :: 0 <= i < j < |s| ==> s[i] != s[j]
  }

  ghost predicate GoodHistory(h: History) {
    && |h.statuses| == |h.names|
    && (forall k :: 0 <= k < |h.statuses| ==> Advances(h.statuses[k]))
    && Distinct(h.takeovers)
    && (forall r :: r in h.takeovers ==> r < |h.names| && READY in h.statuses[r])
    && (forall c :: c in h.connections ==> c.0 < |h.names|)
  }

  /** The record agrees with its history, and a hand-over about to change its status filled it. */
  ghost predicate Consistent(st: State) {
    && GoodHistory(st.past)
    && (forall s :: s in st.filling ==> s < |st.past.names|)
    && (st.record.Some? ==>
      var d, h := st.record.value, st.past;
      && d.serial < |h.names| && h.names[d.serial] == d.ime
      && h.statuses[d.serial] != [] && h.statuses[d.serial][|h.statuses[d.serial]| - 1] == d.imeStatus
      && (d.imeStatus == STARTING ==> d.serial !in h.takeovers)
      && (d.serial in st.filling ==> d.hasCore))
  }

  lemma CreateKeepsConsistent(st: State, ime: ImeId, now: int)
    requires Consistent(st) && st.record.None?
    ensures Consistent(Next(st, Create(ime, now)))
  {
  }

  lemma ActKeepsConsistent(st: State, e: ImeEvent)
    requires Consistent(st)
    ensures Consistent(Acted(st, e))
  {
  }

  lemma TakeOverKeepsConsistent(st: State, serial: nat)
    requires Consistent(st) && serial in st.filling
    ensures Consistent(Next(st, TakeOver(serial)))
  {
    ActKeepsConsistent(st, SET_CORE_AND_AGENT);
  }

  lemma NextKeepsConsistent(st: State, step: Step)
    requires Consistent(st) && Enabled(st, step)
    ensures Consistent(Next(st, step))
  {
    match step
    case Create(ime, now) => CreateKeepsConsistent(st, ime, now);
    case Act(e) => ActKeepsConsistent(st, e);
    case TakeOver(serial) => TakeOverKeepsConsistent(st, serial);
    case _ =>
  }

  // --------------------------------------------------------- what a wait may change

  /** Since `before`, a record made for `ime` became READY. */
  ghost predicate BecameReady(before: History, h: History, ime: ImeId) {
    exists i :: |before.takeovers| <= i < |h.takeovers| && h.takeovers[i] < |h.names| && h.names[h.takeovers[i]] == ime
  }

  ghost predicate Extends(before: History, h: History) {
    && before.names <= h.names && before.connections <= h.connections && before.takeovers <= h.takeovers
    && before.lateClears <= h.lateClears && before.lateStops <= h.lateStops && before.missed <= h.missed
  }

  /** With the start lock held nobody else creates or connects a record. */
  ghost predicate Waited(before: History, h: History) {
    before.names == h.names && before.connections == h.connections && before.lateClears == h.lateClears
  }

  /** The record is the one of before, or was created since. */
  ghost predicate SameOrFresh(before: State, record: Option<ImeData>) {
    record.Some? && record.value.serial < |before.past.names| ==>
      && before.record.Some? && record.value.serial == before.record.value.serial
      && record.value.ime == before.record.value.ime
  }

  ghost predicate Kept(before: State, st: State, held: bool) {
    && Extends(before.past, st.past) && SameOrFresh(before, st.record)
    && (held ==> Waited(before.past, st.past))
  }

  lemma ActIsKept(st: State, e: ImeEvent)
    requires Consistent(st)
    ensures Kept(st, Acted(st, e), true)
  {
  }

  lemma NextIsKept(st: State, step: Step)
    requires Consistent(st) && Enabled(st, step)
    ensures Kept(st, Next(st, step), Outside(step))
  {
    match step
    case Act(e) => ActIsKept(st, e);
    case TakeOver(_) => ActIsKept(st, SET_CORE_AND_AGENT);
    case _ =>
  }

  lemma KeptTwice(before: State, mid: State, st: State)
    requires Consistent(mid) && Kept(before, mid, true) && Kept(mid, st, true)
    ensures Kept(before, st, true)
  {
  }

  lemma DoIsKept(st: State, step: Step, held: bool)
    requires Consistent(st)
    ensures Consistent(Do(st, step, held)) && Kept(st, Do(st, step, held), held)
  {
    if Enabled(st, step) {
      NextKeepsConsistent(st, step);
      NextIsKept(st, step);
    }
  }

  lemma {:induction false} AfterIsKept(st: State, steps: seq<Step>, held: bool)
    requires Consistent(st)
    ensures Consistent(After(st, steps, held)) && Kept(st, After(st, steps, held), held)
  {
    if steps == [] {
    } else {
      var n := |steps| - 1;
      AfterIsKept(st, steps[..n], held);
      var mid := After(st, steps[..n], held);
      DoIsKept(mid, steps[n], held);
    }
  }

  /** In every run over all interleavings statuses only advance and a record is taken over once. */
  lemma EveryRunIsGood(steps: seq<Step>)
    ensures Consistent(After(INITIAL, steps, false)) && GoodHistory(After(INITIAL, steps, false).past)
  {
    AfterIsKept(INITIAL, steps, false);
  }

  // ------------------------------------------------------- a risen flag means READY

  /** The flag is up, or about to rise, only for a record of `before` that became READY since. */
  ghost predicate Earned(before: State, st: State) {
    st.raising > 0 || st.isImeStarted ==>
      before.record.Some? && BecameReady(before.past, st.past, before.record.value.ime)
  }

  /** No record was created since `before`. */
  ghost predicate Tracks(before: State, st: State) {
    Extends(before.past, st.past) && before.past.names == st.past.names && SameOrFresh(before, st.record)
  }

  lemma NextIsEarned(before: State, st: State, step: Step)
    requires Consistent(st) && Enabled(st, step) && !step.Create? && Tracks(before, st) && Earned(before, st)
    ensures Earned(before, Next(st, step))
  {
    var t := Next(st, step);
    if step.TakeOver? && t.raising > st.raising {
      assert t.past.takeovers[|t.past.takeovers| - 1] == st.record.value.serial;
    } else if st.raising > 0 || st.isImeStarted {
      var i :| |before.past.takeovers| <= i < |st.past.takeovers| && st.past.takeovers[i] < |st.past.names|
        && st.past.names[st.past.takeovers[i]] == before.record.value.ime;
      assert t.past.takeovers[i] == st.past.takeovers[i];
    }
  }

  lemma NextIsTracked(before: State, st: State, step: Step)
    requires Consistent(st) && Enabled(st, step) && !step.Create? && Tracks(before, st)
    ensures Tracks(before, Next(st, step))
  {
    NextIsKept(st, step);
  }

  lemma {:induction false} FlagIsEarned(before: State, st: State, steps: seq<Step>)
    requires Consistent(st) && Tracks(before, st) && Earned(before, st)
    ensures Tracks(before, After(st, steps, true)) && Earned(before, After(st, steps, true))
  {
    if steps == [] {
    } else {
      var n := |steps| - 1;
      FlagIsEarned(before, st, steps[..n]);
      AfterIsKept(st, steps[..n], true);
      var mid := After(st, steps[..n], true);
      if Enabled(mid, steps[n]) && Outside(steps[n]) {
        NextIsEarned(before, mid, steps[n]);
        NextIsTracked(before, mid, steps[n]);
      }
    }
  }

  lemma WaitIsTracked(before: State, st: State, steps: seq<Step>)
    requires Consistent(st) && Tracks(before, st)
    ensures var t := After(st, steps, true);
      Consistent(t) && Tracks(before, t) && t.past.connections == st.past.connections && t.past.lateClears == st.past.lateClears
  {
    AfterIsKept(st, steps, true);
  }

  /** A start from the clearing of the flag on, with a connection request between two waits. */
  function Connected(st: State, steps: seq<Step>, connect: Step): State {
    Do(After(Next(st, ClearStarted), steps, true), connect, false)
  }

  lemma ConnectedIsTracked(before: State, st: State, steps: seq<Step>, connect: Step)
    requires Consistent(st) && Tracks(before, st) && connect.Connect? && connect.serial < |st.past.names|
    ensures var t := Connected(st, steps, connect);
      && Consistent(t) && Tracks(before, t) && Enabled(After(Next(st, ClearStarted), steps, true), connect)
      && t.past.connections == st.past.connections + [(connect.serial, connect.ime)]
      && (st.raising > 0 ==> t.past.lateClears > st.past.lateClears)
      && (st.raising == 0 ==> Earned(before, t))
  {
    var cleared := Next(st, ClearStarted);
    NextKeepsConsistent(st, ClearStarted);
    NextIsTracked(before, st, ClearStarted);
    WaitIsTracked(before, cleared, steps);
    var mid := After(cleared, steps, true);
    NextKeepsConsistent(mid, connect);
    NextIsTracked(before, mid, connect);
    if st.raising == 0 {
      FlagIsEarned(before, cleared, steps);
    }
  }

  lemma AfterOne(st: State, step: Step, held: bool)
    ensures After(st, [step], held) == Do(st, step, held)
  {
  }

  /** Whatever happens during a start wait, a risen flag means that the record became READY: exactly
      if no hand-over was about to raise the flag when it was cleared. */
  lemma StartedMeansReadyIff(st: State)
    requires Consistent(st)
    ensures (forall steps :: var t := After(Next(st, ClearStarted), steps, true);
        t.isImeStarted ==> st.record.Some? && BecameReady(st.past, t.past, st.record.value.ime))
      <==> st.raising == 0
  {
    var cleared := Next(st, ClearStarted);
    if st.raising == 0 {
      forall steps
        ensures var t := After(cleared, steps, true);
          t.isImeStarted ==> st.record.Some? && BecameReady(st.past, t.past, st.record.value.ime)
      {
        FlagIsEarned(st, cleared, steps);
      }
    } else {
      AfterOne(cleared, Raise, true);
      var t := After(cleared, [Raise], true);
      assert t.isImeStarted && t.past.takeovers == st.past.takeovers;
    }
  }

  // -------------------------------------------------- an ended stop wait means gone

  /** No record numbered below n is left. */
  predicate Gone(record: Option<ImeData>, n: nat) {
    record.Some? ==> record.value.serial >= n
  }

  /** A notice given or to be given stands for a record that is gone. */
  predicate Settled(st: State, n: nat) {
    st.noticing > 0 || !st.isSwitching ==> Gone(st.record, n)
  }

  /** During a stop wait exactly a missed removal makes a notice stand for a record still there. */
  lemma SettledIff(st: State, step: Step, n: nat)
    requires Consistent(st) && n <= |st.past.names| && Settled(st, n) && Enabled(st, step)
    ensures Settled(Next(st, step), n) <==> !(Misses(st, step) && st.record.value.serial < n)
  {
  }

  lemma NextIsSettled(st: State, step: Step, held: bool, n: nat)
    requires Consistent(st) && n <= |st.past.names| && Settled(st, n)
    ensures var t := Do(st, step, held);
      t.past.missed >= st.past.missed && (Settled(t, n) || t.past.missed > st.past.missed)
  {
    if Enabled(st, step) {
      SettledIff(st, step, n);
    }
  }

  lemma {:induction false} NoticeIsSettled(st: State, steps: seq<Step>, held: bool, n: nat)
    requires Consistent(st) && n <= |st.past.names| && Settled(st, n)
    ensures var t := After(st, steps, held);
      Settled(t, n) || t.past.missed > st.past.missed
  {
    if steps == [] {
    } else {
      var k := |steps| - 1;
      NoticeIsSettled(st, steps[..k], held, n);
      AfterIsKept(st, steps[..k], held);
      var mid := After(st, steps[..k], held);
      if Settled(mid, n) {
        NextIsSettled(mid, steps[k], held, n);
      } else {
        DoIsKept(mid, steps[k], held);
      }
    }
  }

  /** Whatever happens during a stop wait, unless a removal misses, a wait that ends well means that
      the record is gone: exactly if there was none or no notice was still to come when it began. */
  lemma StopMeansGoneIff(st: State)
    requires Consistent(st)
    ensures (forall steps, held :: var t := After(Next(st, BeginStopWait), steps, held);
        t.past.missed == st.past.missed && !t.isSwitching ==> Gone(t.record, |st.past.names|))
      <==> (st.noticing == 0 || st.record.None?)
  {
    var begun := Next(st, BeginStopWait);
    if st.noticing == 0 || st.record.None? {
      forall steps, held
        ensures var t := After(begun, steps, held);
          t.past.missed == st.past.missed && !t.isSwitching ==> Gone(t.record, |st.past.names|)
      {
        NoticeIsSettled(begun, steps, held, |st.past.names|);
      }
    } else {
      AfterOne(begun, Notify, true);
      var t := After(begun, [Notify], true);
      assert t.past.missed == st.past.missed && !t.isSwitching && !Gone(t.record, |st.past.names|);
    }
  }

  /** The death of the exiting IME ends the stop wait: seen, removed and notified. */
  lemma DeathEndsStop(st: State, pid: int)
    requires IsRecordOf(st.record, pid) && st.record.value.imeStatus == EXITING
    ensures var t := Next(st, BeginStopWait);
      && Enabled(t, SeeDeath(pid)) && Enabled(Next(t, SeeDeath(pid)), RemoveDead(pid))
      && var removed := Next(Next(t, SeeDeath(pid)), RemoveDead(pid));
      removed.record.None? && Enabled(removed, Notify) && !Next(removed, Notify).isSwitching
  {
  }

  /** The death of an IME that is not exiting only takes its record away. */
  lemma OtherDeathRemoves(st: State, pid: int)
    ensures st.record.Some? && st.record.value.imeStatus != EXITING ==> !Enabled(st, SeeDeath(pid))
    ensures Next(st, RemoveOf(pid)) == if IsRecordOf(st.record, pid) then st.(record := None) else st
    ensures IsRecordOf(st.record, pid) <==> st.record.Some? && st.record.value.pid == pid
  {
  }

  /** An IME that reports its process and hands over its core during the start wait completes the start. */
  lemma HandOverCompletesStart(st: State, pid: int)
    requires Consistent(st) && st.record.Some? && st.record.value.imeStatus == STARTING
    ensures var k := st.record.value.serial;
      && Enabled(st, SetPid(pid)) && Enabled(Next(st, SetPid(pid)), Fill(pid, true))
      && var filled := Next(Next(st, SetPid(pid)), Fill(pid, true));
      && Enabled(filled, TakeOver(k)) && Enabled(Next(filled, TakeOver(k)), Raise)
      && var done := Next(Next(filled, TakeOver(k)), Raise);
      done.isImeStarted && done.record == Some(st.record.value.(pid := pid, hasCore := true, imeStatus := READY))
  {
  }

  // ------------------------------------------------------------ READY means a core

  /** A READY record has its core. */
  predicate Cored(st: State) {
    st.record.Some? && st.record.value.imeStatus == READY ==> st.record.value.hasCore
  }

  /** A hand-over changes the status of a record that nobody filled. */
  predicate Misdirected(st: State, step: Step) {
    step.TakeOver? && st.record.Some? && st.record.value.imeStatus == STARTING && !st.record.value.hasCore
  }

  /** The table makes a STARTING record READY for a hand-over only, and no other one. */
  lemma ActedCored(st: State, e: ImeEvent)
    requires Cored(st)
    ensures Cored(Acted(st, e)) <==>
      !(e == SET_CORE_AND_AGENT && st.record.Some? && st.record.value.imeStatus == STARTING && !st.record.value.hasCore)
  {
  }

  /** A step keeps the core of a READY record exactly if it is not a misdirected hand-over, which
      can only be one that filled another record. */
  lemma CoredIff(st: State, step: Step)
    requires Consistent(st) && Cored(st) && Enabled(st, step)
    ensures Cored(Next(st, step)) <==> !Misdirected(st, step)
    ensures Misdirected(st, step) ==> step.serial != st.record.value.serial
  {
    match step
    case Act(e) => ActedCored(st, e);
    case TakeOver(_) => ActedCored(st, SET_CORE_AND_AGENT);
    case _ =>
  }

  // ---------------------------------------------------------- runs that go wrong

  lemma TakeStep(run: seq<Step>, step: Step) returns (longer: seq<Step>)
    requires Enabled(After(INITIAL, run, false), step)
    ensures longer == run + [step] && After(INITIAL, longer, false) == Next(After(INITIAL, run, false), step)
  {
    longer := run + [step];
    assert longer[..|run|] == run;
  }

  function Exiting(st: State, ime: ImeId, pid: int): State {
    var k, h := |st.past.names|, st.past;
    st.(record := Some(ImeData(k, ime, pid, true, 0, EXITING)), raising := st.raising + 1,
        past := h.(names := h.names + [ime], statuses := h.statuses + [[STARTING, READY, EXITING]],
                   takeovers := h.takeovers + [k]))
  }

  lemma StatusOfLast(h: History, x: seq<ImeStatus>, s: ImeStatus)
    ensures SetStatus(h.(statuses := h.statuses + [x]), |h.statuses|, s) == h.(statuses := h.statuses + [x + [s]])
  {
    assert (h.statuses + [x])[|h.statuses| := x + [s]] == h.statuses + [x + [s]];
  }

  lemma HandedOverAndStopped(st: State, ime: ImeId, pid: int)
    requires st.record.None? && st.filling == multiset{} && |st.past.statuses| == |st.past.names|
    ensures var s2 := Next(Next(st, Create(ime, 0)), Fill(pid, true));
      && Enabled(s2, TakeOver(|st.past.names|))
      && Next(Next(s2, TakeOver(|st.past.names|)), Act(STOP_IME)) == Exiting(st, ime, pid)
  {
    var k, h := |st.past.names|, st.past.(names := st.past.names + [ime]);
    var s2 := Next(Next(st, Create(ime, 0)), Fill(pid, true));
    StatusOfLast(h, [STARTING], READY);
    assert [STARTING] + [READY] == [STARTING, READY] && s2.filling - multiset{k} == st.filling;
    var s3, g := Next(s2, TakeOver(k)), h.(takeovers := h.takeovers + [k]);
    assert s3.past == g.(statuses := h.statuses + [[STARTING, READY]]);
    StatusOfLast(g, [STARTING, READY], EXITING);
    assert [STARTING, READY] + [EXITING] == [STARTING, READY, EXITING];
  }

  /** An IME starts, hands over its core, and is told to stop before the flag has risen. */
  lemma StartAndStop(run: seq<Step>, ime: ImeId, pid: int) returns (longer: seq<Step>)
    requires var st := After(INITIAL, run, false);
      st.record.None? && st.filling == multiset{} && |st.past.statuses| == |st.past.names|
    ensures After(INITIAL, longer, false) == Exiting(After(INITIAL, run, false), ime, pid)
  {
    var st := After(INITIAL, run, false);
    HandedOverAndStopped(st, ime, pid);
    longer := TakeStep(run, Create(ime, 0));
    longer := TakeStep(longer, Fill(pid, true));
    longer := TakeStep(longer, TakeOver(|st.past.names|));
    longer := TakeStep(longer, Act(STOP_IME));
  }

  /** Up to the removal of the record of `a`, which died while exiting. */
  lemma Removed(a: ImeId) returns (run: seq<Step>)
    ensures After(INITIAL, run, false) ==
      Exiting(INITIAL, a, 7).(record := None, isSwitching := true, noticing := 1)
  {
    run := StartAndStop([], a, 7);
    run := TakeStep(run, BeginStopWait);
    run := TakeStep(run, SeeDeath(7));
    run := TakeStep(run, RemoveDead(7));
  }

  /** A hand-over of the old IME raises the flag after the start of the new one cleared it: the start
      reports success with the new record STARTING. */
  lemma LateFlagExists(a: ImeId, b: ImeId) returns (run: seq<Step>)
    ensures var st := After(INITIAL, run + [ClearStarted, Connect(1, b), Raise], false);
      st.isImeStarted && st.record == Some(ImeData(1, b, -1, false, 0, STARTING))
  {
    run := Removed(a);
    run := TakeStep(run, Notify);
    run := TakeStep(run, Create(b, 0));
    var longer := TakeStep(run, ClearStarted);
    longer := TakeStep(longer, Connect(1, b));
    longer := TakeStep(longer, Raise);
    assert longer == run + [ClearStarted, Connect(1, b), Raise];
  }

  /** The notice of an earlier death comes after the stop wait for the next IME began: the stop
      reports success with that record still there, and a start finds and uses it. */
  lemma LateNoticeExists(a: ImeId, b: ImeId) returns (run: seq<Step>)
    ensures var st := After(INITIAL, run + [BeginStopWait, Notify], false);
      !st.isSwitching && st.record == Some(ImeData(1, b, 8, true, 0, EXITING))
  {
    run := Removed(a);
    run := StartAndStop(run, b, 8);
    var longer := TakeStep(run, BeginStopWait);
    longer := TakeStep(longer, Notify);
    assert longer == run + [BeginStopWait, Notify];
  }

  /** Up to where somebody else removed the record of `a`, which was seen dead. */
  lemma Forestalled(a: ImeId) returns (run: seq<Step>)
    ensures After(INITIAL, run, false) == Exiting(INITIAL, a, 7).(record := None, dying := multiset{7})
  {
    run := StartAndStop([], a, 7);
    run := TakeStep(run, SeeDeath(7));
    run := TakeStep(run, Remove);
  }

  /** The record of `a` is removed and replaced before the removal that follows its death: that one
      misses, and its notice ends the stop wait of the next IME. */
  lemma MissedRemovalExists(a: ImeId, b: ImeId) returns (run: seq<Step>)
    ensures var st := After(INITIAL, run + [BeginStopWait, RemoveDead(7), Notify], false);
      && !st.isSwitching && st.record == Some(ImeData(1, b, 8, true, 0, EXITING))
      && st.past.missed == 1 && st.past.lateStops == 0
  {
    run := Forestalled(a);
    run := StartAndStop(run, b, 8);
    var longer := TakeStep(run, BeginStopWait);
    longer := TakeStep(longer, RemoveDead(7));
    longer := TakeStep(longer, Notify);
    assert longer == run + [BeginStopWait, RemoveDead(7), Notify];
  }

  lemma FilledAndReplaced(a: ImeId, b: ImeId)
    ensures var s3 := Next(Next(Next(INITIAL, Create(a, 0)), Fill(7, true)), Remove);
      && s3.record.None? && Enabled(Next(s3, Create(b, 0)), TakeOver(0))
      && Next(Next(s3, Create(b, 0)), TakeOver(0)).record == Some(ImeData(1, b, -1, false, 0, READY))
  {
  }

  /** A hand-over that filled a removed record makes its successor READY without a core. */
  lemma MisdirectedExists(a: ImeId, b: ImeId) returns (run: seq<Step>)
    ensures After(INITIAL, run, false).record == Some(ImeData(1, b, -1, false, 0, READY))
  {
    FilledAndReplaced(a, b);
    run := TakeStep([], Create(a, 0));
    run := TakeStep(run, Fill(7, true));
    run := TakeStep(run, Remove);
    run := TakeStep(run, Create(b, 0));
    run := TakeStep(run, TakeOver(0));
  }
}
