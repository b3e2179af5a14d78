/** The code that starts and stops the real input method, on the machine of `ImeLifecycle`.

    Every locked section and flag access is a method that takes one step of the machine.  The calls
    for starting and stopping are built from them, and at their waits and between any two looks at
    the record other threads take whatever steps they can. */
module ImeStartStop {
  import opened Options
  import opened ImeLifecycle

  /** Answers of the outside world during one call.  The last fields say what other threads do
      meanwhile, at the waits and between any two looks at the record. */
  datatype World = World(
    now: int, connectionMade: bool, connectOk: bool, stopServiceOk: bool, stopExtensionOk: bool,
    oldImeGone: bool, runningBefore: bool, runningAfter: bool,
    beforeDecision: seq<Step>, beforeStart: seq<Step>, beforeTimeout: seq<Step>, beforeClear: seq<Step>,
    beforeConnect: seq<Step>, duringStartWait: seq<Step>, beforeStopReady: seq<Step>, beforeStopWait: seq<Step>,
    duringStopWait: seq<Step>, beforeForceStop: seq<Step>, duringForceWait: seq<Step>)

  /** Since `before`, the started flag was cleared with a hand-over about to raise it. */
  ghost predicate LateClear(before: History, h: History) {
    h.lateClears > before.lateClears
  }

  /** Since `before`, a stop wait began over a record with a notice to come, or a removal missed. */
  ghost predicate LateNotice(before: History, h: History) {
    h.lateStops > before.lateStops || h.missed > before.missed
  }

  /** Since `before`, only records created since then were connected. */
  ghost predicate ConnectsOnlyFresh(before: History, h: History) {
    forall i :: |before.connections| <= i < |h.connections| ==> h.connections[i].0 >= |before.names|
  }

  /** Since `before`, every record was connected for the IME that it was made for. */
  ghost predicate ConnectsOwnIme(before: History, h: History) {
    forall i :: |before.connections| <= i < |h.connections| ==>
      h.connections[i].0 < |h.names| && h.names[h.connections[i].0] == h.connections[i].1
  }

  predicate Fits(record: Option<ImeData>, ime: ImeId) {
    record.Some? ==> record.value.ime == ime
  }

  /** The IME whose record a start will use. */
  function Used(record: Option<ImeData>, ime: ImeId): ImeId {
    if record.Some? then record.value.ime else ime
  }

  // ------------------------------------------------- outcomes without other threads

  /** Nobody else does anything during the call. */
  predicate Alone(w: World) {
    && w.beforeDecision == [] && w.beforeStart == [] && w.beforeTimeout == [] && w.beforeClear == []
    && w.beforeConnect == [] && w.duringStartWait == [] && w.beforeStopReady == [] && w.beforeStopWait == []
    && w.duringStopWait == [] && w.beforeForceStop == [] && w.duringForceWait == []
  }

  /** What forcing an IME with a record to stop returns. */
  function Forced(isNeedWait: bool, w: World): Ret {
    if !w.runningBefore then NO_ERROR
    else if !w.stopExtensionOk then IME_DISCONNECT_FAILED
    else if !isNeedWait then START_MORE_THAN_EIGHT_SECOND
    else if w.runningAfter then FORCE_STOP_IME_TIMEOUT
    else NO_ERROR
  }

  /** A call that tells an IME to stop: politely, or through the ability manager. */
  datatype Outgoing = StopService(serial: nat) | StopExtension(ime: ImeId)

  /** What these outcomes are about: the record, how many were made so far, what was connected, and what
      was told to stop. */
  datatype View = View(
    record: Option<ImeData>, made: nat, connections: seq<(nat, ImeId)>, outgoing: seq<Outgoing>)

  function WithStatus(v: View, status: ImeStatus): View {
    if v.record.None? then v else v.(record := Some(v.record.value.(imeStatus := status)))
  }

  /** The table is applied to the record. */
  function Told(v: View, e: ImeEvent): View {
    if v.record.None? then v else WithStatus(v, Convert(v.record.value.imeStatus, e).0)
  }

  function ForceCalls(record: Option<ImeData>, w: World): seq<Outgoing> {
    if record.None? || !w.runningBefore then [] else [StopExtension(record.value.ime)]
  }

  /** Forcing a stop takes the record away if it succeeds, and leaves it otherwise. */
  function AfterForce(v: View, isNeedWait: bool, w: World): View {
    var told := v.(outgoing := v.outgoing + ForceCalls(v.record, w));
    if Forced(isNeedWait, w) == NO_ERROR then told.(record := None) else told
  }

  /** A READY IME with its core is asked first. */
  function Asked(v: View): View {
    if v.record.Some? && v.record.value.imeStatus == READY && v.record.value.hasCore
    then v.(outgoing := v.outgoing + [StopService(v.record.value.serial)]) else v
  }

  /** A stop: the record is EXITING from then on, and as nobody dies the stop is forced. */
  predicate StopLeaves(before: View, w: World, ret: Ret, after: View) {
    if before.record.None? then ret == NO_ERROR && after == before
    else ret == Forced(true, w) && after == AfterForce(WithStatus(Asked(before), EXITING), true, w)
  }

  /** A start: the record there is connected again, or a new one is made, which stays only if it could
      be connected.  Nobody hands over a core, so it times out. */
  predicate StartLeaves(before: View, ime: ImeId, w: World, ret: Ret, after: View) {
    if before.record.None? && !w.connectionMade then ret == MALLOC_FAILED && after == before
    else
      var record := ImeData(before.made, ime, -1, false, w.now, STARTING);
      var serial := if before.record.Some? then before.record.value.serial else record.serial;
      && ret == (if w.connectOk then IME_START_TIMEOUT else IME_CONNECT_FAILED)
      && after == View(
           if before.record.Some? then before.record else if w.connectOk then Some(record) else None,
           if before.record.Some? then before.made else before.made + 1,
           before.connections + [(serial, ime)], before.outgoing)
  }

  /** The IME of the record is forced to stop first; nothing is connected if that fails. */
  predicate ReplaceLeaves(before: View, ime: ImeId, isNeedWait: bool, w: World, ret: Ret, after: View) {
    var forced := AfterForce(before, isNeedWait, w);
    if Forced(isNeedWait, w) != NO_ERROR then ret == Forced(isNeedWait, w) && after == forced
    else StartLeaves(forced, ime, w, ret, after)
  }

  /** A start of another IME, or of the same after a stop. */
  predicate NewImeLeaves(before: View, ime: ImeId, w: World, ret: Ret, after: View) {
    if before.record.None? then StartLeaves(before, ime, w, ret, after)
    else ReplaceLeaves(WithStatus(Asked(before), EXITING), ime, true, w, ret, after)
  }

  /** A start of the IME of the record. */
  predicate SameImeLeaves(before: View, ime: ImeId, w: World, ret: Ret, after: View) {
    if before.record.None? then StartLeaves(before, ime, w, ret, after) else
    match before.record.value.imeStatus
    case READY => ret == NO_ERROR && after == before
    case EXITING => ReplaceLeaves(before, ime, true, w, ret, after)
    case STARTING =>
      if w.now - before.record.value.startTime > 18000 then ReplaceLeaves(WithStatus(before, EXITING), ime, false, w, ret, after)
      else StartLeaves(before, ime, w, ret, after)
  }

  /** A start that finds the IME READY leaves it alone: it is neither stopped nor connected. */
  predicate LeftAlone(looked: State, ret: Ret, st: State) {
    && ret == NO_ERROR && st.record == looked.record && st.isSwitching == looked.isSwitching
    && st.past.connections == looked.past.connections && st.past.lateStops == looked.past.lateStops
  }

  class RealIme {
    var realImeData: Option<ImeData>
    var isSwitching: bool
    var isImeStarted: bool
    var runningIme: string
    var firstStartNeedRetry: bool
    var outgoing: seq<Outgoing>

    // Where the other threads are, and what happened so far.
    var filling: multiset<nat>
    var raising: nat
    var dying: multiset<int>
    var noticing: nat
    var past: History

    function Value(): State
      reads this
    {
      State(realImeData, isSwitching, isImeStarted, filling, raising, dying, noticing, past)
    }

    /** What other threads do not touch. */
    function Settings(): (string, bool, seq<Outgoing>)
      reads this
    {
      (runningIme, firstStartNeedRetry, outgoing)
    }

    function Seen(): View
      reads this
    {
      View(realImeData, |past.names|, past.connections, outgoing)
    }

    ghost predicate Valid()
      reads this
    {
      Consistent(Value())
    }

    predicate IsReady(ime: ImeId)
      reads this
    {
      realImeData.Some? && realImeData.value.ime == ime && realImeData.value.imeStatus == READY
    }

    predicate Has(target: Option<ImeId>)
      reads this
    {
      realImeData.Some? && target == Some(realImeData.value.ime)
    }

    constructor (running: string)
      ensures Valid() && Value() == INITIAL && Settings() == (running, true, [])
    {
      realImeData, isSwitching, isImeStarted := None, false, false;
      runningIme, firstStartNeedRetry, outgoing := running, true, [];
      filling, raising, dying, noticing, past := multiset{}, 0, multiset{}, 0, NO_HISTORY;
    }

    // ------------------------------------------------------------------ single steps

    method GetImeAction(e: ImeEvent) returns (a: ImeAction)
      modifies this
      ensures Value() == Acted(old(Value()), e) && a == Action(old(realImeData), e)
      ensures Settings() == old(Settings())
      ensures old(Valid()) ==> Valid() && Kept(old(Value()), Value(), true)
    {
      if old(Valid()) {
        ActKeepsConsistent(old(Value()), e);
        ActIsKept(old(Value()), e);
      }
      a := ApplyTable(e);
    }

    method ApplyTable(e: ImeEvent) returns (a: ImeAction)
      modifies this`realImeData, this`past
      ensures Value() == Acted(old(Value()), e) && a == Action(old(realImeData), e)
    {
      if realImeData.None? {
        return DO_ACTION_IN_NULL_IME_DATA;
      }
      var d := realImeData.value;
      var (status, action) := Convert(d.imeStatus, e);
      realImeData := Some(d.(imeStatus := status));
      past := SetStatus(past, d.serial, status);
      if action == DO_SET_CORE_AND_AGENT {
        past := past.(takeovers := past.takeovers + [d.serial]);
      }
      return action;
    }

    method InitRealImeData(ime: ImeId, now: int, connectionMade: bool) returns (ok: bool, isFirstStart: bool)
      modifies this
      ensures isFirstStart == (old(realImeData).None? && connectionMade) && ok == realImeData.Some?
      ensures Value() == if isFirstStart then Next(old(Value()), Create(ime, now)) else old(Value())
      ensures Settings() == old(Settings())
    {
      if realImeData.Some? {
        return true, false;
      }
      if !connectionMade {
        return false, false;
      }
      realImeData := Some(ImeData(|past.names|, ime, -1, false, now, STARTING));
      past := past.(names := past.names + [ime], statuses := past.statuses + [[STARTING]]);
      return true, true;
    }

    method RemoveRealImeData()
      modifies this
      ensures Value() == Next(old(Value()), Remove) && Settings() == old(Settings())
    {
      realImeData := None;
    }

    method RemoveRealImeDataOf(pid: int)
      modifies this
      ensures Value() == Next(old(Value()), RemoveOf(pid)) && Settings() == old(Settings())
      ensures realImeData ==
        if old(realImeData).Some? && old(realImeData).value.pid == pid then None else old(realImeData)
    {
      if realImeData.None? || realImeData.value.pid != pid {
        return;
      }
      realImeData := None;
    }

    method InitConnect(pid: int) returns (ok: bool)
      modifies this
      ensures ok == Enabled(old(Value()), SetPid(pid)) && Settings() == old(Settings())
      ensures Value() == if ok then Next(old(Value()), SetPid(pid)) else old(Value())
      ensures ok ==> realImeData == Some(old(realImeData).value.(pid := pid))
    {
      if realImeData.None? {
        return false;
      }
      realImeData := Some(realImeData.value.(pid := pid));
      return true;
    }

    /** A new IME hands over its core: the record is filled. */
    method UpdateRealImeData(pid: int, recipientAdded: bool) returns (ok: bool)
      modifies this
      ensures ok == (old(realImeData).Some? && recipientAdded) && Settings() == old(Settings())
      ensures Value() ==
        if old(realImeData).Some? then Next(old(Value()), Fill(pid, recipientAdded)) else old(Value())
      ensures old(realImeData).Some? ==> realImeData == Some(old(realImeData).value.(pid := pid, hasCore := true))
    {
      if realImeData.None? {
        return false;
      }
      realImeData := Some(realImeData.value.(pid := pid, hasCore := true));
      if !recipientAdded {
        return false;
      }
      filling := filling + multiset{realImeData.value.serial};
      return true;
    }

    /** The status changes; true if the hand-over goes on to raise the flag. */
    method TakeOverCore(serial: nat) returns (goesOn: bool)
      requires serial in filling
      modifies this
      ensures Value() == Next(old(Value()), TakeOver(serial)) && goesOn == (raising > old(raising))
      ensures goesOn <==> old(realImeData).Some? && old(realImeData).value.imeStatus == STARTING
      ensures goesOn ==> realImeData == Some(old(realImeData).value.(imeStatus := READY))
      ensures Settings() == old(Settings())
    {
      var action := ApplyTable(SET_CORE_AND_AGENT);
      filling := filling - multiset{serial};
      if action != DO_SET_CORE_AND_AGENT {
        return false;
      }
      raising := raising + 1;
      return true;
    }

    method SetStarted()
      requires raising > 0
      modifies this
      ensures Value() == Next(old(Value()), Raise) && Settings() == old(Settings())
    {
      raising := raising - 1;
      isImeStarted := true;
    }

    method ClearStartedFlag()
      modifies this
      ensures Value() == Next(old(Value()), ClearStarted) && Settings() == old(Settings())
    {
      if raising > 0 {
        past := past.(lateClears := past.lateClears + 1);
      }
      isImeStarted := false;
    }

    method ConnectExtensionAbility(serial: nat, ime: ImeId)
      requires serial < |past.names|
      modifies this
      ensures Value() == Next(old(Value()), Connect(serial, ime)) && Settings() == old(Settings())
    {
      past := past.(connections := past.connections + [(serial, ime)]);
    }

    /** A dead process is looked up; true if it is an exiting IME, whose stop will be notified. */
    method LookAtDeadIme(pid: int) returns (exiting: bool)
      modifies this
      ensures exiting == Enabled(old(Value()), SeeDeath(pid)) && Settings() == old(Settings())
      ensures exiting <==>
        old(realImeData).Some? && old(realImeData).value.pid == pid && old(realImeData).value.imeStatus == EXITING
      ensures Value() == if exiting then Next(old(Value()), SeeDeath(pid)) else old(Value())
    {
      if realImeData.None? || realImeData.value.pid != pid || realImeData.value.imeStatus != EXITING {
        return false;
      }
      dying := dying + multiset{pid};
      return true;
    }

    method RemoveDeadIme(pid: int)
      requires pid in dying
      modifies this
      ensures Value() == Next(old(Value()), RemoveDead(pid)) && Settings() == old(Settings())
      ensures realImeData ==
        if old(realImeData).Some? && old(realImeData).value.pid == pid then None else old(realImeData)
    {
      dying, noticing := dying - multiset{pid}, noticing + 1;
      if realImeData.None? {
        return;
      }
      if realImeData.value.pid == pid {
        realImeData := None;
      } else {
        past := past.(missed := past.missed + 1);
      }
    }

    method NotifyImeStopFinished()
      requires noticing > 0
      modifies this
      ensures Value() == Next(old(Value()), Notify) && Settings() == old(Settings())
    {
      noticing := noticing - 1;
      isSwitching := false;
    }

    method BeginStopWaiting()
      modifies this
      ensures Value() == Next(old(Value()), BeginStopWait) && Settings() == old(Settings())
    {
      if noticing > 0 && realImeData.Some? {
        past := past.(lateStops := past.lateStops + 1);
      }
      isSwitching := true;
    }

    // ------------------------------------------------------------- the other threads

    /** One step of another thread, if it can be taken. */
    method Interfere(step: Step, held: bool)
      modifies this
      ensures Value() == Do(old(Value()), step, held) && Settings() == old(Settings())
    {
      if !Enabled(Value(), step) || (held && !Outside(step)) {
        return;
      }
      match step
      case Create(ime, now) => var _, _ := InitRealImeData(ime, now, true);
      case Connect(serial, ime) => ConnectExtensionAbility(serial, ime);
      case ClearStarted => ClearStartedFlag();
      case Act(e) => var _ := GetImeAction(e);
      case BeginStopWait => BeginStopWaiting();
      case Remove => RemoveRealImeData();
      case RemoveOf(pid) => RemoveRealImeDataOf(pid);
      case SetPid(pid) => var _ := InitConnect(pid);
      case Fill(pid, recipientAdded) => var _ := UpdateRealImeData(pid, recipientAdded);
      case TakeOver(serial) => var _ := TakeOverCore(serial);
      case Raise => SetStarted();
      case SeeDeath(pid) => var _ := LookAtDeadIme(pid);
      case RemoveDead(pid) => RemoveDeadIme(pid);
      case Notify => NotifyImeStopFinished();
    }

    method Wait(steps: seq<Step>, held: bool)
      modifies this
      ensures Value() == After(old(Value()), steps, held) && Settings() == old(Settings())
      ensures old(Valid()) ==> Valid() && Kept(old(Value()), Value(), held)
    {
      var i := 0;
      while i < |steps|
        invariant 0 <= i <= |steps| && Value() == After(old(Value()), steps[..i], held)
        invariant Settings() == old(Settings())
      {
        Interfere(steps[i], held);
        i := i + 1;
        assert steps[..i][..i - 1] == steps[..i - 1];
      }
      assert steps[..i] == steps;
      if old(Valid()) {
        AfterIsKept(old(Value()), steps, held);
      }
    }

    // ----------------------------------------------------------------------- stopping

    /** True means that the death of the exiting IME was noticed while waiting. */
    method WaitForCurrentImeStop(steps: seq<Step>, held: bool) returns (stopped: bool)
      requires Valid()
      modifies this
      ensures Valid() && Kept(old(Value()), Value(), held) && Settings() == old(Settings())
      ensures stopped ==> Gone(realImeData, |old(past).names|) || LateNotice(old(past), past)
      ensures Value() == After(Next(old(Value()), BeginStopWait), steps, held) && stopped == !isSwitching
      ensures steps == [] ==> !stopped && Seen() == old(Seen())
    {
      BeginStopWaiting();
      NextKeepsConsistent(old(Value()), BeginStopWait);
      ghost var begun := Value();
      Wait(steps, held);
      if begun.past.lateStops == old(past).lateStops {
        NoticeIsSettled(begun, steps, held, |old(past).names|);
      }
      return !isSwitching;
    }

    method ForceStopCurrentIme(isNeedWait: bool, held: bool, w: World) returns (ret: Ret)
      requires Valid()
      modifies this
      ensures Valid() && Kept(old(Value()), Value(), held) && old(outgoing) <= outgoing
      ensures (runningIme, firstStartNeedRetry) == old((runningIme, firstStartNeedRetry))
      ensures ret == NO_ERROR ==> realImeData.None?
      ensures ret == if old(realImeData).None? then NO_ERROR else Forced(isNeedWait, w)
      ensures ret == IME_DISCONNECT_FAILED || ret == START_MORE_THAN_EIGHT_SECOND ==>
        Value() == After(old(Value()), w.beforeForceStop, held)
      ensures old(realImeData).Some? && isNeedWait && w.runningBefore && w.stopExtensionOk ==>
        var waited := After(Next(After(old(Value()), w.beforeForceStop, held), BeginStopWait), w.duringForceWait, held);
        Value() == if w.runningAfter then waited else Next(waited, Remove)
      ensures Alone(w) && old(realImeData).Some? ==> Seen() == AfterForce(old(Seen()), isNeedWait, w)
      ensures outgoing == old(outgoing) + ForceCalls(old(realImeData), w)
    {
      if realImeData.None? {
        return NO_ERROR;
      }
      var ime := realImeData.value.ime;
      Wait(w.beforeForceStop, held);
      if !w.runningBefore {
        RemoveRealImeData();
        return NO_ERROR;
      }
      outgoing := outgoing + [StopExtension(ime)];
      if !w.stopExtensionOk {
        return IME_DISCONNECT_FAILED;
      }
      if !isNeedWait {
        return START_MORE_THAN_EIGHT_SECOND;
      }
      var _ := WaitForCurrentImeStop(w.duringForceWait, held);
      if w.runningAfter {
        return FORCE_STOP_IME_TIMEOUT;
      }
      RemoveRealImeData();
      return NO_ERROR;
    }

    method StopReadyCurrentIme(held: bool, w: World) returns (ret: Ret)
      requires Valid()
      modifies this
      ensures Valid() && Kept(old(Value()), Value(), held) && old(outgoing) <= outgoing
      ensures (runningIme, firstStartNeedRetry) == old((runningIme, firstStartNeedRetry))
      ensures ret == NO_ERROR ==> Gone(realImeData, |old(past).names|) || LateNotice(old(past), past)
      ensures ret == NO_ERROR || ret == Forced(true, w)
      ensures Alone(w) && old(realImeData).Some? ==>
        ret == Forced(true, w) &&
        Seen() == AfterForce(
          if old(realImeData).value.hasCore then old(Seen()).(outgoing := old(outgoing) + [StopService(old(realImeData).value.serial)])
          else old(Seen()), true, w)
      ensures var looked := After(old(Value()), w.beforeStopReady, held);
        looked.record.Some? && looked.record.value.hasCore ==>
          old(outgoing) + [StopService(looked.record.value.serial)] <= outgoing
    {
      Wait(w.beforeStopReady, held);
      if realImeData.None? {
        return NO_ERROR;
      }
      if !realImeData.value.hasCore {
        ret := ForceStopCurrentIme(true, held, w);
        return;
      }
      outgoing := outgoing + [StopService(realImeData.value.serial)];
      if !w.stopServiceOk {
        ret := ForceStopCurrentIme(true, held, w);
        return;
      }
      ret := AwaitStop(held, w);
    }

    /** The IME was asked to stop; failing that it is forced. */
    method AwaitStop(held: bool, w: World) returns (ret: Ret)
      requires Valid()
      modifies this
      ensures var waited := After(Next(After(old(Value()), w.beforeStopWait, held), BeginStopWait), w.duringStopWait, held);
        !waited.isSwitching ==> ret == NO_ERROR && Value() == waited && outgoing == old(outgoing)
      ensures Valid() && Kept(old(Value()), Value(), held) && old(outgoing) <= outgoing
      ensures (runningIme, firstStartNeedRetry) == old((runningIme, firstStartNeedRetry))
      ensures ret == NO_ERROR ==> Gone(realImeData, |old(past).names|) || LateNotice(old(past), past)
      ensures ret == NO_ERROR || ret == Forced(true, w)
      ensures Alone(w) && old(realImeData).Some? ==>
        ret == Forced(true, w) && Seen() == AfterForce(old(Seen()), true, w)
    {
      Wait(w.beforeStopWait, held);
      var stopped := WaitForCurrentImeStop(w.duringStopWait, held);
      if !stopped {
        ret := ForceStopCurrentIme(true, held, w);
        return;
      }
      return NO_ERROR;
    }

    /** A successful stop leaves no record that was there before, also when the death notice comes
        before the wait, unless a notice was late. */
    method StopCurrentIme(held: bool, w: World) returns (ret: Ret)
      requires Valid()
      modifies this
      ensures Valid() && Kept(old(Value()), Value(), held) && old(outgoing) <= outgoing
      ensures (runningIme, firstStartNeedRetry) == old((runningIme, firstStartNeedRetry))
      ensures ret == NO_ERROR ==> Gone(realImeData, |old(past).names|) || LateNotice(old(past), past)
      ensures ret == NO_ERROR && held ==> realImeData.None? || LateNotice(old(past), past)
      ensures ret == NO_ERROR || ret == Forced(true, w)
      ensures old(realImeData).None? ==> ret == NO_ERROR && Value() == old(Value())
      ensures Alone(w) ==> StopLeaves(old(Seen()), w, ret, Seen())
    {
      var action := GetImeAction(STOP_IME);
      if action == DO_ACTION_IN_NULL_IME_DATA {
        return NO_ERROR;
      }
      if action == STOP_READY_IME {
        ret := StopReadyCurrentIme(held, w);
        return;
      }
      ret := ForceStopCurrentIme(true, held, w);
    }

    // ----------------------------------------------------------------------- starting

    /** The flag is cleared and the record connected; without a late clear, whatever raises the flag from
        then on has made the record READY. */
    method ClearAndConnect(serial: nat, ime: ImeId, w: World)
      requires Valid() && serial < |past.names|
      modifies this
      ensures Value() == Connected(After(old(Value()), w.beforeClear, true), w.beforeConnect, Connect(serial, ime))
      ensures Valid() && Tracks(old(Value()), Value()) && Settings() == old(Settings())
      ensures past.connections == old(past).connections + [(serial, ime)]
      ensures Earned(old(Value()), Value()) || LateClear(old(past), past)
      ensures Alone(w) ==> realImeData == old(realImeData) && !isImeStarted
    {
      ghost var before := Value();
      Wait(w.beforeClear, true);
      ghost var looked := Value();
      WaitIsTracked(before, before, w.beforeClear);
      ConnectedIsTracked(before, looked, w.beforeConnect, Connect(serial, ime));
      ClearStartedFlag();
      Wait(w.beforeConnect, true);
      ConnectExtensionAbility(serial, ime);
      assert Value() == Connected(looked, w.beforeConnect, Connect(serial, ime));
    }

    /** Success means that the flag rose after it was cleared. */
    method ConnectAndWait(serial: nat, ime: ImeId, isFirstStart: bool, skipWaitAfterTimeout: bool, w: World)
      returns (ret: Ret)
      requires Valid() && serial < |past.names|
      modifies this
      ensures w.connectOk && skipWaitAfterTimeout ==>
        Value() == After(
          Connected(After(old(Value()), w.beforeClear, true), w.beforeConnect, Connect(serial, ime)), w.duringStartWait, true)
      ensures Valid() && Tracks(old(Value()), Value()) && Settings() == old(Settings())
      ensures past.connections == old(past).connections + [(serial, ime)]
      ensures ret == NO_ERROR ==>
        && skipWaitAfterTimeout
        && (LateClear(old(past), past)
           || (old(realImeData).Some? && BecameReady(old(past), past, old(realImeData).value.ime)))
      ensures ret ==
        if !w.connectOk then IME_CONNECT_FAILED
        else if skipWaitAfterTimeout && isImeStarted then NO_ERROR else IME_START_TIMEOUT
      ensures Alone(w) ==> realImeData == (if !w.connectOk && isFirstStart then None else old(realImeData)) && !isImeStarted
    {
      ghost var before := Value();
      ClearAndConnect(serial, ime, w);
      ghost var connected := Value();
      if !w.connectOk {
        if isFirstStart {
          RemoveRealImeData();
          NextKeepsConsistent(connected, Remove);
        }
        return IME_CONNECT_FAILED;
      }
      if !skipWaitAfterTimeout {
        return IME_START_TIMEOUT;
      }
      Wait(w.duringStartWait, true);
      WaitIsTracked(before, connected, w.duringStartWait);
      if !isImeStarted {
        return IME_START_TIMEOUT;
      }
      if Earned(before, connected) {
        FlagIsEarned(before, connected, w.duringStartWait);
      }
      return NO_ERROR;
    }

    /** The screen is unlocked: the IME asked for is the IME started.  A record that is there is used
        as it is, for whichever IME it was made. */
    method StartInputService(ime: ImeId, skipWaitAfterTimeout: bool, w: World) returns (ret: Ret)
      requires Valid()
      modifies this
      ensures Valid() && Extends(old(past), past) && Settings() == old(Settings())
      ensures ret == NO_ERROR ==>
        && skipWaitAfterTimeout
        && (BecameReady(old(past), past, Used(old(realImeData), ime)) || LateClear(old(past), past))
      ensures old(realImeData).None? ==> ConnectsOnlyFresh(old(past), past)
      ensures Fits(old(realImeData), ime) ==> ConnectsOwnIme(old(past), past)
      ensures ret ==
        if old(realImeData).None? && !w.connectionMade then MALLOC_FAILED
        else if !w.connectOk then IME_CONNECT_FAILED
        else if skipWaitAfterTimeout && isImeStarted then NO_ERROR else IME_START_TIMEOUT
      ensures Alone(w) ==> StartLeaves(old(Seen()), ime, w, ret, Seen())
    {
      var ok, isFirstStart := InitRealImeData(ime, w.now, w.connectionMade);
      if !ok {
        return MALLOC_FAILED;
      }
      if isFirstStart {
        CreateKeepsConsistent(old(Value()), ime, w.now);
      }
      ret := ConnectAndWait(realImeData.value.serial, ime, isFirstStart, skipWaitAfterTimeout, w);
    }

    method HandleFirstStart(ime: ImeId, isStopCurrentIme: bool, w: World) returns (ret: Ret)
      requires Valid()
      modifies this
      ensures Valid() && Extends(old(past), past)
      ensures ret == NO_ERROR && !(isStopCurrentIme && old(runningIme) != "") ==>
        BecameReady(old(past), past, Used(old(realImeData), ime)) || LateClear(old(past), past)
      ensures old(realImeData).None? ==> ConnectsOnlyFresh(old(past), past)
      ensures Fits(old(realImeData), ime) ==> ConnectsOwnIme(old(past), past)
      ensures old(runningIme) != "" && isStopCurrentIme ==>
        ret == NO_ERROR && Value() == old(Value()) && Settings() == old(Settings())
      ensures old(runningIme) != "" && !isStopCurrentIme && !w.oldImeGone ==>
        ret == REBOOT_OLD_IME_NOT_STOP && Value() == old(Value()) && Settings() == (old(runningIme), false, old(outgoing))
      ensures old(runningIme) != "" && !isStopCurrentIme && w.oldImeGone ==> Settings() == ("", true, old(outgoing))
      ensures old(runningIme) == "" ==> Settings() == old(Settings())
      ensures (old(runningIme) == "" || (!isStopCurrentIme && w.oldImeGone)) && Alone(w) ==>
        StartLeaves(old(Seen()), ime, w, ret, Seen())
    {
      if runningIme == "" {
        ret := StartInputService(ime, true, w);
        return;
      }
      if isStopCurrentIme {
        return NO_ERROR;
      }
      if firstStartNeedRetry {
        if w.oldImeGone {
          runningIme := "";
          ret := StartInputService(ime, true, w);
          return;
        }
        firstStartNeedRetry := false;
        return REBOOT_OLD_IME_NOT_STOP;
      }
      if w.oldImeGone {
        runningIme := "";
        firstStartNeedRetry := true;
        ret := StartInputService(ime, true, w);
        return;
      }
      return REBOOT_OLD_IME_NOT_STOP;
    }

    /** Common to a start that finds an exiting IME and to one that timed out. */
    method StartAfterForceStop(ime: ImeId, isNeedWait: bool, w: World) returns (ret: Ret)
      requires Valid()
      modifies this
      ensures Valid() && Extends(old(past), past) && ConnectsOwnIme(old(past), past)
      ensures ret == NO_ERROR ==> BecameReady(old(past), past, ime) || LateClear(old(past), past)
      ensures old(realImeData).Some? && Forced(isNeedWait, w) != NO_ERROR ==>
        ret == Forced(isNeedWait, w) && past.connections == old(past).connections
      ensures Alone(w) && old(realImeData).Some? ==> ReplaceLeaves(old(Seen()), ime, isNeedWait, w, ret, Seen())
    {
      ret := ForceStopCurrentIme(isNeedWait, true, w);
      if ret != NO_ERROR {
        return;
      }
      ret := StartInputService(ime, true, w);
    }

    method HandleStartImeTimeout(ime: ImeId, w: World) returns (ret: Ret)
      requires Valid()
      modifies this
      ensures Valid() && Extends(old(past), past)
      ensures ret == NO_ERROR && Fits(old(realImeData), ime) ==>
        BecameReady(old(past), past, ime) || IsReady(ime) || LateClear(old(past), past)
      ensures Fits(old(realImeData), ime) ==> ConnectsOwnIme(old(past), past)
      ensures var looked := After(old(Value()), w.beforeTimeout, true);
        looked.record.Some? && looked.record.value.imeStatus == READY ==>
          LeftAlone(looked, ret, Value()) && outgoing == old(outgoing)
      ensures Alone(w) && old(realImeData).Some? && old(realImeData).value.imeStatus == STARTING ==>
        ReplaceLeaves(WithStatus(old(Seen()), EXITING), ime, false, w, ret, Seen())
    {
      var action := LookAndAct(START_IME_TIMEOUT, w.beforeTimeout);
      if action == DO_ACTION_IN_NULL_IME_DATA {
        ret := StartInputService(ime, true, w);
        return;
      }
      if action == DO_NOTHING {
        return NO_ERROR;
      }
      ret := StartAfterForceStop(ime, false, w);
    }

    /** Other threads act, and then the table is applied. */
    method LookAndAct(e: ImeEvent, steps: seq<Step>) returns (action: ImeAction)
      requires Valid()
      modifies this
      ensures Valid() && Kept(old(Value()), Value(), true) && Settings() == old(Settings())
      ensures var looked := After(old(Value()), steps, true);
        && action == Action(looked.record, e)
        && Seen() == Told(View(looked.record, |looked.past.names|, looked.past.connections, old(outgoing)), e)
        && (isSwitching, past.lateStops) == (looked.isSwitching, looked.past.lateStops)
    {
      Wait(steps, true);
      ghost var looked := Value();
      action := GetImeAction(e);
      KeptTwice(old(Value()), looked, Value());
    }

    /** A start that the table does not end: for no record, a STARTING or an EXITING one. */
    method StartAfterLook(action: ImeAction, startTime: int, ime: ImeId, w: World) returns (ret: Ret)
      requires Valid() && action == Action(realImeData, START_IME) && action != DO_NOTHING
      modifies this
      ensures Valid() && Extends(old(past), past)
      ensures ret == NO_ERROR && Fits(old(realImeData), ime) ==>
        BecameReady(old(past), past, ime) || IsReady(ime) || LateClear(old(past), past)
      ensures Fits(old(realImeData), ime) ==> ConnectsOwnIme(old(past), past)
      ensures action == HANDLE_STARTING_IME && w.now - startTime <= 18000 ==>
        ret == (if w.connectOk then IME_START_TIMEOUT else IME_CONNECT_FAILED) && outgoing == old(outgoing)
      ensures Alone(w) && old(realImeData).Some? && old(realImeData).value.startTime == startTime ==>
        SameImeLeaves(old(Seen()), ime, w, ret, Seen())
    {
      if action == DO_ACTION_IN_NULL_IME_DATA {
        ret := StartInputService(ime, true, w);
        return;
      }
      if action == HANDLE_STARTING_IME {
        if w.now - startTime > START_TIME_OUT {
          ret := HandleStartImeTimeout(ime, w);
          return;
        }
        ret := StartInputService(ime, false, w);
        return;
      }
      ret := StartAfterForceStop(ime, true, w);
    }

    method StartCurrentIme(ime: ImeId, w: World) returns (ret: Ret)
      requires Valid()
      modifies this
      ensures Valid() && Extends(old(past), past)
      ensures ret == NO_ERROR && Fits(old(realImeData), ime) ==>
        BecameReady(old(past), past, ime) || IsReady(ime) || LateClear(old(past), past)
      ensures Fits(old(realImeData), ime) ==> ConnectsOwnIme(old(past), past)
      ensures var looked := After(old(Value()), w.beforeStart, true);
        old(realImeData).Some? && looked.record.Some? && looked.record.value.imeStatus == READY ==>
          LeftAlone(looked, ret, Value()) && outgoing == old(outgoing)
      ensures var looked := After(old(Value()), w.beforeStart, true);
        && old(realImeData).Some? && looked.record.Some? && looked.record.value.imeStatus == STARTING
        && w.now - old(realImeData).value.startTime <= 18000 ==>
          ret == (if w.connectOk then IME_START_TIMEOUT else IME_CONNECT_FAILED) && outgoing == old(outgoing)
      ensures Alone(w) ==> SameImeLeaves(old(Seen()), ime, w, ret, Seen())
    {
      if realImeData.None? {
        ret := StartInputService(ime, true, w);
        return;
      }
      var startTime := realImeData.value.startTime;
      var action := LookAndAct(START_IME, w.beforeStart);
      if action == DO_NOTHING {
        return NO_ERROR;
      }
      ret := StartAfterLook(action, startTime, ime, w);
    }

    /** The record used is a new one, unless a late notice ended the stop too early. */
    method StartNewIme(ime: ImeId, w: World) returns (ret: Ret)
      requires Valid()
      modifies this
      ensures Valid() && Extends(old(past), past)
      ensures ret == NO_ERROR ==>
        BecameReady(old(past), past, ime) || LateClear(old(past), past) || LateNotice(old(past), past)
      ensures ConnectsOnlyFresh(old(past), past) || LateNotice(old(past), past)
      ensures ConnectsOwnIme(old(past), past) || LateNotice(old(past), past)
      ensures Alone(w) ==> NewImeLeaves(old(Seen()), ime, w, ret, Seen())
    {
      ret := StopCurrentIme(true, w);
      if ret != NO_ERROR {
        return;
      }
      ret := StartInputService(ime, true, w);
    }

    /** `lockFree`: no other thread is inside this method for the user. */
    method StartIme(target: Option<ImeId>, isStopCurrentIme: bool, lockFree: bool, w: World) returns (ret: Ret)
      requires Valid()
      modifies this
      ensures Valid() && Extends(old(past), past)
      ensures ret == NO_ERROR ==> target.Some? && lockFree
      ensures ret == NO_ERROR && !(isStopCurrentIme && old(realImeData).None? && old(runningIme) != "") ==>
        || BecameReady(old(past), past, target.value) || IsReady(target.value)
        || LateClear(old(past), past) || LateNotice(old(past), past)
      ensures old(realImeData).Some? && target.Some? && (isStopCurrentIme || old(realImeData).value.ime != target.value) ==>
        ConnectsOnlyFresh(old(past), past) || LateNotice(old(past), past)
      ensures ConnectsOwnIme(old(past), past) || LateNotice(old(past), past)
      ensures !lockFree ==> ret == TRY_IME_START_FAILED && Value() == old(Value()) && Settings() == old(Settings())
      ensures lockFree && target.None? ==>
        ret == IME_TO_START_NULLPTR && Value() == old(Value()) && Settings() == old(Settings())
      ensures var looked := After(After(old(Value()), w.beforeDecision, true), w.beforeStart, true);
        lockFree && old(Has(target)) && !isStopCurrentIme && After(old(Value()), w.beforeDecision, true).record.Some?
        && looked.record.Some? && looked.record.value.imeStatus == READY ==>
          LeftAlone(looked, ret, Value()) && outgoing == old(outgoing)
      ensures lockFree && old(Has(target)) && !isStopCurrentIme && Alone(w) ==>
        SameImeLeaves(old(Seen()), target.value, w, ret, Seen())
      ensures lockFree && target.Some? && old(realImeData).Some? && (isStopCurrentIme || !old(Has(target))) && Alone(w) ==>
        NewImeLeaves(old(Seen()), target.value, w, ret, Seen())
      ensures lockFree && target.Some? && old(realImeData).None? ==>
        if old(runningIme) != "" && isStopCurrentIme then
          ret == NO_ERROR && Value() == old(Value()) && Settings() == old(Settings())
        else if old(runningIme) != "" && !w.oldImeGone then
          ret == REBOOT_OLD_IME_NOT_STOP && Value() == old(Value()) && Settings() == (old(runningIme), false, old(outgoing))
        else Alone(w) ==> StartLeaves(old(Seen()), target.value, w, ret, Seen())
    {
      if !lockFree {
        return TRY_IME_START_FAILED;
      }
      if target.None? {
        return IME_TO_START_NULLPTR;
      }
      var ime := target.value;
      if realImeData.None? {
        ret := HandleFirstStart(ime, isStopCurrentIme, w);
        return;
      }
      var isSameIme := realImeData.value.ime == ime;
      Wait(w.beforeDecision, true);
      if isSameIme && !isStopCurrentIme {
        ret := StartCurrentIme(ime, w);
        return;
      }
      ret := StartNewIme(ime, w);
    }
  }

  // ------------------------------------------------------------------------- whole runs

  /** `held`: no other thread starts an IME meanwhile. */
  datatype Call =
    | Start(target: Option<ImeId>, isStopCurrentIme: bool, lockFree: bool, w: World)
    | Stop(held: bool, w: World)
    | Others(held: bool, steps: seq<Step>)

  predicate StartsInTurn(c: Call) {
    c.Start? || c.held
  }

  lemma OwnImeTwice(before: History, mid: History, h: History)
    requires GoodHistory(mid) && Extends(before, mid) && Extends(mid, h)
    requires ConnectsOwnIme(before, mid) && ConnectsOwnIme(mid, h)
    ensures ConnectsOwnIme(before, h)
  {
    forall i | |before.connections| <= i < |h.connections|
      ensures h.connections[i].0 < |h.names| && h.names[h.connections[i].0] == h.connections[i].1
    {
      if i < |mid.connections| {
        assert h.connections[i] == mid.connections[i];
      }
    }
  }

  method TakeCall(s: RealIme, call: Call)
    requires s.Valid()
    modifies s
    ensures s.Valid() && Extends(old(s.past), s.past)
    ensures StartsInTurn(call) ==> ConnectsOwnIme(old(s.past), s.past) || LateNotice(old(s.past), s.past)
  {
    match call
    case Start(target, isStop, lockFree, w) =>
      var _ := s.StartIme(target, isStop, lockFree, w);
    case Stop(held, w) =>
      var _ := s.StopCurrentIme(held, w);
    case Others(held, steps) =>
      s.Wait(steps, held);
  }

  /** Any sequence of starts, stops and steps of other threads leaves a good history.  As long as all
      starts are calls of the sequence and no notice is late, every IME is connected to its own record. */
  method RunCalls(s: RealIme, calls: seq<Call>)
    requires s.Valid()
    modifies s
    ensures s.Valid() && GoodHistory(s.past) && Extends(old(s.past), s.past)
    ensures (forall i :: 0 <= i < |calls| ==> StartsInTurn(calls[i])) ==>
      ConnectsOwnIme(old(s.past), s.past) || LateNotice(old(s.past), s.past)
  {
    var i := 0;
    while i < |calls|
      invariant 0 <= i <= |calls| && s.Valid() && Extends(old(s.past), s.past)
      invariant (forall j :: 0 <= j < i ==> StartsInTurn(calls[j])) ==>
        ConnectsOwnIme(old(s.past), s.past) || LateNotice(old(s.past), s.past)
    {
      ghost var mid := s.past;
      TakeCall(s, calls[i]);
      if ConnectsOwnIme(old(s.past), mid) && ConnectsOwnIme(mid, s.past) {
        OwnImeTwice(old(s.past), mid, s.past);
      }
      i := i + 1;
    }
  }
}
