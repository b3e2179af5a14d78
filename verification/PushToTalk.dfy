/** Push-to-talk: holding the space key alone starts voice input.

    A controller turns key events and the long-press time-out into actions; a manager applies them,
    owning the bound user, a snapshot of the focused client and the timer.  All of it runs on one
    serial task queue, so a run is a sequence of tasks.  What the account, session and settings
    services answer is part of each task. */
module PushToTalk {
  import opened Options

  const KEYCODE_SPACE := 2050
  const INVALID_USER_ID := -1

  datatype KeyAction = DOWN | UP | OTHER_ACTION

  datatype KeyEvent = KeyEvent(keyCode: int, keyAction: KeyAction, pressedKeys: seq<int>)

  datatype PttState = IDLE | PENDING | ACTIVE | SUPPRESSED

  datatype PttAction = NONE | START_TIMER | CANCEL_TIMER | START_VOICE | STOP_VOICE

  datatype Snapshot = Snapshot(
    client: nat, channel: nat, clientGroupId: nat, editorWindowId: nat, editorDisplayId: nat,
    isSecurityIme: bool, isOneTimeCode: bool)

  /** The focused client bound to a real IME, if any, and whether the user enabled the gesture. */
  datatype Focus = Focus(client: Option<Snapshot>, enabled: bool)

  /** Answers needed when a long press begins. */
  datatype PressEnv = PressEnv(foregroundUser: Option<int>, focus: Focus, delayMs: nat, posted: bool)

  /** Answers needed when the long press times out. */
  datatype VoiceEnv = VoiceEnv(foreground: bool, focus: Focus, blocked: bool, started: bool)

  /** Whether the user still has a session, when the stop is sent and when the IME is restored. */
  datatype StopEnv = StopEnv(sessionAtStop: bool, sessionAtRestore: bool)

  datatype Timer = Timer(userId: int, due: int)

  /** Effects on the input method: voice input started, or ended, with what could still be sent. */
  datatype Voice = Started(userId: int) | Stopped(userId: int, stopSent: bool, restoreSent: bool)

  datatype Manager = Manager(
    state: PttState, gestureUserId: int, snapshot: Option<Snapshot>, timer: Option<Timer>, voices: seq<Voice>)

  const INITIAL := Manager(IDLE, INVALID_USER_ID, None, None, [])

  // ------------------------------------------------------------------ controller

  predicate IsSpace(e: KeyEvent) { e.keyCode == KEYCODE_SPACE }

  predicate Alone(e: KeyEvent) {
    forall i :: 0 <= i < |e.pressedKeys| ==> e.pressedKeys[i] == KEYCODE_SPACE
  }

  function OnKey(s: PttState, e: KeyEvent): (PttState, PttAction) {
    if IsSpace(e) then
      match e.keyAction
      case DOWN => if s != IDLE then (s, NONE) else if Alone(e) then (PENDING, START_TIMER) else (SUPPRESSED, NONE)
      case UP => (IDLE, if s == PENDING then CANCEL_TIMER else if s == ACTIVE then STOP_VOICE else NONE)
      case OTHER_ACTION => (s, NONE)
    else if e.keyAction == OTHER_ACTION then (s, NONE)
    else if s == PENDING then (SUPPRESSED, CANCEL_TIMER)
    else if s == ACTIVE then (SUPPRESSED, STOP_VOICE)
    else (s, NONE)
  }

  // --------------------------------------------------------------------- manager

  function Eligible(f: Focus): Option<Snapshot> {
    if f.client.Some? && !f.client.value.isSecurityIme && !f.client.value.isOneTimeCode && f.enabled
    then f.client else None
  }

  predicate SameInputClient(a: Snapshot, b: Snapshot) {
    && a.client == b.client && a.channel == b.channel && a.clientGroupId == b.clientGroupId
    && a.editorWindowId == b.editorWindowId && a.editorDisplayId == b.editorDisplayId
  }

  function Cleared(m: Manager): Manager {
    m.(gestureUserId := INVALID_USER_ID, snapshot := None)
  }

  /** A gesture that failed waits for the space key to come up. */
  function Fail(m: Manager): Manager {
    Cleared(m.(state := if m.state == IDLE then IDLE else SUPPRESSED))
  }

  function StartTimer(m: Manager, now: int, env: PressEnv): Manager {
    var user := env.foregroundUser;
    var client := Eligible(env.focus);
    if user.None? || user.value == INVALID_USER_ID || client.None? || env.delayMs == 0 then Fail(m)
    else if !env.posted then Fail(m.(timer := None))
    else m.(gestureUserId := user.value, snapshot := client, timer := Some(Timer(user.value, now + env.delayMs)))
  }

  function StartVoice(m: Manager, env: VoiceEnv): Manager {
    var client := Eligible(env.focus);
    if m.gestureUserId == INVALID_USER_ID || !env.foreground then Fail(m)
    else if m.snapshot.None? || client.None? || !SameInputClient(m.snapshot.value, client.value) then Fail(m)
    else if !env.blocked || !env.started then Fail(m)
    else m.(voices := m.voices + [Started(m.gestureUserId)])
  }

  function StopVoice(m: Manager, env: StopEnv): Manager {
    if m.gestureUserId == INVALID_USER_ID then Cleared(m) else
    Cleared(m.(voices := m.voices + [Stopped(m.gestureUserId, env.sessionAtStop, env.sessionAtRestore)]))
  }

  /** One task of the queue, run at time `now`. */
  datatype Task =
    | KeyTask(now: int, event: KeyEvent, press: PressEnv, stop: StopEnv)
    | TimeoutTask(now: int, voice: VoiceEnv)

  predicate Enabled(m: Manager, t: Task) {
    t.TimeoutTask? ==> m.timer.Some? && m.timer.value.due <= t.now
  }

  function Next(m: Manager, t: Task): Manager
    requires Enabled(m, t)
  {
    match t
    case KeyTask(now, e, press, stop) =>
      var (s, action) := OnKey(m.state, e);
      var m1 := m.(state := s);
      match action {
        case START_TIMER => StartTimer(m1, now, press)
        case CANCEL_TIMER => Cleared(m1.(timer := None))
        case STOP_VOICE => StopVoice(m1, stop)
        case _ => if s == IDLE then Cleared(m1) else m1
      }
    case TimeoutTask(now, voice) =>
      var fired := m.timer.value;
      var m1 := m.(timer := None);
      if fired.userId != m.gestureUserId then m1
      else if m.state == PENDING then StartVoice(m1.(state := ACTIVE), voice)
      else if m.state == IDLE then Cleared(m1)
      else m1
  }

  // ----------------------------------------------------------------- invariants

  /** User and client are bound exactly during a gesture, the timer exactly while it is pending. */
  ghost predicate Bound(m: Manager) {
    && (m.state == PENDING || m.state == ACTIVE <==> m.gestureUserId != INVALID_USER_ID)
    && (m.state == PENDING || m.state == ACTIVE <==> m.snapshot.Some?)
    && (m.state == PENDING <==> m.timer.Some?)
    && (m.timer.Some? ==> m.timer.value.userId == m.gestureUserId)
  }

  /** Starts and stops alternate and each stop is for the user of the start before it. */
  ghost predicate Paired(v: seq<Voice>) {
    && (forall i :: 0 <= i < |v| ==> (v[i].Started? <==> i % 2 == 0))
    && (forall i {:trigger v[i]} :: 0 < i < |v| && v[i].Stopped? ==> v[i].userId == v[i - 1].userId)
  }

  /** A start that no stop followed. */
  predicate Speaking(v: seq<Voice>) {
    v != [] && v[|v| - 1].Started?
  }

  ghost predicate Inv(m: Manager) {
    && Bound(m)
    && Paired(m.voices)
    && (m.state == ACTIVE <==> Speaking(m.voices))
    && (m.state == ACTIVE ==> m.voices[|m.voices| - 1].userId == m.gestureUserId)
  }

  lemma NextKeepsInv(m: Manager, t: Task)
    requires Inv(m) && Enabled(m, t)
    ensures Inv(Next(m, t))
  {
    var n := Next(m, t);
    if |n.voices| > |m.voices| {
      assert n.voices == m.voices + [n.voices[|m.voices|]];
      PairedExtends(m.voices, n.voices[|m.voices|]);
    }
  }

  lemma PairedExtends(v: seq<Voice>, x: Voice)
    requires Paired(v)
    requires if x.Started? then !Speaking(v) else Speaking(v) && v[|v| - 1].userId == x.userId
    ensures Paired(v + [x])
  {
    var w := v + [x];
    forall i | 0 <= i < |w|
      ensures w[i].Started? <==> i % 2 == 0
    {
      if i == |v| {
        LastParity(v);
      }
    }
    forall i | 0 < i < |w| && w[i].Stopped?
      ensures w[i].userId == w[i - 1].userId
    {
      if i < |v| {
        assert v[i].userId == v[i - 1].userId;
      }
    }
  }

  lemma LastParity(v: seq<Voice>)
    requires Paired(v)
    ensures Speaking(v) <==> |v| % 2 == 1
  {
  }

  // -------------------------------------------------------------------- whole runs

  ghost predicate Run(ms: seq<Manager>, ts: seq<Task>) {
    && |ms| == |ts| + 1 && ms[0] == INITIAL
    && forall i :: 0 <= i < |ts| ==> Enabled(ms[i], ts[i]) && ms[i + 1] == Next(ms[i], ts[i])
  }

  lemma {:induction false} RunKeepsInv(ms: seq<Manager>, ts: seq<Task>, n: nat)
    requires Run(ms, ts) && n < |ms|
    ensures Inv(ms[n])
  {
    if n == 0 {
    } else {
      RunKeepsInv(ms, ts, n - 1);
      NextKeepsInv(ms[n - 1], ts[n - 1]);
    }
  }

  /** An event that may come while the space key stays down alone. */
  predicate Harmless(t: Task) {
    t.KeyTask? && (if IsSpace(t.event) then t.event.keyAction != UP else t.event.keyAction == OTHER_ACTION)
  }

  /** The press that began the gesture pending at `n`. */
  ghost predicate PressedAt(ms: seq<Manager>, ts: seq<Task>, i: nat, n: nat)
    requires |ms| == |ts| + 1 && n < |ms|
  {
    && i < n && ts[i].KeyTask? && IsSpace(ts[i].event) && ts[i].event.keyAction == DOWN && Alone(ts[i].event)
    && ts[i].press.delayMs > 0 && ts[i].press.foregroundUser == Some(ms[n].gestureUserId)
    && ms[n].snapshot == Eligible(ts[i].press.focus)
    && ms[n].timer == Some(Timer(ms[n].gestureUserId, ts[i].now + ts[i].press.delayMs))
    && forall j :: i < j < n ==> Harmless(ts[j])
  }

  /** A gesture is pending because it was before and nothing disturbed it, or because it begins. */
  lemma PendingStep(m: Manager, t: Task)
    requires Inv(m) && Enabled(m, t) && Next(m, t).state == PENDING
    ensures var n := Next(m, t);
      if m.state == PENDING then
        Harmless(t) && n.gestureUserId == m.gestureUserId && n.snapshot == m.snapshot && n.timer == m.timer
      else
        && t.KeyTask? && IsSpace(t.event) && t.event.keyAction == DOWN && Alone(t.event)
        && t.press.delayMs > 0 && t.press.foregroundUser == Some(n.gestureUserId)
        && n.snapshot == Eligible(t.press.focus)
        && n.timer == Some(Timer(n.gestureUserId, t.now + t.press.delayMs))
  {
  }

  lemma {:induction false} PendingWasPressed(ms: seq<Manager>, ts: seq<Task>, n: nat) returns (i: nat)
    requires Run(ms, ts) && n < |ms| && ms[n].state == PENDING
    ensures PressedAt(ms, ts, i, n)
  {
    RunKeepsInv(ms, ts, n - 1);
    PendingStep(ms[n - 1], ts[n - 1]);
    if ms[n - 1].state == PENDING {
      i := PendingWasPressed(ms, ts, n - 1);
      assert forall j :: i < j < n ==> j == n - 1 || Harmless(ts[j]);
    } else {
      i := n - 1;
    }
  }

  // ------------------------------------------------------- what every task does exactly

  /** The focused client bound to a real IME, outside security and one-time-code input, with the gesture
      enabled. */
  predicate Usable(f: Focus) {
    f.client.Some? && !f.client.value.isSecurityIme && !f.client.value.isOneTimeCode && f.enabled
  }

  predicate SpaceGoes(t: Task, action: KeyAction) {
    t.KeyTask? && t.event.keyCode == KEYCODE_SPACE && t.event.keyAction == action
  }

  /** Space goes down alone, for a user with a usable client, and the timer can be set. */
  predicate Presses(t: Task) {
    && SpaceGoes(t, DOWN) && (forall k :: k in t.event.pressedKeys ==> k == KEYCODE_SPACE)
    && t.press.foregroundUser.Some? && t.press.foregroundUser.value != INVALID_USER_ID && Usable(t.press.focus)
    && t.press.delayMs > 0 && t.press.posted
  }

  /** The time-out of a pending gesture finds the same client, and voice input could be started. */
  predicate StartsVoice(m: Manager, t: Task) {
    && t.TimeoutTask? && m.state == PENDING && t.voice.foreground && t.voice.blocked && t.voice.started
    && Usable(t.voice.focus) && m.snapshot.Some?
    && var a, b := m.snapshot.value, t.voice.focus.client.value;
    (a.client, a.channel, a.clientGroupId, a.editorWindowId, a.editorDisplayId) ==
    (b.client, b.channel, b.clientGroupId, b.editorWindowId, b.editorDisplayId)
  }

  /** Space comes up, or another key goes down or up. */
  predicate EndsVoice(t: Task) {
    t.KeyTask? && if t.event.keyCode == KEYCODE_SPACE then t.event.keyAction == UP else t.event.keyAction != OTHER_ACTION
  }

  lemma AloneIff(e: KeyEvent)
    ensures Alone(e) <==> forall k :: k in e.pressedKeys ==> k == KEYCODE_SPACE
  {
    if Alone(e) {
      forall k | k in e.pressedKeys
        ensures k == KEYCODE_SPACE
      {
        var i :| 0 <= i < |e.pressedKeys| && e.pressedKeys[i] == k;
      }
    } else {
      var i :| 0 <= i < |e.pressedKeys| && e.pressedKeys[i] != KEYCODE_SPACE;
      assert e.pressedKeys[i] in e.pressedKeys;
    }
  }

  lemma PendingIff(m: Manager, t: Task)
    requires Inv(m) && Enabled(m, t)
    ensures Next(m, t).state == PENDING <==>
      if m.state == PENDING then t.KeyTask? && !EndsVoice(t) else m.state == IDLE && Presses(t)
  {
    if t.KeyTask? {
      AloneIff(t.event);
    }
  }

  lemma ActiveIff(m: Manager, t: Task)
    requires Inv(m) && Enabled(m, t)
    ensures Next(m, t).state == ACTIVE <==> (m.state == ACTIVE && !EndsVoice(t)) || StartsVoice(m, t)
  {
  }

  lemma IdleIff(m: Manager, t: Task)
    requires Inv(m) && Enabled(m, t)
    ensures Next(m, t).state == IDLE <==> SpaceGoes(t, UP) || (m.state == IDLE && !SpaceGoes(t, DOWN))
  {
  }

  /** Voice input starts at a time-out as above, and ends at the first key as above, for the user of the
      gesture; nothing else is done. */
  lemma VoicesIff(m: Manager, t: Task)
    requires Inv(m) && Enabled(m, t)
    ensures Next(m, t).voices ==
      if StartsVoice(m, t) then m.voices + [Started(m.gestureUserId)]
      else if m.state == ACTIVE && EndsVoice(t) then
        m.voices + [Stopped(m.gestureUserId, t.stop.sessionAtStop, t.stop.sessionAtRestore)]
      else m.voices
  {
  }

  /** A started voice goes on exactly until the first such key. */
  lemma {:induction false} VoiceLastsUntilKey(ms: seq<Manager>, ts: seq<Task>, n: nat, k: nat)
    requires Run(ms, ts) && n < k < |ms| && StartsVoice(ms[n], ts[n])
    ensures |ms[k].voices| == |ms[n].voices| + 1 <==> NoEnd(ts, n + 1, k)
    ensures |ms[k].voices| >= |ms[n].voices| + 1
    ensures NoEnd(ts, n + 1, k) ==> ms[k].state == ACTIVE
  {
    RunKeepsInv(ms, ts, k - 1);
    ActiveIff(ms[k - 1], ts[k - 1]);
    VoicesIff(ms[k - 1], ts[k - 1]);
    if k == n + 1 {
    } else {
      VoiceLastsUntilKey(ms, ts, n, k - 1);
      NoEndStep(ts, n + 1, k);
    }
  }

  ghost predicate NoEnd(ts: seq<Task>, i: nat, n: nat) {
    i <= n <= |ts| && forall j :: i <= j < n ==> !EndsVoice(ts[j])
  }

  lemma NoEndStep(ts: seq<Task>, i: nat, n: nat)
    requires i < n <= |ts|
    ensures NoEnd(ts, i, n) <==> NoEnd(ts, i, n - 1) && !EndsVoice(ts[n - 1])
  {
    if NoEnd(ts, i, n - 1) && !EndsVoice(ts[n - 1]) {
      assert forall j :: i <= j < n ==> j == n - 1 || !EndsVoice(ts[j]);
    }
  }

  /** Space held alone from `i` on: only key tasks, none of which ends a voice. */
  ghost predicate Held(ts: seq<Task>, i: nat, n: nat) {
    NoEnd(ts, i, n) && forall j :: i <= j < n ==> ts[j].KeyTask?
  }

  lemma {:induction false} HeldStaysPending(ms: seq<Manager>, ts: seq<Task>, i: nat, n: nat)
    requires Run(ms, ts) && i < n < |ms| && ms[i].state == IDLE && Presses(ts[i]) && Held(ts, i + 1, n)
    ensures ms[n].state == PENDING && ms[n].snapshot == ts[i].press.focus.client
    ensures ms[n].gestureUserId == ts[i].press.foregroundUser.value
    ensures ms[n].timer == Some(Timer(ts[i].press.foregroundUser.value, ts[i].now + ts[i].press.delayMs))
  {
    if n == i + 1 {
    } else {
      HeldStaysPending(ms, ts, i, n - 1);
    }
    RunKeepsInv(ms, ts, n - 1);
    PendingIff(ms[n - 1], ts[n - 1]);
    PendingStep(ms[n - 1], ts[n - 1]);
  }

  /** And voice does start: space pressed alone from idle, nothing but harmless keys, and a time-out that
      finds the same client. */
  lemma HoldStartsVoice(ms: seq<Manager>, ts: seq<Task>, i: nat, n: nat)
    requires Run(ms, ts) && i < n < |ts| && ms[i].state == IDLE && Presses(ts[i]) && Held(ts, i + 1, n)
    requires ts[n].TimeoutTask? && ts[n].voice.foreground && ts[n].voice.blocked && ts[n].voice.started
    requires Usable(ts[n].voice.focus) && SameInputClient(ts[i].press.focus.client.value, ts[n].voice.focus.client.value)
    ensures ms[n + 1].voices == ms[n].voices + [Started(ts[i].press.foregroundUser.value)]
  {
    HeldStaysPending(ms, ts, i, n);
    RunKeepsInv(ms, ts, n);
    VoicesIff(ms[n], ts[n]);
  }

  /** Voice starts only after space was held alone for the whole configured delay, with the same
      focused client at both ends and the user of the press. */
  lemma VoiceNeedsFullHold(ms: seq<Manager>, ts: seq<Task>, n: nat) returns (i: nat)
    requires Run(ms, ts) && n < |ts|
    requires |ms[n + 1].voices| > |ms[n].voices| && ms[n + 1].voices[|ms[n].voices|].Started?
    ensures i < n && ts[n].TimeoutTask? && ts[i].KeyTask?
    ensures IsSpace(ts[i].event) && ts[i].event.keyAction == DOWN && Alone(ts[i].event)
    ensures ts[i].press.delayMs > 0 && ts[n].now - ts[i].now >= ts[i].press.delayMs
    ensures forall j :: i < j < n ==> Harmless(ts[j])
    ensures var a, b := Eligible(ts[i].press.focus), Eligible(ts[n].voice.focus);
      a.Some? && b.Some? && SameInputClient(a.value, b.value)
    ensures ts[i].press.foregroundUser == Some(ms[n + 1].voices[|ms[n].voices|].userId) && ts[n].voice.foreground
    ensures Usable(ts[i].press.focus) && Usable(ts[n].voice.focus)
  {
    RunKeepsInv(ms, ts, n);
    i := PendingWasPressed(ms, ts, n);
  }

  /** Between tasks: bound and timed exactly as the state says, each start stopped at most once and
      for its own user, and ACTIVE exactly while a start is not stopped. */
  lemma EveryRunIsOrderly(ms: seq<Manager>, ts: seq<Task>)
    requires Run(ms, ts)
    ensures forall n :: 0 <= n < |ms| ==>
      Bound(ms[n]) && Paired(ms[n].voices) && (ms[n].state == ACTIVE <==> Speaking(ms[n].voices))
  {
    forall n | 0 <= n < |ms|
      ensures Bound(ms[n]) && Paired(ms[n].voices) && (ms[n].state == ACTIVE <==> Speaking(ms[n].voices))
    {
      RunKeepsInv(ms, ts, n);
    }
  }

  // ------------------------------------------------------------------ running code

  class PttController {
    var state: PttState

    constructor ()
      ensures state == IDLE
    {
      state := IDLE;
    }

    method HasOtherPressedKey(e: KeyEvent) returns (r: bool)
      ensures r == !Alone(e)
    {
      for i := 0 to |e.pressedKeys|
        invariant forall j :: 0 <= j < i ==> e.pressedKeys[j] == KEYCODE_SPACE
      {
        if e.pressedKeys[i] != KEYCODE_SPACE {
          return true;
        }
      }
      return false;
    }

    method HandleKeyEvent(e: KeyEvent) returns (action: PttAction)
      modifies this
      ensures (state, action) == OnKey(old(state), e)
    {
      var isKeyAction := e.keyAction == DOWN || e.keyAction == UP;
      var isSpace := e.keyCode == KEYCODE_SPACE;
      if !isSpace && (!isKeyAction || (state != PENDING && state != ACTIVE)) {
        return NONE;
      }
      if !isSpace {
        action := HandleOtherKeyLocked();
      } else if e.keyAction == DOWN {
        action := HandleSpaceDownLocked(e);
      } else if e.keyAction == UP {
        action := HandleSpaceUpLocked();
      } else {
        action := NONE;
      }
    }

    method HandleSpaceDownLocked(e: KeyEvent) returns (action: PttAction)
      modifies this
      ensures old(state) != IDLE ==> state == old(state) && action == NONE
      ensures old(state) == IDLE ==> (state, action) == if Alone(e) then (PENDING, START_TIMER) else (SUPPRESSED, NONE)
    {
      if state != IDLE {
        return NONE;
      }
      var other := HasOtherPressedKey(e);
      if other {
        state := SUPPRESSED;
        return NONE;
      }
      state := PENDING;
      return START_TIMER;
    }

    method HandleSpaceUpLocked() returns (action: PttAction)
      modifies this
      ensures state == IDLE
      ensures action == if old(state) == PENDING then CANCEL_TIMER else if old(state) == ACTIVE then STOP_VOICE else NONE
    {
      action := NONE;
      if state == PENDING {
        action := CANCEL_TIMER;
      } else if state == ACTIVE {
        action := STOP_VOICE;
      }
      state := IDLE;
    }

    method HandleOtherKeyLocked() returns (action: PttAction)
      modifies this
      ensures old(state) == PENDING ==> state == SUPPRESSED && action == CANCEL_TIMER
      ensures old(state) == ACTIVE ==> state == SUPPRESSED && action == STOP_VOICE
      ensures old(state) == IDLE || old(state) == SUPPRESSED ==> state == old(state) && action == NONE
    {
      if state == PENDING {
        state := SUPPRESSED;
        return CANCEL_TIMER;
      }
      if state == ACTIVE {
        state := SUPPRESSED;
        return STOP_VOICE;
      }
      return NONE;
    }

    method HandleTimeout() returns (action: PttAction)
      modifies this
      ensures state == if old(state) == PENDING then ACTIVE else old(state)
      ensures action == if old(state) == PENDING then START_VOICE else NONE
    {
      if state != PENDING {
        return NONE;
      }
      state := ACTIVE;
      return START_VOICE;
    }

    method SuppressUntilSpaceUp()
      modifies this
      ensures state == if old(state) == IDLE then IDLE else SUPPRESSED
    {
      if state != IDLE {
        state := SUPPRESSED;
      }
    }
  }

  class PushToTalkManager {
    const controller: PttController
    var gestureUserId: int
    var gestureClientSnapshot: Option<Snapshot>
    var timer: Option<Timer>
    ghost var voices: seq<Voice>

    ghost function Value(): Manager
      reads this, controller
    {
      Manager(controller.state, gestureUserId, gestureClientSnapshot, timer, voices)
    }

    constructor ()
      ensures Value() == INITIAL && fresh(controller)
    {
      controller := new PttController();
      gestureUserId, gestureClientSnapshot, timer, voices := INVALID_USER_ID, None, None, [];
    }

    method ClearGestureContext()
      modifies this
      ensures Value() == Cleared(old(Value()))
    {
      gestureUserId := INVALID_USER_ID;
      gestureClientSnapshot := None;
    }

    method CancelGesture()
      modifies this, controller
      ensures Value() == Fail(old(Value()))
    {
      controller.SuppressUntilSpaceUp();
      ClearGestureContext();
    }

    method HandleStartTimer(now: int, env: PressEnv)
      modifies this, controller
      ensures Value() == StartTimer(old(Value()), now, env)
    {
      if env.foregroundUser.None? || env.foregroundUser.value == INVALID_USER_ID {
        CancelGesture();
        return;
      }
      gestureClientSnapshot := Eligible(env.focus);
      if gestureClientSnapshot.None? {
        CancelGesture();
        return;
      }
      gestureUserId := env.foregroundUser.value;
      if env.delayMs == 0 {
        CancelGesture();
        return;
      }
      timer := None;
      if !env.posted {
        CancelGesture();
        return;
      }
      timer := Some(Timer(gestureUserId, now + env.delayMs));
    }

    method HandleStartVoice(env: VoiceEnv)
      modifies this, controller
      ensures Value() == StartVoice(old(Value()), env)
    {
      if gestureUserId == INVALID_USER_ID || !env.foreground {
        CancelGesture();
        return;
      }
      var current := Eligible(env.focus);
      if gestureClientSnapshot.None? || current.None? || !SameInputClient(gestureClientSnapshot.value, current.value) {
        CancelGesture();
        return;
      }
      if !env.blocked {
        CancelGesture();
        return;
      }
      if !env.started {
        CancelGesture();
        return;
      }
      voices := voices + [Started(gestureUserId)];
    }

    method HandleStopVoice(env: StopEnv)
      modifies this
      ensures Value() == StopVoice(old(Value()), env)
    {
      if gestureUserId == INVALID_USER_ID {
        ClearGestureContext();
        return;
      }
      voices := voices + [Stopped(gestureUserId, env.sessionAtStop, env.sessionAtRestore)];
      ClearGestureContext();
    }

    method KeyEventTask(now: int, e: KeyEvent, press: PressEnv, stop: StopEnv)
      modifies this, controller
      ensures Value() == Next(old(Value()), KeyTask(now, e, press, stop))
    {
      var action := controller.HandleKeyEvent(e);
      match action {
        case START_TIMER =>
          HandleStartTimer(now, press);
        case CANCEL_TIMER =>
          timer := None;
          ClearGestureContext();
        case STOP_VOICE =>
          HandleStopVoice(stop);
        case _ =>
          if controller.state == IDLE {
            ClearGestureContext();
          }
      }
    }

    method LongPressTimeoutTask(now: int, env: VoiceEnv)
      requires timer.Some? && timer.value.due <= now
      modifies this, controller
      ensures Value() == Next(old(Value()), TimeoutTask(now, env))
      ensures old(timer).value.userId != old(gestureUserId) ==> Value() == old(Value()).(timer := None)
    {
      var user := timer.value.userId;
      timer := None;
      if user != gestureUserId {
        return;
      }
      var action := controller.HandleTimeout();
      if action == START_VOICE {
        HandleStartVoice(env);
      } else if controller.state == IDLE {
        ClearGestureContext();
      }
    }
  }
}
