/** What every step of the session does to every client: who leaves, who joins, and what becomes of the
    records and the pointers.  The effects are said here client by client, apart from the functions
    on groups that compute them. */
module SessionChanges {
  import opened Options
  import opened ClientBinding
  import opened ClientBindingProofs

  // ------------------------------------------------------------------- who leaves

  /** Clients of other groups that hold the IME, or a real one; in the group those that the pointers
      name, if the client that is bound is registered. */
  ghost predicate BindDrops(s: State, c: Client, groupId: nat, ime: BindImeData, g: nat, d: Client) {
    && groupId in s && ime.kind != ImeMirror
    && (if g != groupId then BoundToPid(s, g, d, ime.pid) || (ime.kind == RealIme && BoundToReal(s, g, d))
        else d != c && Registered(s, g, c) && (s[g].current == Some(d) || s[g].inactive == Some(d)))
  }

  /** The current client makes way for another one that is about to use another kind of IME, or another
      proxy. */
  predicate MakesWay(s: State, c: Client, ime: BindImeData, g: nat, d: Client) {
    && Registered(s, g, d) && s[g].current == Some(d) && d != c
    && ime.kind != ImeMirror && !BindsPid(s[g], d, ime.pid)
    && (ime.kind == ProxyIme || (s[g].clients[d].bound.Some? && s[g].clients[d].bound.value.kind != RealIme))
  }

  ghost predicate Leaves(s: State, step: Step, g: nat, d: Client)
    requires Enabled(s, step)
  {
    match step
    case PrepareInput(r, _, found) => found == Some((g, d)) && g != r.groupId
    case StartInput(r, ime, accepted) =>
      || (g == r.groupId && MakesWay(s, r.client, ime, g, d))
      || (accepted && BindDrops(s, r.client, r.groupId, ime, g, d))
    case ReleaseInput(h, c) => (g, d) == (h, c)
    case ClientDied(h, c) => (g, d) == (h, c)
    case Focused(h, curFocused, sceneBoard) => g == h && g in s && s[g].current == Some(d) && !curFocused && !sceneBoard
    case Unfocused(h, _, curUnfocused, found) =>
      g == h && g in s && s[g].current.Some? && !curUnfocused && found == Some(d)
    case HideRequested(h, caller) =>
      && g == h && Registered(s, g, d)
      && (s[g].inactive == Some(d)
         || (s[g].current == Some(d) && caller != "" && caller != s[g].clients[d].config.bundleName))
    case KeyboardShown(_, _, _) => false
    case SceneBoardStopped => g in s && s[g].current == Some(d)
    case ImeReady(ime, needBind, accepted) =>
      var h := FindCurrentBoundReal(s);
      needBind && accepted && h.Some? && BindDrops(s, s[h.value].current.value, h.value, ime, g, d)
    case ProxyChanged(h, ime, accepted) =>
      accepted && h in s && s[h].current.Some? && BindDrops(s, s[h].current.value, h, ime, g, d)
    case LateBind(c, h, _, ime, accepted) => accepted && BindDrops(s, c, h, ime, g, d)
  }

  /** Only attaching registers, and a new client needs its death recipient. */
  predicate Joins(step: Step, g: nat, d: Client) {
    step.PrepareInput? && g == step.request.groupId && d == step.request.client && step.added
  }

  // ----------------------------------------------------------- what becomes of a record

  datatype Placing = Placing(g: nat, c: Client, shown: bool, ime: BindImeData)

  /** The one client that a step binds, if it does, and the flag that it is shown with. */
  ghost function PlacingOf(s: State, step: Step): Option<Placing>
    requires Enabled(s, step)
  {
    match step
    case StartInput(r, ime, accepted) =>
      if accepted then Valid(s, Placing(r.groupId, r.client, r.isShowKeyboard, ime)) else None
    case ImeReady(ime, needBind, accepted) =>
      var g := FindCurrentBoundReal(s);
      if needBind && accepted && g.Some? then OfCurrent(s, g.value, ime) else None
    case ProxyChanged(g, ime, accepted) => if accepted then OfCurrent(s, g, ime) else None
    case LateBind(c, g, shown, ime, accepted) => if accepted then Valid(s, Placing(g, c, shown, ime)) else None
    case _ => None
  }

  /** Only registered clients are bound, and binding to a mirror is not recorded. */
  function Valid(s: State, p: Placing): Option<Placing> {
    if Registered(s, p.g, p.c) && p.ime.kind != ImeMirror then Some(p) else None
  }

  function OfCurrent(s: State, g: nat, ime: BindImeData): Option<Placing> {
    if g in s && s[g].current.Some? && s[g].current.value in s[g].clients
    then Valid(s, Placing(g, s[g].current.value, s[g].clients[s[g].current.value].isShowKeyboard, ime)) else None
  }

  ghost predicate Places(s: State, step: Step, g: nat, d: Client)
    requires Enabled(s, step)
  {
    var p := PlacingOf(s, step);
    p.Some? && p.value.g == g && p.value.c == d
  }

  predicate Refreshed(step: Step, g: nat, d: Client) {
    step.PrepareInput? && g == step.request.groupId && d == step.request.client
  }

  predicate Deactivated(s: State, step: Step, g: nat, d: Client) {
    step.Focused? && g == step.g && g in s && s[g].current == Some(d) && !step.curFocused && step.sceneBoard
  }

  predicate Hidden(s: State, step: Step, g: nat, d: Client) {
    || (step.HideRequested? && g == step.g && g in s && s[g].current == Some(d))
    || (step.KeyboardShown? && (g, d) == (step.g, step.c) && !step.shown)
  }

  predicate Shown(step: Step, g: nat, d: Client) {
    step.KeyboardShown? && (g, d) == (step.g, step.c) && step.shown
  }

  /** The reason is forgotten, or comes with a new configuration. */
  ghost predicate Forgotten(s: State, step: Step, g: nat, d: Client)
    requires Enabled(s, step)
  {
    step.ImeReady? && step.needBind && FindCurrentBoundReal(s) == Some(g) && g in s && s[g].current == Some(d)
  }

  /** Field by field: only binding a client changes whom it is bound to. */
  ghost predicate RecordFits(s: State, step: Step, g: nat, d: Client, a: ClientInfo, b: ClientInfo)
    requires Enabled(s, step)
  {
    && b.client == a.client
    && (if Refreshed(step, g, d)
        then (b.hostPid, b.groupId, b.clientType, b.tokenId, b.config) ==
          (step.request.hostPid, g, step.request.clientType, step.request.tokenId, step.request.config)
        else (b.hostPid, b.groupId, b.clientType, b.tokenId) == (a.hostPid, a.groupId, a.clientType, a.tokenId))
    && (!Refreshed(step, g, d) ==>
         b.config == if Forgotten(s, step, g, d) then a.config.(reason := NONE) else a.config)
    && (if Places(s, step, g, d) then
          var p := PlacingOf(s, step).value;
          b.bound == Some(p.ime) && b.state == Active && b.isShowKeyboard == p.shown
        else
          && b.bound == a.bound
          && b.state == (if Deactivated(s, step, g, d) then Inactive else a.state)
          && b.isShowKeyboard ==
             if Hidden(s, step, g, d) then false else if Shown(step, g, d) then true else a.isShowKeyboard)
  }

  /** A new client is inactive and bound to nothing. */
  predicate NewFits(step: Step, b: ClientInfo) {
    step.PrepareInput? && b.bound.None? && b.state == Inactive && b.client == step.request.client
    && b.groupId == step.request.groupId && b.hostPid == step.request.hostPid && b.config == step.request.config
    && b.clientType == step.request.clientType && b.tokenId == step.request.tokenId
    && b.isShowKeyboard == step.request.isShowKeyboard
  }

  // ------------------------------------------------------------------- the pointers

  ghost predicate PointersFit(s: State, step: Step, g: nat, t: State)
    requires Enabled(s, step) && g in s && g in t
  {
    && t[g].current == (
         if PlacingOf(s, step).Some? && PlacingOf(s, step).value.g == g then Some(PlacingOf(s, step).value.c)
         else if s[g].current.Some? && (Leaves(s, step, g, s[g].current.value) || Deactivated(s, step, g, s[g].current.value))
         then None else s[g].current)
    && (if s[g].current.Some? && Deactivated(s, step, g, s[g].current.value) then t[g].inactive == s[g].current
        else t[g].inactive == s[g].inactive || t[g].inactive.None?)
    && (s[g].inactive.Some? && Registered(t, g, s[g].inactive.value) && t[g].inactive != s[g].inactive ==>
         s[g].current.Some? && Deactivated(s, step, g, s[g].current.value))
  }

  // -------------------------------------------------------------------- all together

  /** For one client in one group. */
  ghost predicate ClientFits(s: State, step: Step, g: nat, d: Client, t: State)
    requires Enabled(s, step)
  {
    && (Registered(t, g, d) <==> (Registered(s, g, d) && !Leaves(s, step, g, d)) || Joins(step, g, d))
    && (Registered(t, g, d) ==>
         if Registered(s, g, d) then RecordFits(s, step, g, d, s[g].clients[d], t[g].clients[d])
         else NewFits(step, t[g].clients[d]))
  }

  // ------------------------------------------------------------------------ binding

  /** The found client of another group is gone, and nothing else changes. */
  lemma PreemptChanges(s: State, newGroup: nat, found: Option<(nat, Client)>)
    requires Inv(s) && (found.Some? ==> Registered(s, found.value.0, found.value.1))
    ensures var t := Preempt(s, newGroup, found);
      && Inv(t) && t.Keys == s.Keys
      && forall g :: g in s ==> GroupShrinks(s[g], t[g], set d | d in s[g].clients && found == Some((g, d)) && g != newGroup)
  {
    PreemptKeepsInv(s, newGroup, found);
    var t := Preempt(s, newGroup, found);
    forall g | g in s
      ensures GroupShrinks(s[g], t[g], set d | d in s[g].clients && found == Some((g, d)) && g != newGroup)
    {
      var gone := set d | d in s[g].clients && found == Some((g, d)) && g != newGroup;
      if found.Some? && found.value.0 == g != newGroup {
        assert gone == {found.value.1};
      } else {
        assert gone == {} && t[g] == s[g];
      }
    }
  }

  /** Exactly the clients in `gone` left the group, and the pointers to them. */
  predicate GroupShrinks(a: Group, b: Group, gone: set<Client>) {
    && b.clients == a.clients - gone
    && b.current == (if a.current.Some? && a.current.value in gone then None else a.current)
    && b.inactive == (if a.inactive.Some? && a.inactive.value in gone then None else a.inactive)
  }

  function HoldersOf(g: Group, pid: int): set<Client> {
    set d | d in g.clients && BindsPid(g, d, pid)
  }

  function RealHolders(g: Group): set<Client> {
    set d | d in g.clients && BindsReal(g, d)
  }

  lemma SameImeLeaves(s: State, newGroup: nat, pid: int)
    requires Inv(s)
    ensures var t := Preempt(s, newGroup, FindByImePid(s, pid));
      && Inv(t) && t.Keys == s.Keys && (newGroup in s ==> t[newGroup] == s[newGroup])
      && forall g :: g in s && g != newGroup ==> GroupShrinks(s[g], t[g], HoldersOf(s[g], pid))
  {
    var found := FindByImePid(s, pid);
    PreemptChanges(s, newGroup, found);
    InvIsSafe(s);
    forall g | g in s && g != newGroup
      ensures HoldersOf(s[g], pid) == set d | d in s[g].clients && found == Some((g, d)) && g != newGroup
    {
      forall d | d in HoldersOf(s[g], pid)
        ensures found == Some((g, d))
      {
        assert BoundToPid(s, g, d, pid);
        LookupsAreDeterministic(s, pid, g, d, found.value.0, found.value.1);
      }
    }
  }

  lemma RealLeaves(s: State, newGroup: nat)
    requires Inv(s)
    ensures var t := Preempt(s, newGroup, FindBoundReal(s));
      && Inv(t) && t.Keys == s.Keys && (newGroup in s ==> t[newGroup] == s[newGroup])
      && forall g :: g in s && g != newGroup ==> GroupShrinks(s[g], t[g], RealHolders(s[g]))
  {
    var found := FindBoundReal(s);
    PreemptChanges(s, newGroup, found);
    InvIsSafe(s);
    forall g | g in s && g != newGroup
      ensures RealHolders(s[g]) == set d | d in s[g].clients && found == Some((g, d)) && g != newGroup
    {
      forall d | d in RealHolders(s[g])
        ensures found == Some((g, d))
      {
        assert BoundToReal(s, g, d);
        LookupsAreDeterministic(s, 0, g, d, found.value.0, found.value.1);
      }
    }
  }

  lemma ShrinksTwice(a: Group, b: Group, c: Group, gone: set<Client>, more: set<Client>, all: set<Client>)
    requires GroupShrinks(a, b, gone) && GroupShrinks(b, c, more)
    requires all == gone + more
    ensures GroupShrinks(a, c, all)
  {
  }

  lemma RealHoldersLeft(a: Group, b: Group, gone: set<Client>)
    requires GroupShrinks(a, b, gone)
    ensures RealHolders(b) == RealHolders(a) - gone
  {
  }

  /** Who leaves a group that is not the one of the bind. */
  function Cleared(g: Group, ime: BindImeData): set<Client> {
    HoldersOf(g, ime.pid) + if ime.kind == RealIme then RealHolders(g) else {}
  }

  /** Both clean-ups together. */
  lemma ClearingChanges(s: State, groupId: nat, ime: BindImeData)
    requires Inv(s) && groupId in s
    ensures var t := ClearOtherGroups(s, groupId, ime);
      && Inv(t) && t.Keys == s.Keys && t[groupId] == s[groupId]
      && forall g :: g in s && g != groupId ==> GroupShrinks(s[g], t[g], Cleared(s[g], ime))
  {
    var s1, t := Preempt(s, groupId, FindByImePid(s, ime.pid)), ClearOtherGroups(s, groupId, ime);
    SameImeLeaves(s, groupId, ime.pid);
    RealLeaves(s1, groupId);
    forall g | g in s && g != groupId
      ensures GroupShrinks(s[g], t[g], Cleared(s[g], ime))
    {
      if ime.kind == RealIme {
        BothLeave(s[g], s1[g], t[g], ime);
      } else {
        assert Cleared(s[g], ime) == HoldersOf(s[g], ime.pid);
      }
    }
  }

  lemma BothLeave(a: Group, b: Group, c: Group, ime: BindImeData)
    requires ime.kind == RealIme
    requires GroupShrinks(a, b, HoldersOf(a, ime.pid)) && GroupShrinks(b, c, RealHolders(b))
    ensures GroupShrinks(a, c, Cleared(a, ime))
  {
    RealHoldersLeft(a, b, HoldersOf(a, ime.pid));
    ShrinksTwice(a, b, c, HoldersOf(a, ime.pid), RealHolders(b), Cleared(a, ime));
  }

  /** The group of the bind: the pointers' clients make room, and the client is marked. */
  ghost predicate GroupBinds(a: Group, b: Group, c: Client, shown: bool, ime: BindImeData) {
    if c !in a.clients then b == a else
    && b.clients.Keys == a.clients.Keys - (Pointed(a.current) + Pointed(a.inactive) - {c})
    && (forall d :: d in b.clients && d != c ==> b.clients[d] == a.clients[d])
    && b.clients[c] == a.clients[c].(isShowKeyboard := shown, state := Active, bound := Some(ime))
    && b.current == Some(c)
    && (b.inactive == a.inactive || b.inactive.None?)
    && (a.inactive == Some(c) ==> b.inactive == a.inactive)
  }

  lemma PlacingChanges(g: Group, c: Client, shown: bool, ime: BindImeData, u: set<Client>)
    requires g.clients.Keys <= u && OnePerProcess(u)
    ensures GroupBinds(g, ReplaceCurrent(Mark(g, c, shown, ime), c), c, shown, ime)
  {
    if c in g.clients {
      var m := Mark(g, c, shown, ime);
      ReplaceCurrentRemoves(m, c, u);
    }
  }

  lemma BindChanges(s: State, c: Client, groupId: nat, shown: bool, ime: BindImeData, u: set<Client>)
    requires Inv(s) && Within(s, u) && OnePerProcess(u) && groupId in s && ime.kind != ImeMirror
    ensures var t := Bind(s, c, groupId, shown, ime);
      && t.Keys == s.Keys && GroupBinds(s[groupId], t[groupId], c, shown, ime)
      && forall g :: g in s && g != groupId ==> GroupShrinks(s[g], t[g], Cleared(s[g], ime))
  {
    ClearingChanges(s, groupId, ime);
    PlacingChanges(s[groupId], c, shown, ime, u);
  }

  // ---------------------------------------------------------------- the binding steps

  lemma ClearedIsDropped(s: State, c: Client, groupId: nat, ime: BindImeData, g: nat, d: Client)
    requires groupId in s && ime.kind != ImeMirror && g in s && g != groupId
    ensures BindDrops(s, c, groupId, ime, g, d) <==> d in Cleared(s[g], ime)
  {
  }

  /** What `BindChanges` says of one group. */
  ghost predicate GroupAfterBind(s: State, p: Placing, g: nat, b: Group)
    requires g in s
  {
    if g == p.g then GroupBinds(s[g], b, p.c, p.shown, p.ime) else GroupShrinks(s[g], b, Cleared(s[g], p.ime))
  }

  /** The step does nothing to clients but bind one. */
  predicate OnlyBinds(step: Step) {
    step.LateBind? || step.ProxyChanged?
  }

  lemma BoundClientFits(s: State, step: Step, p: Placing, g: nat, d: Client, t: State)
    requires Enabled(s, step) && OnlyBinds(step) && p.g in s && p.ime.kind != ImeMirror && g in s && g in t
    requires GroupAfterBind(s, p, g, t[g]) && PlacingOf(s, step) == Valid(s, p)
    requires Leaves(s, step, g, d) <==> BindDrops(s, p.c, p.g, p.ime, g, d)
    ensures ClientFits(s, step, g, d, t)
  {
    if g == p.g {
      assert GroupBinds(s[g], t[g], p.c, p.shown, p.ime);
    } else {
      ClearedIsDropped(s, p.c, p.g, p.ime, g, d);
    }
  }

  lemma BoundPointersFit(s: State, step: Step, p: Placing, g: nat, t: State)
    requires Enabled(s, step) && OnlyBinds(step) && p.g in s && p.ime.kind != ImeMirror && g in s && g in t
    requires GroupAfterBind(s, p, g, t[g]) && PlacingOf(s, step) == Valid(s, p)
    requires s[g].current.Some? ==>
      (Leaves(s, step, g, s[g].current.value) <==> BindDrops(s, p.c, p.g, p.ime, g, s[g].current.value))
    ensures PointersFit(s, step, g, t)
  {
    if g != p.g && s[g].current.Some? {
      ClearedIsDropped(s, p.c, p.g, p.ime, g, s[g].current.value);
    }
  }

  /** A bind of a client looked up before. */
  lemma LateBindFits(s: State, step: Step, g: nat, d: Client, u: set<Client>)
    requires Inv(s) && Within(s, u) && OnePerProcess(u) && step.LateBind? && Enabled(s, step)
    ensures ClientFits(s, step, g, d, Next(s, step))
    ensures g in s ==> g in Next(s, step) && PointersFit(s, step, g, Next(s, step))
  {
    var p := Placing(step.g, step.c, step.shown, step.ime);
    if step.accepted && p.g in s && p.ime.kind != ImeMirror {
      BindChanges(s, p.c, p.g, p.shown, p.ime, u);
      if g in s {
        BoundClientFits(s, step, p, g, d, Next(s, step));
        BoundPointersFit(s, step, p, g, Next(s, step));
      }
    }
  }

  lemma ProxyChangedFits(s: State, step: Step, g: nat, d: Client, u: set<Client>)
    requires Inv(s) && Within(s, u) && OnePerProcess(u) && step.ProxyChanged? && Enabled(s, step)
    ensures ClientFits(s, step, g, d, Next(s, step))
    ensures g in s ==> g in Next(s, step) && PointersFit(s, step, g, Next(s, step))
  {
    if step.accepted && step.g in s && CurrentInfo(s[step.g]).Some? && step.ime.kind != ImeMirror {
      var info := CurrentInfo(s[step.g]).value;
      assert GroupOk(step.g, s[step.g]);
      var p := Placing(step.g, info.client, info.isShowKeyboard, step.ime);
      BindChanges(s, p.c, p.g, p.shown, p.ime, u);
      if g in s {
        BoundClientFits(s, step, p, g, d, Next(s, step));
        BoundPointersFit(s, step, p, g, Next(s, step));
      }
    }
  }

  // ------------------------------------------------------ the hand-over of a new IME

  /** The state in which the client is bound: its reason is forgotten already. */
  function Forgetting(s: State, h: nat): State
    requires h in s
  {
    s[h := ClearReason(s[h])]
  }

  function Forgot(g: Group, d: Client): ClientInfo
    requires d in g.clients
  {
    var info := g.clients[d];
    if g.current == Some(d) then info.(config := info.config.(reason := NONE)) else info
  }

  lemma ForgettingChanges(s: State, h: nat, u: set<Client>)
    requires Inv(s) && Within(s, u) && h in s
    ensures var t := Forgetting(s, h);
      && Inv(t) && Within(t, u) && t.Keys == s.Keys && t[h].current == s[h].current && t[h].inactive == s[h].inactive
      && t[h].clients.Keys == s[h].clients.Keys
      && (forall d :: d in s[h].clients ==> t[h].clients[d] == Forgot(s[h], d))
  {
    assert Keeps(h, ClearReason(s[h]), s[h]);
    LocalStepKeepsInv(s, h, ClearReason(s[h]), u);
  }

  /** The new IME's bind of the client `p.c`, up to the state `t`. */
  ghost predicate ReadyBinds(s: State, step: Step, p: Placing, g: nat, t: State) {
    && step.ImeReady? && Enabled(s, step) && step.needBind && step.accepted
    && FindCurrentBoundReal(s) == Some(p.g) && s[p.g].current == Some(p.c) && p.c in s[p.g].clients && p.ime == step.ime
    && p.shown == s[p.g].clients[p.c].isShowKeyboard
    && g in s && g in t && GroupAfterBind(Forgetting(s, p.g), p, g, t[g])
  }

  lemma ReadyInGroup(s: State, step: Step, p: Placing, d: Client, t: State, u: set<Client>)
    requires Inv(s) && Within(s, u) && ReadyBinds(s, step, p, p.g, t)
    ensures ClientFits(s, step, p.g, d, t)
  {
    ForgettingChanges(s, p.g, u);
    assert GroupBinds(Forgetting(s, p.g)[p.g], t[p.g], p.c, p.shown, p.ime);
    assert PlacingOf(s, step) == Some(p);
  }

  lemma ReadyPointers(s: State, step: Step, p: Placing, t: State, u: set<Client>)
    requires Inv(s) && Within(s, u) && ReadyBinds(s, step, p, p.g, t)
    ensures PointersFit(s, step, p.g, t)
  {
    ForgettingChanges(s, p.g, u);
    assert GroupBinds(Forgetting(s, p.g)[p.g], t[p.g], p.c, p.shown, p.ime);
    assert PlacingOf(s, step) == Some(p);
  }

  lemma ReadyElsewhere(s: State, step: Step, p: Placing, g: nat, d: Client, t: State)
    requires Inv(s) && ReadyBinds(s, step, p, g, t) && g != p.g
    ensures ClientFits(s, step, g, d, t) && PointersFit(s, step, g, t)
  {
    assert GroupShrinks(s[g], t[g], Cleared(s[g], p.ime));
    assert PlacingOf(s, step) == Some(p);
    ClearedIsDropped(s, p.c, p.g, p.ime, g, d);
    if s[g].current.Some? {
      ClearedIsDropped(s, p.c, p.g, p.ime, g, s[g].current.value);
    }
  }

  lemma ReadyButNotBound(s: State, step: Step, h: nat, d: Client, u: set<Client>)
    requires Inv(s) && Within(s, u) && step.ImeReady? && Enabled(s, step) && step.needBind && !step.accepted
    requires FindCurrentBoundReal(s) == Some(h)
    ensures ClientFits(s, step, h, d, Forgetting(s, h)) && PointersFit(s, step, h, Forgetting(s, h))
  {
    ForgettingChanges(s, h, u);
    assert PlacingOf(s, step).None? && !Joins(step, h, d);
  }

  lemma Untouched(s: State, step: Step, g: nat, d: Client, t: State)
    requires step.ImeReady? && Enabled(s, step) && PlacingOf(s, step).None? && !Leaves(s, step, g, d)
    requires !(step.needBind && step.accepted && FindCurrentBoundReal(s).Some?)
    requires step.needBind ==> FindCurrentBoundReal(s) != Some(g)
    requires (g in t <==> g in s) && (g in s ==> t[g] == s[g])
    ensures ClientFits(s, step, g, d, t) && (g in s ==> PointersFit(s, step, g, t))
  {
  }

  /** The state after the hand-over as a bind in the state in which the reason is forgotten. */
  lemma ReadyIsBind(s: State, step: Step, h: nat, u: set<Client>) returns (p: Placing)
    requires Inv(s) && Within(s, u) && step.ImeReady? && Enabled(s, step)
    requires step.needBind && step.accepted && FindCurrentBoundReal(s) == Some(h)
    ensures p == Placing(h, p.c, p.shown, step.ime) && s[h].current == Some(p.c) && p.c in s[h].clients
    ensures p.shown == s[h].clients[p.c].isShowKeyboard
    ensures Next(s, step) == Bind(Forgetting(s, h), p.c, h, p.shown, p.ime)
  {
    ForgettingChanges(s, h, u);
    var s1, c := Forgetting(s, h), s[h].current.value;
    assert GroupOk(h, s1[h]) && s1[h].clients[c] == Forgot(s[h], c);
    p := Placing(h, c, s[h].clients[c].isShowKeyboard, step.ime);
    assert CurrentInfo(s1[h]) == Some(Forgot(s[h], c));
  }

  lemma ImeReadyFits(s: State, step: Step, g: nat, d: Client, u: set<Client>)
    requires Inv(s) && Within(s, u) && OnePerProcess(u) && step.ImeReady? && Enabled(s, step)
    ensures ClientFits(s, step, g, d, Next(s, step))
    ensures g in s ==> g in Next(s, step) && PointersFit(s, step, g, Next(s, step))
  {
    var h := FindCurrentBoundReal(s);
    if !step.needBind || h.None? {
      Untouched(s, step, g, d, s);
    } else if step.accepted {
      ReadyBoundFits(s, step, h.value, g, d, u);
    } else if g == h.value {
      ReadyButNotBound(s, step, g, d, u);
    } else {
      Untouched(s, step, g, d, Forgetting(s, h.value));
    }
  }

  lemma ReadyBoundFits(s: State, step: Step, h: nat, g: nat, d: Client, u: set<Client>)
    requires Inv(s) && Within(s, u) && OnePerProcess(u) && step.ImeReady? && Enabled(s, step)
    requires step.needBind && step.accepted && FindCurrentBoundReal(s) == Some(h)
    ensures ClientFits(s, step, g, d, Next(s, step))
    ensures g in s ==> g in Next(s, step) && PointersFit(s, step, g, Next(s, step))
  {
    var p := ReadyIsBind(s, step, h, u);
    var t := Next(s, step);
    ForgettingChanges(s, h, u);
    BindChanges(Forgetting(s, h), p.c, h, p.shown, p.ime, u);
    if g == h {
      ReadyInGroup(s, step, p, d, t, u);
      ReadyPointers(s, step, p, t, u);
    } else if g in s {
      assert Forgetting(s, h)[g] == s[g];
      ReadyElsewhere(s, step, p, g, d, t);
    }
  }

  // ------------------------------------------------------------------ starting input

  lemma MakingWayChanges(s: State, c: Client, ime: BindImeData, h: nat, u: set<Client>)
    requires Inv(s) && Within(s, u) && h in s
    ensures var b := PrepareRebind(s[h], c, ime);
      && Inv(s[h := b]) && Within(s[h := b], u) && b.inactive == s[h].inactive
      && (if s[h].current.Some? && MakesWay(s, c, ime, h, s[h].current.value)
          then b.current.None? && b.clients == s[h].clients - {s[h].current.value}
          else b == s[h])
  {
    PrepareRebindKeeps(h, s[h], c, ime);
    LocalStepKeepsInv(s, h, PrepareRebind(s[h], c, ime), u);
  }

  /** The bind of an attach, from the state `s1` in which the current client has made way. */
  ghost predicate StartBinds(s: State, step: Step, s1: State, g: nat, t: State) {
    && step.StartInput? && Enabled(s, step) && step.accepted && step.request.groupId in s && step.ime.kind != ImeMirror
    && s1 == s[step.request.groupId := PrepareRebind(s[step.request.groupId], step.request.client, step.ime)]
    && g in s && g in t
    && GroupAfterBind(s1, Placing(step.request.groupId, step.request.client, step.request.isShowKeyboard, step.ime), g, t[g])
  }

  /** Who is registered in the group of the attach afterwards, and with what record. */
  lemma StartedMembers(s: State, step: Step, s1: State, g: nat, d: Client, t: State, u: set<Client>)
    requires Inv(s) && Within(s, u) && StartBinds(s, step, s1, g, t) && g == step.request.groupId
    ensures Registered(t, g, d) <==> Registered(s, g, d) && !Leaves(s, step, g, d)
    ensures Registered(t, g, d) && !Places(s, step, g, d) ==> t[g].clients[d] == s[g].clients[d]
    ensures Places(s, step, g, d) ==>
      t[g].clients[d] ==
        s[g].clients[d].(isShowKeyboard := step.request.isShowKeyboard, state := Active, bound := Some(step.ime))
  {
    var r, ime := step.request, step.ime;
    MakingWayChanges(s, r.client, ime, g, u);
    assert GroupBinds(s1[g], t[g], r.client, r.isShowKeyboard, ime);
    assert Registered(s1, g, d) <==> Registered(s, g, d) && !MakesWay(s, r.client, ime, g, d);
  }

  lemma StartedInGroup(s: State, step: Step, s1: State, g: nat, d: Client, t: State, u: set<Client>)
    requires Inv(s) && Within(s, u) && StartBinds(s, step, s1, g, t) && g == step.request.groupId
    ensures ClientFits(s, step, g, d, t)
  {
    StartedMembers(s, step, s1, g, d, t, u);
  }

  lemma StartedPointers(s: State, step: Step, s1: State, g: nat, t: State, u: set<Client>)
    requires Inv(s) && Within(s, u) && StartBinds(s, step, s1, g, t) && g == step.request.groupId
    ensures PointersFit(s, step, g, t)
  {
    var r, ime := step.request, step.ime;
    MakingWayChanges(s, r.client, ime, g, u);
    assert GroupBinds(s1[g], t[g], r.client, r.isShowKeyboard, ime);
  }

  lemma StartedElsewhere(s: State, step: Step, s1: State, g: nat, d: Client, t: State)
    requires Inv(s) && StartBinds(s, step, s1, g, t) && g != step.request.groupId
    ensures ClientFits(s, step, g, d, t) && PointersFit(s, step, g, t)
  {
    var r, ime := step.request, step.ime;
    assert GroupShrinks(s[g], t[g], Cleared(s[g], ime));
    ClearedIsDropped(s, r.client, r.groupId, ime, g, d);
    if s[g].current.Some? {
      ClearedIsDropped(s, r.client, r.groupId, ime, g, s[g].current.value);
    }
  }

  lemma StartInputFits(s: State, step: Step, g: nat, d: Client, u: set<Client>)
    requires Inv(s) && Within(s, u) && OnePerProcess(u) && step.StartInput? && Enabled(s, step)
    ensures ClientFits(s, step, g, d, Next(s, step))
    ensures g in s ==> g in Next(s, step) && PointersFit(s, step, g, Next(s, step))
  {
    var r, ime := step.request, step.ime;
    if r.groupId in s {
      MakingWayChanges(s, r.client, ime, r.groupId, u);
      var s1 := s[r.groupId := PrepareRebind(s[r.groupId], r.client, ime)];
      if step.accepted && ime.kind != ImeMirror {
        BindChanges(s1, r.client, r.groupId, r.isShowKeyboard, ime, u);
        if g == r.groupId {
          StartedInGroup(s, step, s1, g, d, Next(s, step), u);
          StartedPointers(s, step, s1, g, Next(s, step), u);
        } else if g in s {
          StartedElsewhere(s, step, s1, g, d, Next(s, step));
        }
      } else {
        assert Next(s, step) == s1;
      }
    }
  }

  // ----------------------------------------------------------- steps that bind nobody

  lemma AttachedInGroup(s: State, step: Step, s1: State, d: Client)
    requires Inv(s) && step.PrepareInput? && Enabled(s, step) && s1.Keys == s.Keys
    requires step.request.groupId in s ==> s1[step.request.groupId] == s[step.request.groupId]
    ensures var t := Register(s1, step.request, step.added);
      && ClientFits(s, step, step.request.groupId, d, t)
      && (step.request.groupId in s ==> step.request.groupId in t && PointersFit(s, step, step.request.groupId, t))
  {
    var r := step.request;
    assert r.groupId in s ==> GroupOk(r.groupId, s[r.groupId]);
  }

  lemma AttachedElsewhere(s: State, step: Step, g: nat, d: Client, t: State)
    requires Inv(s) && step.PrepareInput? && Enabled(s, step) && g != step.request.groupId && (g in t <==> g in s)
    requires g in s ==>
      GroupShrinks(s[g], t[g], set e | e in s[g].clients && step.found == Some((g, e)) && g != step.request.groupId)
    ensures ClientFits(s, step, g, d, t) && (g in s ==> PointersFit(s, step, g, t))
  {
  }

  lemma PrepareInputFits(s: State, step: Step, g: nat, d: Client)
    requires Inv(s) && step.PrepareInput? && Enabled(s, step)
    ensures ClientFits(s, step, g, d, Next(s, step))
    ensures g in s ==> g in Next(s, step) && PointersFit(s, step, g, Next(s, step))
  {
    var r, found := step.request, step.found;
    PreemptChanges(s, r.groupId, found);
    var s1 := Preempt(s, r.groupId, found);
    if g == r.groupId {
      AttachedInGroup(s, step, s1, d);
    } else {
      AttachedElsewhere(s, step, g, d, Next(s, step));
    }
  }

  /** A step inside one group leaves the others as they are. */
  lemma OtherGroupFits(s: State, step: Step, g: nat, d: Client)
    requires Inv(s) && InOneGroup(step) && Enabled(s, step) && (g != step.g || g !in s)
    ensures ClientFits(s, step, g, d, Next(s, step))
    ensures g in s ==> g in Next(s, step) && PointersFit(s, step, g, Next(s, step))
  {
    StepsInOneGroup(s, step);
    assert g in s <==> g in Next(s, step);
    assert g in s ==> Next(s, step)[g] == s[g];
  }

  lemma DepartureFits(s: State, step: Step, d: Client)
    requires Inv(s) && (step.ReleaseInput? || step.ClientDied?) && Enabled(s, step) && step.g in s
    ensures ClientFits(s, step, step.g, d, Next(s, step)) && PointersFit(s, step, step.g, Next(s, step))
  {
    assert GroupOk(step.g, s[step.g]);
    StepsInOneGroup(s, step);
  }

  lemma FocusFits(s: State, step: Step, d: Client)
    requires Inv(s) && (step.Focused? || step.Unfocused?) && Enabled(s, step) && step.g in s
    ensures ClientFits(s, step, step.g, d, Next(s, step)) && PointersFit(s, step, step.g, Next(s, step))
  {
    assert GroupOk(step.g, s[step.g]);
    StepsInOneGroup(s, step);
  }

  lemma HideChanges(g: Group, caller: string, d: Client)
    requires g.current.Some? ==> g.current.value in g.clients
    ensures var a := RequestHide(g, caller);
      && (d in a.clients <==>
           && d in g.clients && g.inactive != Some(d)
           && !(g.current == Some(d) && caller != "" && caller != g.clients[d].config.bundleName))
      && (d in a.clients ==>
           a.clients[d] == if g.current == Some(d) then g.clients[d].(isShowKeyboard := false) else g.clients[d])
  {
  }

  lemma HideFits(s: State, step: Step, d: Client)
    requires Inv(s) && step.HideRequested? && Enabled(s, step) && step.g in s
    ensures ClientFits(s, step, step.g, d, Next(s, step))
  {
    assert GroupOk(step.g, s[step.g]);
    HideChanges(s[step.g], step.caller, d);
    assert Next(s, step)[step.g] == RequestHide(s[step.g], step.caller);
  }

  lemma HidePointers(s: State, step: Step)
    requires Inv(s) && step.HideRequested? && Enabled(s, step) && step.g in s
    ensures PointersFit(s, step, step.g, Next(s, step))
  {
    assert GroupOk(step.g, s[step.g]);
    assert Next(s, step) == s[step.g := RequestHide(s[step.g], step.caller)];
  }

  lemma ShowFits(s: State, step: Step, d: Client)
    requires Inv(s) && step.KeyboardShown? && Enabled(s, step) && step.g in s
    ensures ClientFits(s, step, step.g, d, Next(s, step)) && PointersFit(s, step, step.g, Next(s, step))
  {
    assert Next(s, step) == s[step.g := Show(s[step.g], step.c, step.shown)];
  }

  lemma OneGroupFits(s: State, step: Step, g: nat, d: Client)
    requires Inv(s) && InOneGroup(step) && Enabled(s, step)
    ensures ClientFits(s, step, g, d, Next(s, step))
    ensures g in s ==> g in Next(s, step) && PointersFit(s, step, g, Next(s, step))
  {
    if g != step.g || g !in s {
      OtherGroupFits(s, step, g, d);
    } else if step.ReleaseInput? || step.ClientDied? {
      DepartureFits(s, step, d);
    } else if step.Focused? || step.Unfocused? {
      FocusFits(s, step, d);
    } else if step.HideRequested? {
      HideFits(s, step, d);
      HidePointers(s, step);
    } else {
      ShowFits(s, step, d);
    }
  }

  lemma SceneBoardStoppedFits(s: State, g: nat, d: Client)
    requires Inv(s)
    ensures ClientFits(s, SceneBoardStopped, g, d, Next(s, SceneBoardStopped))
    ensures g in s ==> g in Next(s, SceneBoardStopped) && PointersFit(s, SceneBoardStopped, g, Next(s, SceneBoardStopped))
  {
  }

  /** Every step changes exactly what is said above, for every client and every group. */
  lemma StepChanges(s: State, step: Step, g: nat, d: Client, u: set<Client>)
    requires Inv(s) && Within(s, u) && OnePerProcess(u) && Enabled(s, step)
    ensures ClientFits(s, step, g, d, Next(s, step))
    ensures g in s ==> g in Next(s, step) && PointersFit(s, step, g, Next(s, step))
  {
    match step
    case PrepareInput(_, _, _) => PrepareInputFits(s, step, g, d);
    case StartInput(_, _, _) => StartInputFits(s, step, g, d, u);
    case ImeReady(_, _, _) => ImeReadyFits(s, step, g, d, u);
    case ProxyChanged(_, _, _) => ProxyChangedFits(s, step, g, d, u);
    case LateBind(_, _, _, _, _) => LateBindFits(s, step, g, d, u);
    case SceneBoardStopped => SceneBoardStoppedFits(s, g, d);
    case _ => OneGroupFits(s, step, g, d);
  }

  /** Only attaching creates a group, with no pointers set. */
  lemma NewGroupIsBare(s: State, step: Step, g: nat)
    requires Enabled(s, step) && g !in s && g in Next(s, step)
    ensures step.PrepareInput? && g == step.request.groupId
    ensures Next(s, step)[g].current.None? && Next(s, step)[g].inactive.None?
  {
  }

  // ------------------------------------------------------------------- what follows

  /** Attaching again in the group of the registration leaves every binding as it was. */
  lemma AttachingAgainKeepsBindings(s: State, r: Request, added: bool, g: nat, c: Client, pid: int, u: set<Client>)
    requires Inv(s) && Within(s, u) && OnePerProcess(u) && Registered(s, r.groupId, r.client)
    requires Enabled(s, PrepareInput(r, added, Some((r.groupId, r.client))))
    ensures var t := Next(s, PrepareInput(r, added, Some((r.groupId, r.client))));
      && (BoundToPid(t, g, c, pid) <==> BoundToPid(s, g, c, pid))
      && (BoundToReal(t, g, c) <==> BoundToReal(s, g, c))
  {
    StepChanges(s, PrepareInput(r, added, Some((r.groupId, r.client))), g, c, u);
  }

  /** A binding ends only with its client's registration, or by binding the client to something else. */
  lemma BindingsEndOnlyBy(s: State, step: Step, g: nat, c: Client, u: set<Client>)
    requires Inv(s) && Within(s, u) && OnePerProcess(u) && Enabled(s, step) && Bound(s, g, c)
    ensures Leaves(s, step, g, c) ==> !Registered(Next(s, step), g, c)
    ensures !Leaves(s, step, g, c) && !Places(s, step, g, c) ==>
      Bound(Next(s, step), g, c) && Next(s, step)[g].clients[c].bound == s[g].clients[c].bound
  {
    StepChanges(s, step, g, c, u);
  }
}
