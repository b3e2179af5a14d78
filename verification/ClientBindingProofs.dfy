/** What every run of the session engine keeps. */
module ClientBindingProofs {
  import opened Options
  import opened ClientBinding

  // ------------------------------------------------------------- the properties

  predicate Bound(s: State, g: nat, c: Client) {
    g in s && c in s[g].clients && s[g].clients[c].bound.Some?
  }

  ghost predicate AtMostOneBoundPerGroup(s: State) {
    forall g, c, d :: Bound(s, g, c) && Bound(s, g, d) ==> c == d
  }

  ghost predicate RealImeInOneGroup(s: State) {
    forall g, h, c, d :: BoundToReal(s, g, c) && BoundToReal(s, h, d) ==> g == h
  }

  ghost predicate EachImeInOneGroup(s: State) {
    forall pid, g, h, c, d :: BoundToPid(s, g, c, pid) && BoundToPid(s, h, d, pid) ==> g == h
  }

  ghost predicate GroupIdsAgree(s: State) {
    forall g, c :: g in s && c in s[g].clients ==> s[g].clients[c].groupId == g && s[g].clients[c].client == c
  }

  ghost predicate CurrentIsRegistered(s: State) {
    forall g :: g in s && s[g].current.Some? ==> s[g].current.value in s[g].clients
  }

  ghost predicate Safe(s: State) {
    && AtMostOneBoundPerGroup(s) && RealImeInOneGroup(s) && EachImeInOneGroup(s)
    && GroupIdsAgree(s) && CurrentIsRegistered(s)
  }

  /** The search by own or host pid: every client of the process, or hosted by it, can be what it finds, the
      hosted ones only where no client of the process is; and it finds something if there is one. */
  lemma FoundIs(s: State, pid: int, r: Option<(nat, Client)>)
    requires FoundBySelfOrHost(s, pid, r)
    ensures r.None? <==> forall g, c :: Registered(s, g, c) ==> c.pid != pid && s[g].clients[c].hostPid != pid
    ensures r.Some? ==>
      var g, c := r.value.0, r.value.1;
      && Registered(s, g, c)
      && (c.pid == pid || (s[g].clients[c].hostPid == pid && forall d :: Registered(s, g, d) ==> d.pid != pid))
  {
    if r.Some? {
      var g, c := r.value.0, r.value.1;
      assert FoundInGroup(s[g], pid, Some(c)) && Registered(s, g, c);
      forall d | c.pid != pid && Registered(s, g, d)
        ensures d.pid != pid
      {
        assert !OfProcess(s[g], d, pid);
      }
    } else {
      forall g, c | Registered(s, g, c)
        ensures c.pid != pid && s[g].clients[c].hostPid != pid
      {
        assert FoundInGroup(s[g], pid, None);
        assert !OfProcess(s[g], c, pid) && !HostedBy(s[g], c, pid);
      }
    }
  }

  // ------------------------------------------------------- the inductive invariant

  /** The only clients that may be bound: the current one or, with none current, the inactive one. */
  predicate Holds(g: Group, c: Client) {
    g.current == Some(c) || (g.current.None? && g.inactive == Some(c))
  }

  ghost predicate GroupOk(id: nat, g: Group) {
    && (forall c :: c in g.clients ==> g.clients[c].client == c && g.clients[c].groupId == id)
    && (g.current.Some? ==> g.current.value in g.clients)
    && (forall c :: c in g.clients && g.clients[c].bound.Some? ==> Holds(g, c))
  }

  ghost predicate Inv(s: State) {
    && (forall g :: g in s ==> GroupOk(g, s[g]))
    && RealImeInOneGroup(s)
    && EachImeInOneGroup(s)
  }

  lemma InvIsSafe(s: State)
    requires Inv(s)
    ensures Safe(s)
  {
  }

  /** In a safe state the lookups have one possible answer, so map iteration order is invisible. */
  lemma LookupsAreDeterministic(s: State, pid: int, g: nat, c: Client, h: nat, d: Client)
    requires Safe(s)
    ensures BoundToPid(s, g, c, pid) && BoundToPid(s, h, d, pid) ==> g == h && c == d
    ensures BoundToReal(s, g, c) && BoundToReal(s, h, d) ==> g == h && c == d
    ensures CurrentBoundToReal(s, g) && CurrentBoundToReal(s, h) ==> g == h
  {
    if BoundToPid(s, g, c, pid) && BoundToPid(s, h, d, pid) {
      assert Bound(s, g, c) && Bound(s, h, d);
    }
    if BoundToReal(s, g, c) && BoundToReal(s, h, d) {
      assert Bound(s, g, c) && Bound(s, h, d);
    }
  }

  // ------------------------------------------------- steps that bind nothing new

  /** Every binding of `a` was already in `b`. */
  ghost predicate NoNewBinding(a: Group, b: Group) {
    forall c :: c in a.clients && a.clients[c].bound.Some? ==> c in b.clients && a.clients[c].bound == b.clients[c].bound
  }

  ghost predicate Keeps(id: nat, a: Group, b: Group) {
    GroupOk(id, a) && NoNewBinding(a, b)
  }

  lemma UpdateKeepsInv(s: State, g: nat, a: Group)
    requires Inv(s)
    requires Keeps(g, a, if g in s then s[g] else EMPTY_GROUP)
    ensures Inv(s[g := a])
  {
    var t := s[g := a];
    forall h, c, pid | BoundToPid(t, h, c, pid)
      ensures BoundToPid(s, h, c, pid)
    {
    }
    forall h, c | BoundToReal(t, h, c)
      ensures BoundToReal(s, h, c)
    {
    }
  }

  lemma RemoveKeeps(id: nat, g: Group, c: Client)
    requires GroupOk(id, g)
    ensures Keeps(id, Remove(g, c), g)
  {
  }

  lemma EvictKeeps(id: nat, g: Group, c: Client)
    requires GroupOk(id, g)
    ensures Keeps(id, Evict(g, c), g)
  {
  }

  lemma DeactivateKeeps(id: nat, g: Group, c: Client)
    requires GroupOk(id, g) && g.current == Some(c)
    ensures Keeps(id, Deactivate(g, c), g)
  {
  }

  lemma ShowKeeps(id: nat, g: Group, c: Client, shown: bool)
    requires GroupOk(id, g)
    ensures Keeps(id, Show(g, c, shown), g)
  {
  }

  lemma AddKeeps(id: nat, g: Group, r: Request)
    requires GroupOk(id, g) && r.groupId == id
    ensures Keeps(id, Add(g, r), g)
  {
  }

  lemma RequestHideKeeps(id: nat, g: Group, caller: string)
    requires GroupOk(id, g)
    ensures Keeps(id, RequestHide(g, caller), g)
  {
    if g.current.Some? {
      RemoveKeeps(id, g, g.current.value);
      ShowKeeps(id, g, g.current.value, false);
    }
    var cur := CurrentInfo(g);
    var g1 :=
      if g.current.None? then g
      else if caller != "" && cur.Some? && caller != cur.value.config.bundleName then Remove(g, g.current.value)
      else Show(g, g.current.value, false);
    assert Keeps(id, g1, g);
    if g1.inactive.Some? {
      RemoveKeeps(id, g1, g1.inactive.value);
    }
  }

  lemma PrepareRebindKeeps(id: nat, g: Group, c: Client, ime: BindImeData)
    requires GroupOk(id, g)
    ensures Keeps(id, PrepareRebind(g, c, ime), g)
  {
  }

  lemma PreemptKeepsInv(s: State, newGroup: nat, found: Option<(nat, Client)>)
    requires Inv(s)
    requires found.Some? ==> found.value.0 in s && found.value.1 in s[found.value.0].clients
    ensures Inv(Preempt(s, newGroup, found))
  {
    if found.Some? {
      var (g, c) := found.value;
      EvictKeeps(g, s[g], c);
      UpdateKeepsInv(s, g, Evict(s[g], c));
    }
  }

  lemma PrepareKeepsInv(s: State, r: Request, added: bool, found: Option<(nat, Client)>)
    requires Inv(s)
    requires found.Some? ==> found.value.0 in s && found.value.1 in s[found.value.0].clients
    ensures Inv(Prepare(s, r, added, found))
  {
    PreemptKeepsInv(s, r.groupId, found);
    var s1 := Preempt(s, r.groupId, found);
    var g := if r.groupId in s1 then s1[r.groupId] else EMPTY_GROUP;
    AddKeeps(r.groupId, g, r);
    UpdateKeepsInv(s1, r.groupId, Add(g, r));
  }

  lemma RemoveAllKeepsInv(s: State)
    requires Inv(s)
    ensures Inv(RemoveAllCurrent(s))
  {
    var t := RemoveAllCurrent(s);
    forall g | g in t
      ensures Keeps(g, t[g], s[g])
    {
      if s[g].current.Some? {
        RemoveKeeps(g, s[g], s[g].current.value);
      }
    }
    forall h, c, pid | BoundToPid(t, h, c, pid)
      ensures BoundToPid(s, h, c, pid)
    {
    }
    forall h, c | BoundToReal(t, h, c)
      ensures BoundToReal(s, h, c)
    {
    }
  }

  // -------------------------------------------------------------------- binding

  /** No two client objects of one process. */
  ghost predicate OnePerProcess(u: set<Client>) {
    forall c, d :: c in u && d in u && c.pid == d.pid ==> c == d
  }

  ghost predicate Within(s: State, u: set<Client>) {
    forall g :: g in s ==> s[g].clients.Keys <= u
  }

  function Pointed(p: Option<Client>): set<Client> {
    if p.Some? then {p.value} else {}
  }

  /** Exactly the previous current and inactive clients leave, and nobody else. */
  lemma ReplaceCurrentRemoves(g: Group, c: Client, u: set<Client>)
    requires c in g.clients && g.clients.Keys <= u && OnePerProcess(u)
    ensures ReplaceCurrent(g, c).current == Some(c)
    ensures ReplaceCurrent(g, c).clients == g.clients - (Pointed(g.current) + Pointed(g.inactive) - {c})
  {
  }

  /** After replacing the current client the group's one binding is the new one. */
  lemma ReplaceLeavesOneBinding(id: nat, g: Group, c: Client, shown: bool, ime: BindImeData, u: set<Client>)
    requires GroupOk(id, g) && c in g.clients && g.clients.Keys <= u && OnePerProcess(u)
    ensures var a := ReplaceCurrent(Mark(g, c, shown, ime), c);
      && GroupOk(id, a) && a.current == Some(c) && a.clients[c].bound == Some(ime)
      && a.clients.Keys <= g.clients.Keys
      && forall d :: d in a.clients && a.clients[d].bound.Some? ==> d == c
  {
    var m := Mark(g, c, shown, ime);
    assert m.clients.Keys == g.clients.Keys;
    ReplaceCurrentRemoves(m, c, u);
    var a := ReplaceCurrent(m, c);
    forall d | d in a.clients
      ensures d in g.clients && a.clients[d] == m.clients[d]
      ensures d == c || a.clients[d] == g.clients[d]
      ensures a.clients[d].bound.Some? ==> d == c
    {
    }
  }

  lemma PreemptClearsOthers(s: State, newGroup: nat, pid: int)
    requires Inv(s)
    ensures forall g, c :: BoundToPid(Preempt(s, newGroup, FindByImePid(s, pid)), g, c, pid) ==> g == newGroup
  {
    var found := FindByImePid(s, pid);
    var t := Preempt(s, newGroup, found);
    InvIsSafe(s);
    forall g, c | BoundToPid(t, g, c, pid)
      ensures g == newGroup
    {
      assert BoundToPid(s, g, c, pid);
      LookupsAreDeterministic(s, pid, g, c, found.value.0, found.value.1);
    }
  }

  lemma PreemptClearsOtherReal(s: State, newGroup: nat)
    requires Inv(s)
    ensures forall g, c :: BoundToReal(Preempt(s, newGroup, FindBoundReal(s)), g, c) ==> g == newGroup
  {
    var found := FindBoundReal(s);
    var t := Preempt(s, newGroup, found);
    InvIsSafe(s);
    forall g, c | BoundToReal(t, g, c)
      ensures g == newGroup
    {
      assert BoundToReal(s, g, c);
      LookupsAreDeterministic(s, 0, g, c, found.value.0, found.value.1);
    }
  }

  lemma PreemptShrinks(s: State, newGroup: nat, found: Option<(nat, Client)>)
    requires Inv(s)
    requires found.Some? ==> found.value.0 in s && found.value.1 in s[found.value.0].clients
    ensures var t := Preempt(s, newGroup, found);
      && t.Keys == s.Keys && (newGroup in s ==> t[newGroup] == s[newGroup])
      && (forall g, c, pid :: BoundToPid(t, g, c, pid) ==> BoundToPid(s, g, c, pid))
      && (forall u :: Within(s, u) ==> Within(t, u))
  {
  }

  lemma PreemptKeepsValid(s: State, newGroup: nat, found: Option<(nat, Client)>, u: set<Client>)
    requires Inv(s) && Within(s, u)
    requires found.Some? ==> found.value.0 in s && found.value.1 in s[found.value.0].clients
    ensures Inv(Preempt(s, newGroup, found)) && Within(Preempt(s, newGroup, found), u)
  {
    PreemptKeepsInv(s, newGroup, found);
    PreemptShrinks(s, newGroup, found);
  }

  lemma BindKeepsInv(s: State, c: Client, groupId: nat, shown: bool, ime: BindImeData, u: set<Client>)
    requires Inv(s) && Within(s, u) && OnePerProcess(u)
    ensures Inv(Bind(s, c, groupId, shown, ime)) && Within(Bind(s, c, groupId, shown, ime), u)
  {
    if groupId in s && ime.kind != ImeMirror {
      var s1 := Preempt(s, groupId, FindByImePid(s, ime.pid));
      PreemptKeepsInv(s, groupId, FindByImePid(s, ime.pid));
      PreemptClearsOthers(s, groupId, ime.pid);
      PreemptShrinks(s, groupId, FindByImePid(s, ime.pid));
      var s2 := if ime.kind == RealIme then Preempt(s1, groupId, FindBoundReal(s1)) else s1;
      PreemptKeepsInv(s1, groupId, FindBoundReal(s1));
      PreemptClearsOtherReal(s1, groupId);
      PreemptShrinks(s1, groupId, FindBoundReal(s1));
      BindInCleared(s2, c, groupId, shown, ime, u);
    }
  }

  lemma BindInCleared(s: State, c: Client, groupId: nat, shown: bool, ime: BindImeData, u: set<Client>)
    requires Inv(s) && Within(s, u) && OnePerProcess(u) && groupId in s
    requires forall g, d :: BoundToPid(s, g, d, ime.pid) ==> g == groupId
    requires ime.kind == RealIme ==> forall g, d :: BoundToReal(s, g, d) ==> g == groupId
    ensures var t := s[groupId := ReplaceCurrent(Mark(s[groupId], c, shown, ime), c)]; Inv(t) && Within(t, u)
  {
    var a := ReplaceCurrent(Mark(s[groupId], c, shown, ime), c);
    var t := s[groupId := a];
    if c !in s[groupId].clients {
      assert t == s;
    } else {
      ReplaceLeavesOneBinding(groupId, s[groupId], c, shown, ime, u);
      forall g, d, pid | BoundToPid(t, g, d, pid)
        ensures if g == groupId then pid == ime.pid else BoundToPid(s, g, d, pid)
      {
      }
      forall g, d | BoundToReal(t, g, d)
        ensures if g == groupId then ime.kind == RealIme else BoundToReal(s, g, d)
      {
      }
    }
  }

  // ------------------------------------------------------------------- whole runs

  ghost predicate FromUniverse(step: Step, u: set<Client>) {
    step.PrepareInput? ==> step.request.client in u
  }

  lemma NextKeepsInv(s: State, step: Step, u: set<Client>)
    requires Inv(s) && Within(s, u) && OnePerProcess(u) && Enabled(s, step) && FromUniverse(step, u)
    ensures Inv(Next(s, step)) && Within(Next(s, step), u)
  {
    match step
    case PrepareInput(r, added, found) =>
      PrepareKeepsInv(s, r, added, found);
      PreemptShrinks(s, r.groupId, found);
    case StartInput(r, ime, accepted) =>
      StartInputKeepsInv(s, r, ime, accepted, u);
    case SceneBoardStopped =>
      RemoveAllKeepsInv(s);
    case ImeReady(ime, needBind, accepted) =>
      ReadyKeepsInv(s, ime, needBind, accepted, u);
    case ProxyChanged(g, ime, accepted) =>
      BindCurrentKeepsInv(s, g, ime, u);
    case LateBind(c, g, shown, ime, accepted) =>
      BindKeepsInv(s, c, g, shown, ime, u);
    case _ =>
      OneGroupStepKeepsInv(s, step, u);
  }

  lemma ReadyKeepsInv(s: State, ime: BindImeData, needBind: bool, accepted: bool, u: set<Client>)
    requires Inv(s) && Within(s, u) && OnePerProcess(u) && ime.kind == RealIme
    ensures var t := Next(s, ImeReady(ime, needBind, accepted)); Inv(t) && Within(t, u)
  {
    var g := FindCurrentBoundReal(s);
    if g.Some? {
      var cleared := ClearReason(s[g.value]);
      assert Keeps(g.value, cleared, s[g.value]) && cleared.clients.Keys == s[g.value].clients.Keys;
      LocalStepKeepsInv(s, g.value, cleared, u);
      BindCurrentKeepsInv(s[g.value := cleared], g.value, ime, u);
    }
  }

  lemma StartInputKeepsInv(s: State, r: Request, ime: BindImeData, accepted: bool, u: set<Client>)
    requires Inv(s) && Within(s, u) && OnePerProcess(u)
    ensures var t := Next(s, StartInput(r, ime, accepted)); Inv(t) && Within(t, u)
  {
    if r.groupId in s {
      var g := PrepareRebind(s[r.groupId], r.client, ime);
      PrepareRebindKeeps(r.groupId, s[r.groupId], r.client, ime);
      LocalStepKeepsInv(s, r.groupId, g, u);
      BindKeepsInv(s[r.groupId := g], r.client, r.groupId, r.isShowKeyboard, ime, u);
    }
  }

  predicate InOneGroup(step: Step) {
    step.ReleaseInput? || step.ClientDied? || step.Focused? || step.Unfocused? || step.HideRequested? || step.KeyboardShown?
  }

  /** What a step inside one group makes of that group. */
  function GroupAfter(g: Group, step: Step): Group
    requires InOneGroup(step)
  {
    match step
    case ReleaseInput(_, c) => if c in g.clients then Remove(g, c) else g
    case ClientDied(_, c) => if c in g.clients then Evict(g, c) else g
    case Focused(_, curFocused, sceneBoard) =>
      if g.current.None? || curFocused then g
      else if sceneBoard then Deactivate(g, g.current.value) else Remove(g, g.current.value)
    case Unfocused(_, _, curUnfocused, found) =>
      if g.current.None? || curUnfocused || found.None? then g else Remove(g, found.value)
    case HideRequested(_, caller) => RequestHide(g, caller)
    case KeyboardShown(_, c, shown) => Show(g, c, shown)
  }

  lemma GroupAfterKeeps(id: nat, g: Group, step: Step)
    requires GroupOk(id, g) && InOneGroup(step)
    ensures Keeps(id, GroupAfter(g, step), g)
  {
    match step
    case ReleaseInput(_, c) => RemoveKeeps(id, g, c);
    case ClientDied(_, c) => EvictKeeps(id, g, c);
    case Focused(_, _, _) =>
      if g.current.Some? {
        DeactivateKeeps(id, g, g.current.value);
        RemoveKeeps(id, g, g.current.value);
      }
    case Unfocused(_, _, _, found) =>
      if found.Some? {
        RemoveKeeps(id, g, found.value);
      }
    case HideRequested(_, caller) => RequestHideKeeps(id, g, caller);
    case KeyboardShown(_, c, shown) => ShowKeeps(id, g, c, shown);
  }

  lemma GroupAfterRegistersNobody(g: Group, step: Step)
    requires InOneGroup(step)
    ensures var a := GroupAfter(g, step);
      forall c :: c in a.clients ==> c in g.clients && a.clients[c].hostPid == g.clients[c].hostPid
  {
  }

  lemma StepsInOneGroup(s: State, step: Step)
    requires Enabled(s, step) && InOneGroup(step)
    ensures Next(s, step) == if step.g in s then s[step.g := GroupAfter(s[step.g], step)] else s
  {
  }

  lemma OneGroupStepKeepsInv(s: State, step: Step, u: set<Client>)
    requires Inv(s) && Within(s, u) && Enabled(s, step) && InOneGroup(step)
    ensures Inv(Next(s, step)) && Within(Next(s, step), u)
  {
    StepsInOneGroup(s, step);
    if step.g in s {
      var a := GroupAfter(s[step.g], step);
      GroupAfterKeeps(step.g, s[step.g], step);
      GroupAfterRegistersNobody(s[step.g], step);
      assert a.clients.Keys <= s[step.g].clients.Keys;
      LocalStepKeepsInv(s, step.g, a, u);
    }
  }

  lemma BindCurrentKeepsInv(s: State, g: nat, ime: BindImeData, u: set<Client>)
    requires Inv(s) && Within(s, u) && OnePerProcess(u)
    ensures Inv(BindCurrent(s, g, ime)) && Within(BindCurrent(s, g, ime), u)
  {
    if g in s && CurrentInfo(s[g]).Some? {
      var info := CurrentInfo(s[g]).value;
      BindKeepsInv(s, info.client, info.groupId, info.isShowKeyboard, ime, u);
    }
  }

  /** A step inside one group that binds nothing and registers nobody. */
  lemma LocalStepKeepsInv(s: State, g: nat, a: Group, u: set<Client>)
    requires Inv(s) && Within(s, u) && g in s && Keeps(g, a, s[g]) && a.clients.Keys <= s[g].clients.Keys
    ensures Inv(s[g := a]) && Within(s[g := a], u)
  {
    UpdateKeepsInv(s, g, a);
  }

  /** A run from the empty session: `states` are the snapshots before and after each step. */
  ghost predicate Run(states: seq<State>, steps: seq<Step>) {
    && |states| == |steps| + 1
    && states[0] == map[]
    && forall i :: 0 <= i < |steps| ==> Enabled(states[i], steps[i]) && states[i + 1] == Next(states[i], steps[i])
  }

  ghost predicate RunOver(u: set<Client>, states: seq<State>, steps: seq<Step>) {
    Run(states, steps) && forall i :: 0 <= i < |steps| ==> FromUniverse(steps[i], u)
  }

  lemma {:induction false} RunKeepsInv(u: set<Client>, states: seq<State>, steps: seq<Step>, n: nat)
    requires RunOver(u, states, steps) && OnePerProcess(u) && n < |states|
    ensures Inv(states[n]) && Within(states[n], u)
  {
    if n == 0 {
    } else {
      RunKeepsInv(u, states, steps, n - 1);
      NextKeepsInv(states[n - 1], steps[n - 1], u);
    }
  }

  /** With one client object per process, every state of every run is safe. */
  lemma EveryRunIsSafe(u: set<Client>, states: seq<State>, steps: seq<Step>)
    requires OnePerProcess(u) && RunOver(u, states, steps)
    ensures forall n :: 0 <= n < |states| ==> Safe(states[n])
  {
    forall n | 0 <= n < |states|
      ensures Safe(states[n])
    {
      RunKeepsInv(u, states, steps, n);
      InvIsSafe(states[n]);
    }
  }

  lemma Extend(u: set<Client>, states: seq<State>, steps: seq<Step>, step: Step) returns (longer: seq<State>)
    requires RunOver(u, states, steps) && Enabled(states[|steps|], step) && FromUniverse(step, u)
    ensures RunOver(u, longer, steps + [step]) && longer[|steps| + 1] == Next(states[|steps|], step)
  {
    longer := states + [Next(states[|steps|], step)];
  }

  /** The one group when only `r`'s client is there and bound. */
  function OneBound(r: Request, ime: BindImeData): Group {
    Group(map[r.client := BoundInfo(r, ime)], Some(r.client), None)
  }

  lemma FirstAttaches(u: set<Client>, r: Request, ime: BindImeData) returns (states: seq<State>, steps: seq<Step>)
    requires r.client in u && r.groupId == 0 && r.isShowKeyboard && ime.kind == RealIme
    ensures RunOver(u, states, steps) && states[|steps|] == map[0 := OneBound(r, ime)]
  {
    var prepare, start := PrepareInput(r, true, None), StartInput(r, ime, true);
    FirstPrepareInput(r);
    states := Extend(u, [map[]], [], prepare);
    FirstStartInput(r, ime);
    states := Extend(u, states, [prepare], start);
    steps := [prepare, start];
  }

  lemma SecondAttaches(u: set<Client>, ra: Request, rb: Request, ime: BindImeData, before: seq<State>, done: seq<Step>)
    returns (states: seq<State>, steps: seq<Step>)
    requires RunOver(u, before, done) && before[|done|] == map[0 := OneBound(ra, ime)]
    requires rb.client in u && ra.groupId == 0 && rb.groupId == 0 && rb.isShowKeyboard && ime.kind == RealIme
    requires ra.client != rb.client && ra.client.pid == rb.client.pid
    ensures RunOver(u, states, steps)
    ensures Bound(states[|steps|], 0, ra.client) && Bound(states[|steps|], 0, rb.client)
  {
    var prepare, start := PrepareInput(rb, true, Some((0, ra.client))), StartInput(rb, ime, true);
    SecondPrepareInput(ra, rb, ime);
    states := Extend(u, before, done, prepare);
    SecondStartInput(ra, rb, ime);
    steps := done + [prepare];
    states := Extend(u, states, steps, start);
    steps := steps + [start];
  }

  function PlainRequest(c: Client, g: nat): Request {
    Request(c, -1, g, TextConfig("", NONE), 0, 0, true)
  }

  /** Two client objects of one process can both end up bound in their group. */
  lemma SharedProcessBreaksSafety(a: Client, b: Client)
    returns (states: seq<State>, steps: seq<Step>)
    requires a != b && a.pid == b.pid
    ensures RunOver({a, b}, states, steps)
    ensures !AtMostOneBoundPerGroup(states[|steps|])
  {
    var ime := BindImeData(1, RealIme);
    var ra, rb := PlainRequest(a, 0), PlainRequest(b, 0);
    states, steps := FirstAttaches({a, b}, ra, ime);
    states, steps := SecondAttaches({a, b}, ra, rb, ime, states, steps);
  }

  function BoundInfo(r: Request, ime: BindImeData): ClientInfo {
    NewInfo(r).(state := Active, bound := Some(ime))
  }

  lemma FirstPrepareInput(ra: Request)
    requires ra.groupId == 0
    ensures Enabled(map[], PrepareInput(ra, true, None))
    ensures Next(map[], PrepareInput(ra, true, None)) == map[0 := Group(map[ra.client := NewInfo(ra)], None, None)]
  {
  }

  lemma SecondPrepareInput(ra: Request, rb: Request, ime: BindImeData)
    requires ra.groupId == 0 && rb.groupId == 0 && ra.client != rb.client && ra.client.pid == rb.client.pid
    ensures var a, b := ra.client, rb.client;
      var s: State := map[0 := Group(map[a := BoundInfo(ra, ime)], Some(a), None)];
      var step := PrepareInput(rb, true, Some((0, a)));
      && Enabled(s, step)
      && Next(s, step) == map[0 := Group(map[a := BoundInfo(ra, ime), b := NewInfo(rb)], Some(a), None)]
  {
  }

  lemma FirstStartInput(ra: Request, ime: BindImeData)
    requires ime.kind == RealIme && ra.groupId == 0
    ensures var s: State := map[0 := Group(map[ra.client := NewInfo(ra)], None, None)];
      Next(s, StartInput(ra, ime, true)) == map[0 := Group(map[ra.client := BoundInfo(ra, ime)], Some(ra.client), None)]
  {
    var s: State := map[0 := Group(map[ra.client := NewInfo(ra)], None, None)];
    assert s[0 := PrepareRebind(s[0], ra.client, ime)] == s;
    BindInOneGroup(s, ra.client, 0, ra.isShowKeyboard, ime);
    assert Mark(s[0], ra.client, ra.isShowKeyboard, ime) == Group(map[ra.client := BoundInfo(ra, ime)], None, None);
  }

  lemma SecondStartInput(ra: Request, rb: Request, ime: BindImeData)
    requires ime.kind == RealIme && ra.groupId == 0 && rb.groupId == 0
    requires ra.client != rb.client && ra.client.pid == rb.client.pid
    ensures var a, b := ra.client, rb.client;
      var s: State := map[0 := Group(map[a := BoundInfo(ra, ime), b := NewInfo(rb)], Some(a), None)];
      Next(s, StartInput(rb, ime, true)) == map[0 := Group(map[a := BoundInfo(ra, ime), b := BoundInfo(rb, ime)], Some(b), None)]
  {
    var a, b := ra.client, rb.client;
    var s: State := map[0 := Group(map[a := BoundInfo(ra, ime), b := NewInfo(rb)], Some(a), None)];
    assert s[0 := PrepareRebind(s[0], b, ime)] == s;
    BindInOneGroup(s, b, 0, rb.isShowKeyboard, ime);
    assert Mark(s[0], b, rb.isShowKeyboard, ime)
        == Group(map[a := BoundInfo(ra, ime), b := BoundInfo(rb, ime)], Some(a), None);
  }

  lemma BindInOneGroup(s: State, c: Client, g: nat, shown: bool, ime: BindImeData)
    requires s.Keys == {g} && ime.kind != ImeMirror
    requires forall d :: d in s[g].clients ==> s[g].clients[d].groupId == g
    ensures Bind(s, c, g, shown, ime) == s[g := ReplaceCurrent(Mark(s[g], c, shown, ime), c)]
  {
  }

  /** One client object per process is exactly what the safety of all runs needs. */
  lemma SafeIffOnePerProcess(u: set<Client>)
    ensures OnePerProcess(u) <==>
      forall states, steps :: RunOver(u, states, steps) ==> forall n :: 0 <= n < |states| ==> Safe(states[n])
  {
    if OnePerProcess(u) {
      forall states, steps | RunOver(u, states, steps)
        ensures forall n :: 0 <= n < |states| ==> Safe(states[n])
      {
        EveryRunIsSafe(u, states, steps);
      }
    } else {
      var a, b :| a in u && b in u && a.pid == b.pid && a != b;
      var states, steps := SharedProcessBreaksSafety(a, b);
      assert RunOver(u, states, steps);
      assert !Safe(states[|steps|]);
    }
  }

  // -------------------------------------------------- one registration per client

  ghost predicate OneGroupPerClient(s: State) {
    forall g, h, c :: g in s && h in s && c in s[g].clients && c in s[h].clients ==> g == h
  }

  /** No registered client is a UI extension hosted by a process of the universe. */
  ghost predicate NoHosting(s: State, u: set<Client>) {
    forall g, c, d :: g in s && c in s[g].clients && d in u ==> s[g].clients[c].hostPid != d.pid
  }

  /** `t` registers nobody that `s` did not, and moves no host pid. */
  ghost predicate NoNewClient(t: State, s: State) {
    forall g, c :: g in t && c in t[g].clients ==>
      g in s && c in s[g].clients && t[g].clients[c].hostPid == s[g].clients[c].hostPid
  }

  lemma BindRegistersNobody(s: State, c: Client, groupId: nat, shown: bool, ime: BindImeData)
    ensures NoNewClient(Bind(s, c, groupId, shown, ime), s)
  {
    if groupId in s && ime.kind != ImeMirror {
      var s1 := Preempt(s, groupId, FindByImePid(s, ime.pid));
      PreemptRegistersNobody(s, groupId, FindByImePid(s, ime.pid));
      var s2 := if ime.kind == RealIme then Preempt(s1, groupId, FindBoundReal(s1)) else s1;
      PreemptRegistersNobody(s1, groupId, FindBoundReal(s1));
      ReplaceRegistersNobody(s2[groupId], c, shown, ime);
    }
  }

  lemma ReplaceRegistersNobody(g: Group, c: Client, shown: bool, ime: BindImeData)
    ensures var a := ReplaceCurrent(Mark(g, c, shown, ime), c);
      forall d :: d in a.clients ==> d in g.clients && a.clients[d].hostPid == g.clients[d].hostPid
  {
    var m := Mark(g, c, shown, ime);
    if c in m.clients {
      var g1 := m.(current := Some(c));
      var g2 := if Displaces(g1, m.current, c) then Remove(g1, m.current.value) else g1;
      assert g2.clients.Keys <= m.clients.Keys;
    }
  }

  lemma OnlyPrepareRegisters(s: State, step: Step)
    requires Enabled(s, step) && !step.PrepareInput?
    ensures NoNewClient(Next(s, step), s)
  {
    match step
    case StartInput(r, ime, accepted) =>
      if r.groupId in s {
        var s1 := s[r.groupId := PrepareRebind(s[r.groupId], r.client, ime)];
        assert NoNewClient(s1, s);
        BindRegistersNobody(s1, r.client, r.groupId, r.isShowKeyboard, ime);
      }
    case ImeReady(ime, _, _) =>
      var g := FindCurrentBoundReal(s);
      if g.Some? {
        var s1 := s[g.value := ClearReason(s[g.value])];
        assert NoNewClient(s1, s);
        BindCurrentRegistersNobody(s1, g.value, ime);
      }
    case ProxyChanged(g, ime, _) =>
      BindCurrentRegistersNobody(s, g, ime);
    case LateBind(c, g, shown, ime, _) =>
      BindRegistersNobody(s, c, g, shown, ime);
    case SceneBoardStopped =>
      RemoveAllRegistersNobody(s);
    case _ =>
      LocalStepRegistersNobody(s, step);
  }

  lemma LocalStepRegistersNobody(s: State, step: Step)
    requires Enabled(s, step) && InOneGroup(step)
    ensures NoNewClient(Next(s, step), s)
  {
    StepsInOneGroup(s, step);
    if step.g in s {
      GroupAfterRegistersNobody(s[step.g], step);
    }
  }

  lemma RemoveAllRegistersNobody(s: State)
    ensures NoNewClient(RemoveAllCurrent(s), s)
  {
  }

  lemma BindCurrentRegistersNobody(s: State, g: nat, ime: BindImeData)
    ensures NoNewClient(BindCurrent(s, g, ime), s)
  {
    if g in s && CurrentInfo(s[g]).Some? {
      var info := CurrentInfo(s[g]).value;
      BindRegistersNobody(s, info.client, info.groupId, info.isShowKeyboard, ime);
    }
  }

  /** Attaching in a new group ends the old registration. */
  lemma PrepareMovesRegistration(s: State, r: Request, added: bool, found: Option<(nat, Client)>, u: set<Client>)
    requires Inv(s) && Within(s, u) && OnePerProcess(u) && r.client in u
    requires OneGroupPerClient(s) && NoHosting(s, u)
    requires FoundBySelfOrHost(s, r.client.pid, found)
    requires forall d :: d in u ==> r.hostPid != d.pid
    ensures OneGroupPerClient(Prepare(s, r, added, found)) && NoHosting(Prepare(s, r, added, found), u)
  {
    var s1 := Preempt(s, r.groupId, found);
    PreemptRegistersNobody(s, r.groupId, found);
    forall g | g in s1 && r.client in s1[g].clients
      ensures g == r.groupId
    {
      assert OfProcess(s[g], r.client, r.client.pid);
      assert found.Some?;
      FoundIsSelf(s[found.value.0], r.client.pid, found.value.1, u);
      assert found.value.1 == r.client && found.value.0 == g;
      assert GroupOk(g, s[g]);
    }
    assert OneGroupPerClient(s1) && NoHosting(s1, u);
    var g := if r.groupId in s1 then s1[r.groupId] else EMPTY_GROUP;
    RegisterOnce(s1, r, g, u);
  }

  lemma FoundIsSelf(g: Group, pid: int, c: Client, u: set<Client>)
    requires FoundInGroup(g, pid, Some(c)) && g.clients.Keys <= u
    requires exists d :: d in u && d.pid == pid
    requires forall e, d :: e in g.clients && d in u ==> g.clients[e].hostPid != d.pid
    ensures OfProcess(g, c, pid)
  {
  }

  lemma PreemptRegistersNobody(s: State, newGroup: nat, found: Option<(nat, Client)>)
    requires found.Some? ==> found.value.0 in s && found.value.1 in s[found.value.0].clients
    ensures NoNewClient(Preempt(s, newGroup, found), s)
  {
  }

  lemma RegisterOnce(s: State, r: Request, g: Group, u: set<Client>)
    requires OneGroupPerClient(s) && NoHosting(s, u)
    requires g == if r.groupId in s then s[r.groupId] else EMPTY_GROUP
    requires forall h :: h in s && r.client in s[h].clients ==> h == r.groupId
    requires forall d :: d in u ==> r.hostPid != d.pid
    ensures OneGroupPerClient(s[r.groupId := Add(g, r)]) && NoHosting(s[r.groupId := Add(g, r)], u)
  {
  }

  lemma {:induction false} EveryClientInOneGroup(u: set<Client>, states: seq<State>, steps: seq<Step>, n: nat)
    requires OnePerProcess(u) && RunOver(u, states, steps) && n < |states|
    requires forall i :: 0 <= i < |steps| && steps[i].PrepareInput? ==>
      forall d :: d in u ==> steps[i].request.hostPid != d.pid
    ensures OneGroupPerClient(states[n]) && NoHosting(states[n], u)
  {
    if n == 0 {
    } else {
      EveryClientInOneGroup(u, states, steps, n - 1);
      RunKeepsInv(u, states, steps, n - 1);
      var s, step := states[n - 1], steps[n - 1];
      if step.PrepareInput? {
        PrepareMovesRegistration(s, step.request, step.added, step.found, u);
      } else {
        OnlyPrepareRegisters(s, step);
      }
    }
  }
}
