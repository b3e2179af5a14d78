/** Binds that overlap.

    No lock spans the clean-ups of a bind and its marking of the client, so another bind may come in
    between.  Here the two are separate steps; each search of a clean-up may have been made long
    before the client it found is evicted. */
module BindOverlap {
  import opened Options
  import opened ClientBinding
  import opened ClientBindingProofs

  /** A bind that the IME accepted. */
  datatype Binding = Binding(c: Client, g: nat, shown: bool, ime: BindImeData)

  /** The marking of the client and the replacement of the current one. */
  function Placed(s: State, b: Binding): State {
    if b.g in s then s[b.g := ReplaceCurrent(Mark(s[b.g], b.c, b.shown, b.ime), b.c)] else s
  }

  datatype PartStep =
    | Whole(step: Step)
    | Rebind(g: nat, c: Client, ime: BindImeData)
    | Forget(g: nat)
    | CleanUp(newGroup: nat, found: Option<(nat, Client)>)
    | Place(b: Binding)

  predicate Binds(step: Step) {
    step.StartInput? || step.ImeReady? || step.ProxyChanged? || step.LateBind?
  }

  ghost predicate CanDo(s: State, p: PartStep) {
    match p
    case Whole(step) => Enabled(s, step) && !Binds(step)
    case Rebind(_, _, _) => true
    case Forget(_) => true
    case CleanUp(_, found) => found.Some? ==> Registered(s, found.value.0, found.value.1)
    case Place(b) => b.ime.kind != ImeMirror
  }

  ghost function Do(s: State, p: PartStep): State
    requires CanDo(s, p)
  {
    match p
    case Whole(step) => Next(s, step)
    case Rebind(g, c, ime) => if g in s then s[g := PrepareRebind(s[g], c, ime)] else s
    case Forget(g) => if g in s then s[g := ClearReason(s[g])] else s
    case CleanUp(newGroup, found) => Preempt(s, newGroup, found)
    case Place(b) => Placed(s, b)
  }

  /** A bind with nothing in between is its two clean-ups and the placing. */
  lemma BindIsItsParts(s: State, b: Binding)
    requires Inv(s) && b.g in s && b.ime.kind != ImeMirror
    ensures var same := CleanUp(b.g, FindByImePid(s, b.ime.pid));
      && CanDo(s, same)
      && var s1 := Do(s, same);
      var other := CleanUp(b.g, if b.ime.kind == RealIme then FindBoundReal(s1) else None);
      CanDo(s1, other) && Bind(s, b.c, b.g, b.shown, b.ime) == Do(Do(s1, other), Place(b))
  {
    PreemptShrinks(s, b.g, FindByImePid(s, b.ime.pid));
  }

  /** No other group has a client bound to the process or, for a real IME, to a real one. */
  ghost predicate ClearFor(s: State, b: Binding) {
    && (forall g, d :: BoundToPid(s, g, d, b.ime.pid) ==> g == b.g)
    && (b.ime.kind == RealIme ==> forall g, d :: BoundToReal(s, g, d) ==> g == b.g)
  }

  ghost predicate Takes(s: State, b: Binding) {
    Registered(s, b.g, b.c)
  }

  /** Placing a client keeps the session safe exactly if no other group holds its IME at that moment. */
  lemma PlacedIsSafeIff(s: State, b: Binding, u: set<Client>)
    requires Inv(s) && Within(s, u) && OnePerProcess(u) && Takes(s, b)
    ensures Safe(Placed(s, b)) <==> ClearFor(s, b)
    ensures ClearFor(s, b) ==> Inv(Placed(s, b)) && Within(Placed(s, b), u)
  {
    var t := Placed(s, b);
    if ClearFor(s, b) {
      BindInCleared(s, b.c, b.g, b.shown, b.ime, u);
      InvIsSafe(t);
    } else {
      ReplaceLeavesOneBinding(b.g, s[b.g], b.c, b.shown, b.ime, u);
      assert BoundToPid(t, b.g, b.c, b.ime.pid);
      assert b.ime.kind == RealIme ==> BoundToReal(t, b.g, b.c);
      if g, d :| BoundToPid(s, g, d, b.ime.pid) && g != b.g {
        assert BoundToPid(t, g, d, b.ime.pid);
      } else {
        var g, d :| BoundToReal(s, g, d) && g != b.g;
        assert BoundToReal(t, g, d);
      }
    }
  }

  /** The binding of an unregistered client changes nothing. */
  lemma PlacedUnregistered(s: State, b: Binding)
    requires !Takes(s, b)
    ensures Placed(s, b) == s
  {
  }

  /** A client is placed while another group holds its IME. */
  ghost predicate Collides(s: State, p: PartStep) {
    p.Place? && Takes(s, p.b) && !ClearFor(s, p.b)
  }

  ghost predicate FromClients(p: PartStep, u: set<Client>) {
    p.Whole? ==> FromUniverse(p.step, u)
  }

  lemma RebindKeeps(s: State, g: nat, c: Client, ime: BindImeData, u: set<Client>)
    requires Inv(s) && Within(s, u) && g in s
    ensures var t := s[g := PrepareRebind(s[g], c, ime)]; Inv(t) && Within(t, u)
  {
    PrepareRebindKeeps(g, s[g], c, ime);
    LocalStepKeepsInv(s, g, PrepareRebind(s[g], c, ime), u);
  }

  lemma ForgetKeeps(s: State, g: nat, u: set<Client>)
    requires Inv(s) && Within(s, u) && g in s
    ensures var t := s[g := ClearReason(s[g])]; Inv(t) && Within(t, u)
  {
    assert Keeps(g, ClearReason(s[g]), s[g]);
    LocalStepKeepsInv(s, g, ClearReason(s[g]), u);
  }

  /** One step of overlapping calls keeps the session safe exactly if it is not such a placing. */
  lemma SafeStepIff(s: State, p: PartStep, u: set<Client>)
    requires Inv(s) && Within(s, u) && OnePerProcess(u) && CanDo(s, p) && FromClients(p, u)
    ensures Safe(Do(s, p)) <==> !Collides(s, p)
    ensures !Collides(s, p) ==> Inv(Do(s, p)) && Within(Do(s, p), u)
  {
    match p
    case Whole(step) =>
      NextKeepsInv(s, step, u);
      InvIsSafe(Do(s, p));
    case Rebind(g, c, ime) =>
      if g in s {
        RebindKeeps(s, g, c, ime, u);
      }
      InvIsSafe(Do(s, p));
    case Forget(g) =>
      if g in s {
        ForgetKeeps(s, g, u);
      }
      InvIsSafe(Do(s, p));
    case CleanUp(newGroup, found) =>
      PreemptKeepsValid(s, newGroup, found, u);
      InvIsSafe(Do(s, p));
    case Place(b) =>
      if Takes(s, b) {
        PlacedIsSafeIff(s, b, u);
      } else {
        PlacedUnregistered(s, b);
        InvIsSafe(s);
      }
  }

  // ------------------------------------------------------------------- whole runs

  ghost predicate PartRun(u: set<Client>, ss: seq<State>, ps: seq<PartStep>) {
    && |ss| == |ps| + 1 && ss[0] == map[]
    && forall i :: 0 <= i < |ps| ==> CanDo(ss[i], ps[i]) && FromClients(ps[i], u) && ss[i + 1] == Do(ss[i], ps[i])
  }

  ghost predicate NoCollision(ss: seq<State>, ps: seq<PartStep>, n: nat) {
    |ss| == |ps| + 1 && n < |ss| && forall i :: 0 <= i < n ==> !Collides(ss[i], ps[i])
  }

  lemma {:induction false} RunWithoutCollision(u: set<Client>, ss: seq<State>, ps: seq<PartStep>, n: nat)
    requires PartRun(u, ss, ps) && OnePerProcess(u) && NoCollision(ss, ps, n)
    ensures Inv(ss[n]) && Within(ss[n], u)
  {
    if n == 0 {
    } else {
      RunWithoutCollision(u, ss, ps, n - 1);
      SafeStepIff(ss[n - 1], ps[n - 1], u);
    }
  }

  ghost predicate SafeUntil(ss: seq<State>, n: nat) {
    n < |ss| && forall i :: 0 <= i <= n ==> Safe(ss[i])
  }

  /** Calls may overlap: a run stays safe exactly as long as no client is placed while another group
      holds its IME. */
  lemma {:induction false} SafeIffNoCollision(u: set<Client>, ss: seq<State>, ps: seq<PartStep>, n: nat)
    requires PartRun(u, ss, ps) && OnePerProcess(u) && n < |ss|
    ensures SafeUntil(ss, n) <==> NoCollision(ss, ps, n)
  {
    if n == 0 {
      InvIsSafe(ss[0]);
    } else {
      SafeIffNoCollision(u, ss, ps, n - 1);
      SafeUntilNext(ss, n);
      NoCollisionNext(ss, ps, n);
      if NoCollision(ss, ps, n - 1) {
        RunWithoutCollision(u, ss, ps, n - 1);
        SafeStepIff(ss[n - 1], ps[n - 1], u);
        assert ss[n] == Do(ss[n - 1], ps[n - 1]);
      }
    }
  }

  lemma SafeUntilNext(ss: seq<State>, n: nat)
    requires 0 < n < |ss|
    ensures SafeUntil(ss, n) <==> SafeUntil(ss, n - 1) && Safe(ss[n])
  {
  }

  lemma NoCollisionNext(ss: seq<State>, ps: seq<PartStep>, n: nat)
    requires |ss| == |ps| + 1 && 0 < n < |ss|
    ensures NoCollision(ss, ps, n) <==> NoCollision(ss, ps, n - 1) && !Collides(ss[n - 1], ps[n - 1])
  {
  }

  // ------------------------------------------- what may come between clean-up and placing

  /** After its two clean-ups a bind is clear. */
  lemma CleanUpsClear(s: State, b: Binding)
    requires Inv(s)
    ensures ClearFor(ClearOtherGroups(s, b.g, b.ime), b)
  {
    var found := FindByImePid(s, b.ime.pid);
    var s1 := Preempt(s, b.g, found);
    PreemptKeepsInv(s, b.g, found);
    PreemptClearsOthers(s, b.g, b.ime.pid);
    if b.ime.kind == RealIme {
      PreemptClearsOtherReal(s1, b.g);
      PreemptShrinks(s1, b.g, FindBoundReal(s1));
    }
  }

  /** Every binding of `t` was already in `s`. */
  ghost predicate BindsNothingNew(t: State, s: State) {
    forall g, c :: Bound(t, g, c) ==> Bound(s, g, c) && t[g].clients[c].bound == s[g].clients[c].bound
  }

  lemma OnlyPlacingBinds(s: State, p: PartStep)
    requires Inv(s) && CanDo(s, p) && !p.Place?
    ensures BindsNothingNew(Do(s, p), s)
  {
    match p
    case Whole(step) => WholeBindsNothing(s, step);
    case Rebind(g, c, ime) =>
      if g in s {
        PrepareRebindKeeps(g, s[g], c, ime);
      }
    case Forget(_) =>
    case CleanUp(_, found) =>
      if found.Some? {
        EvictKeeps(found.value.0, s[found.value.0], s[found.value.0].clients[found.value.1].client);
      }
  }

  lemma WholeBindsNothing(s: State, step: Step)
    requires Inv(s) && Enabled(s, step) && !Binds(step)
    ensures BindsNothingNew(Next(s, step), s)
  {
    if InOneGroup(step) {
      StepsInOneGroup(s, step);
      if step.g in s {
        GroupAfterKeeps(step.g, s[step.g], step);
      }
    } else if step.PrepareInput? {
      AttachBindsNothing(s, step.request, step.added, step.found);
    } else {
      RemoveAllBindsNothing(s);
    }
  }

  lemma RemoveAllBindsNothing(s: State)
    requires Inv(s)
    ensures BindsNothingNew(RemoveAllCurrent(s), s)
  {
    forall g | g in s && s[g].current.Some?
      ensures Keeps(g, RemoveCurrent(s[g]), s[g])
    {
      RemoveKeeps(g, s[g], s[g].current.value);
    }
  }

  lemma AttachBindsNothing(s: State, r: Request, added: bool, found: Option<(nat, Client)>)
    requires Inv(s)
    requires found.Some? ==> found.value.0 in s && found.value.1 in s[found.value.0].clients
    ensures BindsNothingNew(Prepare(s, r, added, found), s)
  {
    var s1 := Preempt(s, r.groupId, found);
    PreemptKeepsInv(s, r.groupId, found);
    if found.Some? {
      EvictKeeps(found.value.0, s[found.value.0], s[found.value.0].clients[found.value.1].client);
    }
    assert BindsNothingNew(s1, s);
    AddKeeps(r.groupId, if r.groupId in s1 then s1[r.groupId] else EMPTY_GROUP, r);
  }

  /** Another bind takes the IME, or the one place of real IMEs, into another group. */
  predicate Rivals(b: Binding, c: Binding) {
    b.g != c.g && (b.ime.pid == c.ime.pid || (b.ime.kind == RealIme && c.ime.kind == RealIme))
  }

  /** A bind that is clear stays clear over a step exactly if the step does not place a rival. */
  lemma ClearStepIff(s: State, p: PartStep, b: Binding, u: set<Client>)
    requires Inv(s) && Within(s, u) && OnePerProcess(u) && CanDo(s, p) && ClearFor(s, b)
    ensures ClearFor(Do(s, p), b) <==> !(p.Place? && Takes(s, p.b) && Rivals(p.b, b))
  {
    if !p.Place? {
      OnlyPlacingBinds(s, p);
      NothingNewStaysClear(Do(s, p), s, b);
    } else if !Takes(s, p.b) {
      PlacedUnregistered(s, p.b);
    } else {
      RivalIff(s, p.b, b, u);
    }
  }

  lemma NothingNewStaysClear(t: State, s: State, b: Binding)
    requires BindsNothingNew(t, s) && ClearFor(s, b)
    ensures ClearFor(t, b)
  {
    forall g, d | BoundToPid(t, g, d, b.ime.pid)
      ensures g == b.g
    {
      assert Bound(t, g, d);
      assert BoundToPid(s, g, d, b.ime.pid);
    }
    forall g, d | b.ime.kind == RealIme && BoundToReal(t, g, d)
      ensures g == b.g
    {
      assert Bound(t, g, d);
      assert BoundToReal(s, g, d);
    }
  }

  lemma RivalIff(s: State, c: Binding, b: Binding, u: set<Client>)
    requires Inv(s) && Within(s, u) && OnePerProcess(u) && Takes(s, c) && ClearFor(s, b)
    ensures ClearFor(Placed(s, c), b) <==> !Rivals(c, b)
  {
    var t := Placed(s, c);
    ReplaceLeavesOneBinding(c.g, s[c.g], c.c, c.shown, c.ime, u);
    assert BoundToPid(t, c.g, c.c, c.ime.pid);
    assert c.ime.kind == RealIme ==> BoundToReal(t, c.g, c.c);
    if !Rivals(c, b) {
      forall g, d | BoundToPid(t, g, d, b.ime.pid)
        ensures g == b.g
      {
        assert g != c.g ==> BoundToPid(s, g, d, b.ime.pid);
      }
      forall g, d | b.ime.kind == RealIme && BoundToReal(t, g, d)
        ensures g == b.g
      {
        assert g != c.g ==> BoundToReal(s, g, d);
      }
    }
  }

  // ------------------------------------------------------------- a run that collides

  lemma Extend(u: set<Client>, ss: seq<State>, ps: seq<PartStep>, p: PartStep)
    returns (ss1: seq<State>, ps1: seq<PartStep>)
    requires PartRun(u, ss, ps) && CanDo(ss[|ps|], p) && FromClients(p, u)
    ensures PartRun(u, ss1, ps1) && ps1 == ps + [p] && ss1[|ps1|] == Do(ss[|ps|], p)
  {
    ss1, ps1 := ss + [Do(ss[|ps|], p)], ps + [p];
  }

  function Alone(r: Request): Group {
    Group(map[r.client := NewInfo(r)], None, None)
  }

  lemma TwoAttach(u: set<Client>, ra: Request, rb: Request) returns (ss: seq<State>, ps: seq<PartStep>)
    requires ra.client in u && rb.client in u && ra.client.pid != rb.client.pid
    requires ra.groupId == 0 && rb.groupId == 1 && ra.hostPid != rb.client.pid
    ensures PartRun(u, ss, ps) && ss[|ps|] == map[0 := Alone(ra), 1 := Alone(rb)]
  {
    var first, second := PrepareInput(ra, true, None), PrepareInput(rb, true, None);
    ss, ps := [map[]], [];
    assert Enabled(ss[0], first) && Next(ss[0], first) == map[0 := Alone(ra)];
    ss, ps := Extend(u, ss, ps, Whole(first));
    assert Next(ss[|ps|], second) == map[0 := Alone(ra), 1 := Alone(rb)];
    ss, ps := Extend(u, ss, ps, Whole(second));
  }

  lemma OverlapPlaces(ra: Request, rb: Request, ime: BindImeData)
    requires ra.client.pid != rb.client.pid && ime.kind == RealIme
    ensures var s: State := map[0 := Alone(ra), 1 := Alone(rb)];
      var a, b := Binding(ra.client, 0, true, ime), Binding(rb.client, 1, true, ime);
      && FindByImePid(s, ime.pid).None? && FindBoundReal(s).None?
      && !RealImeInOneGroup(Placed(Placed(s, a), b))
  {
    var s: State := map[0 := Alone(ra), 1 := Alone(rb)];
    var a, b := Binding(ra.client, 0, true, ime), Binding(rb.client, 1, true, ime);
    var t := Placed(Placed(s, a), b);
    assert BoundToReal(t, 0, ra.client) && BoundToReal(t, 1, rb.client);
  }

  /** Two clients of different processes and groups: both binds clean up before either places its client,
      and both end up bound to the real IME. */
  lemma OverlapBreaksSafety(a: Client, b: Client) returns (ss: seq<State>, ps: seq<PartStep>)
    requires a.pid != b.pid && b.pid != -1
    ensures PartRun({a, b}, ss, ps) && !RealImeInOneGroup(ss[|ps|])
  {
    var ime := BindImeData(1, RealIme);
    var ra, rb := PlainRequest(a, 0), PlainRequest(b, 1);
    OverlapPlaces(ra, rb, ime);
    ss, ps := TwoAttach({a, b}, ra, rb);
    ss, ps := Extend({a, b}, ss, ps, CleanUp(0, None));
    ss, ps := Extend({a, b}, ss, ps, CleanUp(1, None));
    ss, ps := Extend({a, b}, ss, ps, Place(Binding(a, 0, true, ime)));
    ss, ps := Extend({a, b}, ss, ps, Place(Binding(b, 1, true, ime)));
  }
}
