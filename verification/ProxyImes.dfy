/** Proxy input methods registered per display; the last of a display's list is the one in use. */
module ProxyImes {
  import opened Options

  /** `since` is the time of the latest registration, or -1 for the proxy that was put in front of an
      enabled one; the service keeps no such mark, it only explains the order. */
  datatype Proxy = Proxy(pid: int, uid: int, since: int)

  type Lists = map<nat, seq<Proxy>>

  datatype State = State(lists: Lists, isFirstPreemption: bool, now: nat)

  const INITIAL := State(map[], false, 0)

  function ListOf(ls: Lists, d: nat): seq<Proxy> { if d in ls then ls[d] else [] }

  /** Position of the process, or the length. */
  function IndexOf(l: seq<Proxy>, pid: int): (i: nat)
    ensures i <= |l| && (i < |l| ==> l[i].pid == pid) && forall j :: 0 <= j < i ==> l[j].pid != pid
  {
    if l == [] || l[0].pid == pid then 0 else
    var i := IndexOf(l[1..], pid);
    assert forall j :: 1 <= j < 1 + i ==> l[j] == l[1..][j - 1];
    1 + i
  }

  predicate Has(l: seq<Proxy>, pid: int) { IndexOf(l, pid) < |l| }

  function Without(l: seq<Proxy>, pid: int): seq<Proxy> {
    var i := IndexOf(l, pid);
    if i < |l| then l[..i] + l[i + 1..] else l
  }

  /** Whether the new proxy goes in front: once ever, when the top is enabled and the new one is not. */
  predicate GoesInFront(s: State, d: nat, lastEnabled: bool, newEnabled: bool) {
    ListOf(s.lists, d) != [] && !s.isFirstPreemption && lastEnabled && !newEnabled
  }

  /** `filled`: the new record could be completed.  A failed attempt may leave an empty list behind. */
  function Register(s: State, d: nat, pid: int, uid: int, filled: bool, lastEnabled: bool, newEnabled: bool): State {
    var l := ListOf(s.lists, d);
    var t := s.(now := s.now + 1);
    if Has(l, pid) then t.(lists := s.lists[d := Without(l, pid) + [l[IndexOf(l, pid)].(since := s.now)]])
    else if !filled then t.(lists := s.lists[d := l])
    else if GoesInFront(s, d, lastEnabled, newEnabled) then
      t.(lists := s.lists[d := [Proxy(pid, uid, -1)] + l], isFirstPreemption := true)
    else
      t.(lists := s.lists[d := l + [Proxy(pid, uid, s.now)]], isFirstPreemption := s.isFirstPreemption || l != [])
  }

  /** A new proxy goes in front exactly the first time that one meets a display in use, if the top there is
      enabled and it is not; otherwise it becomes the top. */
  lemma FrontIff(s: State, d: nat, pid: int, uid: int, lastEnabled: bool, newEnabled: bool)
    requires !Has(ListOf(s.lists, d), pid)
    ensures var l := ListOf(s.lists, d);
      var t := Register(s, d, pid, uid, true, lastEnabled, newEnabled);
      && d in t.lists
      && t.lists[d] == (
           if l != [] && !s.isFirstPreemption && lastEnabled && !newEnabled then [Proxy(pid, uid, -1)] + l
           else l + [Proxy(pid, uid, s.now)])
      && (t.isFirstPreemption <==> s.isFirstPreemption || l != [])
      && forall e :: e != d ==> ListOf(t.lists, e) == ListOf(s.lists, e)
  {
  }

  function Trim(ls: Lists, d: nat, l: seq<Proxy>): Lists {
    if l == [] then ls - {d} else ls[d := l]
  }

  function Unregister(s: State, d: nat, pid: int): State {
    if d in s.lists then s.(lists := Trim(s.lists, d, Without(s.lists[d], pid))) else s
  }

  /** The process died: it leaves every display, and displays without proxies go. */
  function Died(s: State, pid: int): State {
    s.(lists := map d | d in s.lists && Without(s.lists[d], pid) != [] :: Without(s.lists[d], pid))
  }

  function Top(s: State, d: nat): Option<Proxy> {
    var l := ListOf(s.lists, d);
    if l == [] then None else Some(l[|l| - 1])
  }

  datatype Step =
    | RegisterProxy(d: nat, pid: int, uid: int, filled: bool, lastEnabled: bool, newEnabled: bool)
    | UnregisterProxy(d: nat, pid: int)
    | ProxyDied(pid: int)

  function Next(s: State, step: Step): State {
    match step
    case RegisterProxy(d, pid, uid, filled, lastEnabled, newEnabled) =>
      Register(s, d, pid, uid, filled, lastEnabled, newEnabled)
    case UnregisterProxy(d, pid) => Unregister(s, d, pid)
    case ProxyDied(pid) => Died(s, pid)
  }

  // ------------------------------------------------------------------ invariants

  ghost predicate UniquePids(l: seq<Proxy>) {
    forall i, j :: 0 <= i < j < |l| ==> l[i].pid != l[j].pid
  }

  /** Later in the list means registered later. */
  ghost predicate ByLatestRegistration(l: seq<Proxy>) {
    forall i, j :: 0 <= i < j < |l| ==> l[i].since < l[j].since
  }

  ghost predicate ListOk(s: State, l: seq<Proxy>) {
    && UniquePids(l) && ByLatestRegistration(l)
    && forall i :: 0 <= i < |l| ==> -1 <= l[i].since < s.now && (l[i].since == -1 ==> s.isFirstPreemption)
  }

  ghost predicate Inv(s: State) {
    forall d :: d in s.lists ==> ListOk(s, s.lists[d])
  }

  lemma WithoutAt(l: seq<Proxy>, pid: int, j: nat)
    requires Has(l, pid) && j < |Without(l, pid)|
    ensures |Without(l, pid)| == |l| - 1
    ensures Without(l, pid)[j] == if j < IndexOf(l, pid) then l[j] else l[j + 1]
  {
  }

  lemma WithoutLosesPid(l: seq<Proxy>, pid: int)
    requires UniquePids(l)
    ensures !Has(Without(l, pid), pid)
  {
  }

  lemma WithoutKeepsOk(s: State, l: seq<Proxy>, pid: int)
    requires ListOk(s, l)
    ensures ListOk(s, Without(l, pid)) && !Has(Without(l, pid), pid)
  {
    var r := Without(l, pid);
    WithoutLosesPid(l, pid);
    if Has(l, pid) {
      forall i, j | 0 <= i < j < |r|
        ensures r[i].pid != r[j].pid && r[i].since < r[j].since
      {
        WithoutAt(l, pid, i);
        WithoutAt(l, pid, j);
      }
      forall i | 0 <= i < |r|
        ensures r[i] in l
      {
        WithoutAt(l, pid, i);
      }
    }
  }

  lemma AppendKeepsOk(s: State, l: seq<Proxy>, p: Proxy)
    requires ListOk(s, l) && !Has(l, p.pid) && p.since == s.now
    ensures ListOk(s.(now := s.now + 1), l + [p])
  {
  }

  /** A list stays in order as time passes and the one front insertion gets used up. */
  lemma StaysOk(s: State, t: State, l: seq<Proxy>)
    requires ListOk(s, l) && s.now <= t.now && (s.isFirstPreemption ==> t.isFirstPreemption)
    ensures ListOk(t, l)
  {
  }

  /** The list that a registration makes of the display's list. */
  function RegisteredList(s: State, d: nat, pid: int, uid: int, filled: bool, lastEnabled: bool, newEnabled: bool): seq<Proxy> {
    Register(s, d, pid, uid, filled, lastEnabled, newEnabled).lists[d]
  }

  lemma RegisterKeepsOk(s: State, d: nat, pid: int, uid: int, filled: bool, lastEnabled: bool, newEnabled: bool)
    requires Inv(s)
    ensures ListOk(Register(s, d, pid, uid, filled, lastEnabled, newEnabled),
                   RegisteredList(s, d, pid, uid, filled, lastEnabled, newEnabled))
  {
    var l := ListOf(s.lists, d);
    var t := Register(s, d, pid, uid, filled, lastEnabled, newEnabled);
    assert ListOk(s, l);
    if Has(l, pid) {
      WithoutKeepsOk(s, l, pid);
      AppendKeepsOk(s, Without(l, pid), l[IndexOf(l, pid)].(since := s.now));
    } else if filled && !GoesInFront(s, d, lastEnabled, newEnabled) {
      AppendKeepsOk(s, l, Proxy(pid, uid, s.now));
      StaysOk(s.(now := s.now + 1), t, l + [Proxy(pid, uid, s.now)]);
    } else {
      StaysOk(s, t, l);
    }
  }

  /** What a step leaves on a display it does not register on. */
  lemma UntouchedOrWithout(s: State, step: Step, d: nat)
    requires d in Next(s, step).lists && !(step.RegisterProxy? && d == step.d)
    ensures d in s.lists
    ensures var l := Next(s, step).lists[d]; l == s.lists[d] || l == Without(s.lists[d], step.pid)
  {
  }

  lemma NextKeepsInv(s: State, step: Step)
    requires Inv(s)
    ensures Inv(Next(s, step))
  {
    var t := Next(s, step);
    forall d | d in t.lists
      ensures ListOk(t, t.lists[d])
    {
      if step.RegisterProxy? && d == step.d {
        RegisterKeepsOk(s, d, step.pid, step.uid, step.filled, step.lastEnabled, step.newEnabled);
      } else {
        UntouchedOrWithout(s, step, d);
        WithoutKeepsOk(s, s.lists[d], step.pid);
        StaysOk(s, t, t.lists[d]);
      }
    }
  }

  function Run(steps: seq<Step>): State {
    if steps == [] then INITIAL else Next(Run(steps[..|steps| - 1]), steps[|steps| - 1])
  }

  /** After any run every display's proxies are distinct and in order of latest registration, and at
      most one proxy overall is out of that order, the one put in front. */
  lemma {:induction false} RunKeepsOrder(steps: seq<Step>)
    ensures Inv(Run(steps))
    ensures forall d :: d in Run(steps).lists ==>
      UniquePids(Run(steps).lists[d]) && ByLatestRegistration(Run(steps).lists[d])
    ensures OneInFront(Run(steps))
  {
    if steps == [] {
    } else {
      RunKeepsOrder(steps[..|steps| - 1]);
      NextKeepsInv(Run(steps[..|steps| - 1]), steps[|steps| - 1]);
      OneInFrontKept(Run(steps[..|steps| - 1]), steps[|steps| - 1]);
    }
  }

  predicate InFrontAt(s: State, d: nat, i: nat) {
    d in s.lists && i < |s.lists[d]| && s.lists[d][i].since == -1
  }

  ghost predicate OneInFront(s: State) {
    && (forall d, e, i, j :: InFrontAt(s, d, i) && InFrontAt(s, e, j) ==> d == e && i == 0 && j == 0)
    && (forall d, i :: InFrontAt(s, d, i) ==> s.isFirstPreemption)
  }

  lemma MarkedIsFirst(s: State, l: seq<Proxy>, i: nat)
    requires ListOk(s, l) && i < |l| && l[i].since == -1
    ensures i == 0
  {
    assert -1 <= l[0].since;
  }

  lemma WithoutIsPart(l: seq<Proxy>, pid: int, p: Proxy)
    requires p in Without(l, pid)
    ensures p in l
  {
  }

  lemma OneInFrontKept(s: State, step: Step)
    requires Inv(s) && OneInFront(s)
    ensures OneInFront(Next(s, step))
  {
    var t := Next(s, step);
    NextKeepsInv(s, step);
    forall d: nat, i: nat | InFrontAt(t, d, i)
      ensures i == 0 && t.isFirstPreemption
      ensures InFrontAt(s, d, 0) || (step.RegisterProxy? && d == step.d && !s.isFirstPreemption)
    {
      MarkedIsFirst(t, t.lists[d], i);
      InFrontComesFrom(s, step, d, t.lists[d][i]);
    }
  }

  /** A proxy marked as put in front was so before, or this step put it there. */
  lemma InFrontComesFrom(s: State, step: Step, d: nat, p: Proxy)
    requires Inv(s) && d in Next(s, step).lists && p in Next(s, step).lists[d] && p.since == -1
    ensures InFrontAt(s, d, 0) || (step.RegisterProxy? && d == step.d && !s.isFirstPreemption)
  {
    var l := ListOf(s.lists, d);
    if p in Without(l, step.pid) {
      WithoutIsPart(l, step.pid, p);
    }
    if p in l {
      var i :| 0 <= i < |l| && l[i] == p;
      MarkedIsFirst(s, l, i);
    } else {
      NewMarkIsFront(s, step, d, p);
    }
  }

  lemma NewMarkIsFront(s: State, step: Step, d: nat, p: Proxy)
    requires Inv(s) && d in Next(s, step).lists && p in Next(s, step).lists[d] && p.since == -1
    requires p !in ListOf(s.lists, d) && p !in Without(ListOf(s.lists, d), step.pid)
    ensures step.RegisterProxy? && d == step.d && !s.isFirstPreemption
  {
  }

  function Registrations(steps: seq<Step>): nat {
    if steps == [] then 0
    else Registrations(steps[..|steps| - 1]) + if steps[|steps| - 1].RegisterProxy? then 1 else 0
  }

  predicate Registers(step: Step, d: nat, pid: int) {
    step.RegisterProxy? && step.d == d && step.pid == pid
  }

  /** A step registers the process on the display, or leaves its record there as it was. */
  lemma StampStep(s: State, step: Step, d: nat, p: Proxy)
    requires Inv(s) && p in ListOf(Next(s, step).lists, d) && p.since >= 0
    ensures if Registers(step, d, p.pid) then p.since == s.now else p in ListOf(s.lists, d)
  {
    var l := ListOf(s.lists, d);
    assert ListOk(s, l);
    if step.RegisterProxy? && step.d == d {
      WithoutKeepsOk(s, l, step.pid);
      AbsentIsAbsent(Without(l, step.pid), p);
      AbsentIsAbsent(l, p);
    } else {
      UntouchedOrWithout(s, step, d);
    }
    if p in Without(l, step.pid) {
      WithoutIsPart(l, step.pid, p);
    }
  }

  lemma AbsentIsAbsent(l: seq<Proxy>, p: Proxy)
    ensures !Has(l, p.pid) ==> p !in l
  {
  }

  lemma StampAfter(front: seq<Step>, last: Step, d: nat, p: Proxy)
    requires p in ListOf(Next(Run(front), last).lists, d) && p.since >= 0
    ensures if Registers(last, d, p.pid) then p.since == Registrations(front) else p in ListOf(Run(front).lists, d)
  {
    RunKeepsOrder(front);
    ClockCounts(front);
    StampStep(Run(front), last, d, p);
  }

  /** Step `k` is the last one to register the process on the display. */
  ghost predicate LatestAt(steps: seq<Step>, k: nat, d: nat, pid: int) {
    k < |steps| && Registers(steps[k], d, pid) && forall j :: k < j < |steps| ==> !Registers(steps[j], d, pid)
  }

  lemma LatestAfter(steps: seq<Step>, d: nat, pid: int)
    requires steps != []
    ensures var n := |steps| - 1;
      && (Registers(steps[n], d, pid) ==> LatestAt(steps, n, d, pid))
      && (!Registers(steps[n], d, pid) ==> forall k :: LatestAt(steps[..n], k, d, pid) ==> LatestAt(steps, k, d, pid))
  {
  }

  /** What the stamp stands for: the process's latest registration on the display, counted among all
      registrations of the run. */
  lemma {:induction false} StampIsLatestRegistration(steps: seq<Step>, d: nat, p: Proxy) returns (k: nat)
    requires p in ListOf(Run(steps).lists, d) && p.since >= 0
    ensures LatestAt(steps, k, d, p.pid) && Registrations(steps[..k]) == p.since
  {
    var n := |steps| - 1;
    StampAfter(steps[..n], steps[n], d, p);
    LatestAfter(steps, d, p.pid);
    if Registers(steps[n], d, p.pid) {
      k := n;
    } else {
      k := StampIsLatestRegistration(steps[..n], d, p);
      assert steps[..k] == steps[..n][..k];
    }
  }

  lemma {:induction false} ClockCounts(steps: seq<Step>)
    ensures Run(steps).now == Registrations(steps)
  {
    if steps == [] {
    } else {
      ClockCounts(steps[..|steps| - 1]);
    }
  }

  /** The proxy in use is the most recently registered one still there. */
  lemma TopIsLatest(s: State, d: nat, p: Proxy)
    requires Inv(s) && p in ListOf(s.lists, d)
    ensures Top(s, d).Some? && p.since <= Top(s, d).value.since
  {
  }

  /** Unregistering undoes registering: a new proxy disappears without trace, a known one is simply
      removed; in particular the proxy that was on top before is on top again. */
  lemma UnregisterUndoesRegister(s: State, d: nat, pid: int, uid: int, lastEnabled: bool, newEnabled: bool)
    requires Inv(s)
    ensures var t := Unregister(Register(s, d, pid, uid, true, lastEnabled, newEnabled), d, pid);
      && t.lists == Trim(s.lists, d, Without(ListOf(s.lists, d), pid))
      && (!Has(ListOf(s.lists, d), pid) ==> Top(t, d) == Top(s, d))
  {
    WithoutUndoes(s, d, pid, uid, lastEnabled, newEnabled);
    var r := RegisteredList(s, d, pid, uid, true, lastEnabled, newEnabled);
    TrimOverwrites(s.lists, d, r, Without(ListOf(s.lists, d), pid));
  }

  lemma WithoutUndoes(s: State, d: nat, pid: int, uid: int, lastEnabled: bool, newEnabled: bool)
    requires Inv(s)
    ensures Without(RegisteredList(s, d, pid, uid, true, lastEnabled, newEnabled), pid) == Without(ListOf(s.lists, d), pid)
  {
    var l := ListOf(s.lists, d);
    assert ListOk(s, l);
    var r := RegisteredList(s, d, pid, uid, true, lastEnabled, newEnabled);
    if Has(l, pid) {
      WithoutKeepsOk(s, l, pid);
      WithoutLast(Without(l, pid), l[IndexOf(l, pid)].(since := s.now));
    } else if GoesInFront(s, d, lastEnabled, newEnabled) {
      assert r[1..] == l;
    } else {
      WithoutLast(l, Proxy(pid, uid, s.now));
    }
  }

  lemma TrimOverwrites(ls: Lists, d: nat, r: seq<Proxy>, l: seq<Proxy>)
    ensures Trim(ls[d := r], d, l) == Trim(ls, d, l)
    ensures ListOf(Trim(ls, d, l), d) == l
  {
  }

  lemma WithoutLast(l: seq<Proxy>, p: Proxy)
    requires !Has(l, p.pid)
    ensures Without(l + [p], p.pid) == l
  {
    assert (l + [p])[|l|] == p;
    assert IndexOf(l + [p], p.pid) == |l|;
  }

  /** A dead process is on no display, and nobody else is affected. */
  lemma DeathClearsEverywhere(s: State, pid: int, d: nat)
    requires Inv(s)
    ensures !Has(ListOf(Died(s, pid).lists, d), pid)
    ensures ListOf(Died(s, pid).lists, d) == Without(ListOf(s.lists, d), pid)
    ensures d in Died(s, pid).lists ==> Died(s, pid).lists[d] != []
  {
  }

  /** The lists while a dead process is being removed and the displays of `rest` are still to come. */
  function Swept(ls: Lists, rest: set<nat>, pid: int): Lists {
    map d | d in ls && (d in rest || Without(ls[d], pid) != []) :: if d in rest then ls[d] else Without(ls[d], pid)
  }

  lemma SweepOne(ls: Lists, rest: set<nat>, pid: int, d: nat)
    requires d in ls && d in rest
    ensures d in Swept(ls, rest, pid) && Swept(ls, rest, pid)[d] == ls[d]
    ensures Trim(Swept(ls, rest, pid), d, Without(ls[d], pid)) == Swept(ls, rest - {d}, pid)
  {
  }

  // ------------------------------------------------------------------ running code

  class ProxyTable {
    var proxyImeData: Lists
    var isFirstPreemption: bool
    var now: nat

    ghost function Value(): State
      reads this
    {
      State(proxyImeData, isFirstPreemption, now)
    }

    constructor ()
      ensures Value() == INITIAL
    {
      proxyImeData, isFirstPreemption, now := map[], false, 0;
    }

    method FindPid(l: seq<Proxy>, pid: int) returns (i: nat)
      ensures i == IndexOf(l, pid)
    {
      i := 0;
      while i < |l| && l[i].pid != pid
        invariant 0 <= i <= |l| && forall j :: 0 <= j < i ==> l[j].pid != pid
      {
        i := i + 1;
      }
      ghost var f := IndexOf(l, pid);
      assert f == i;
    }

    method ErasePid(l: seq<Proxy>, pid: int) returns (r: seq<Proxy>)
      ensures r == Without(l, pid)
    {
      var i := FindPid(l, pid);
      return if i < |l| then l[..i] + l[i + 1..] else l;
    }

    /** `given`: the caller passed a core and an agent; without them nothing is registered. */
    method AddProxyImeData(d: nat, given: bool, pid: int, uid: int, filled: bool, lastEnabled: bool, newEnabled: bool)
      returns (added: Option<Proxy>)
      modifies this
      ensures Value() ==
        if given then Register(old(Value()), d, pid, uid, filled, lastEnabled, newEnabled) else old(Value())
      ensures added.None? <==> !given || (!filled && !Has(ListOf(old(proxyImeData), d), pid))
      ensures added.Some? ==> added.value.pid == pid && added.value in proxyImeData[d]
    {
      if !given {
        return None;
      }
      ghost var before := proxyImeData;
      if d !in proxyImeData {
        proxyImeData := proxyImeData[d := []];
      }
      var l := proxyImeData[d];
      assert proxyImeData == before[d := l];
      var stamp := now;
      now := now + 1;
      var i := FindPid(l, pid);
      if i < |l| {
        var p := l[i].(since := stamp);
        var others := l[..i] + l[i + 1..];
        proxyImeData := proxyImeData[d := others + [p]];
        assert proxyImeData == before[d := others + [p]];
        return Some(p);
      }
      if !filled {
        return None;
      }
      var inserted := InsertNew(l, pid, uid, stamp, lastEnabled, newEnabled);
      proxyImeData := proxyImeData[d := inserted.0];
      assert proxyImeData == before[d := inserted.0];
      return Some(inserted.1);
    }

    /** The display's list with the new proxy, in front the one time the top is enabled and it is not. */
    method InsertNew(l: seq<Proxy>, pid: int, uid: int, stamp: nat, lastEnabled: bool, newEnabled: bool)
      returns (r: (seq<Proxy>, Proxy))
      modifies this`isFirstPreemption
      ensures var front := l != [] && !old(isFirstPreemption) && lastEnabled && !newEnabled;
        && r.1 == Proxy(pid, uid, if front then -1 else stamp)
        && r.0 == (if front then [r.1] + l else l + [r.1])
      ensures isFirstPreemption == (old(isFirstPreemption) || l != [])
    {
      if l != [] && !isFirstPreemption {
        isFirstPreemption := true;
        if lastEnabled && !newEnabled {
          var p := Proxy(pid, uid, -1);
          return ([p] + l, p);
        }
      }
      var p := Proxy(pid, uid, stamp);
      return (l + [p], p);
    }

    method RemoveProxyImeData(d: nat, pid: int)
      modifies this`proxyImeData
      ensures Value() == Unregister(old(Value()), d, pid)
    {
      if d !in proxyImeData {
        return;
      }
      var l := ErasePid(proxyImeData[d], pid);
      proxyImeData := if l == [] then proxyImeData - {d} else proxyImeData[d := l];
    }

    method RemoveDeadProxy(pid: int)
      modifies this`proxyImeData
      ensures Value() == Died(old(Value()), pid)
    {
      ghost var before := proxyImeData;
      var rest := proxyImeData.Keys;
      assert proxyImeData == Swept(before, rest, pid);
      while rest != {}
        invariant rest <= before.Keys && proxyImeData == Swept(before, rest, pid)
        decreases rest
      {
        var d :| d in rest;
        SweepOne(before, rest, pid, d);
        var l := ErasePid(proxyImeData[d], pid);
        proxyImeData := if l == [] then proxyImeData - {d} else proxyImeData[d := l];
        rest := rest - {d};
      }
    }

    method GetProxyImeData(d: nat) returns (p: Option<Proxy>)
      ensures p == Top(Value(), d)
    {
      if d !in proxyImeData || proxyImeData[d] == [] {
        return None;
      }
      return Some(proxyImeData[d][|proxyImeData[d]| - 1]);
    }
  }
}
