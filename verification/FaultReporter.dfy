/** Limiting fault reports: a fault key is reported at most once in five minutes, faults in between
    are counted and reported with the next one, and stale records are dropped one at a time. */
module FaultReporter {
  import opened Options

  const FAULT_REPORT_INTERVAL := 5 * 60 * 1000
  const FAULT_RETENTION_PERIOD := 10 * 60 * 1000
  const TWO_32 := 0x1_0000_0000

  // ---------------------------------------------------------------------- the key

  datatype Fault = Fault(event: nat, peerUserId: int, peerName: string, eventCode: int, errCode: int)

  function DigitChar(d: nat): char
    requires d < 10
  {
    ['0', '1', '2', '3', '4', '5', '6', '7', '8', '9'][d]
  }

  function DigitValue(c: char): int { c as int - '0' as int }

  function Digits(n: nat): string {
    if n < 10 then [DigitChar(n)] else Digits(n / 10) + [DigitChar(n % 10)]
  }

  function ToString(i: int): string {
    if i < 0 then ['-'] + Digits(-i) else Digits(i)
  }

  function FaultKey(f: Fault): string {
    ToString(f.event) + ['/'] + (ToString(f.peerUserId) + ['/'] +
      ((f.peerName + ['/'] + ToString(f.eventCode)) + ['/'] + ToString(f.errCode)))
  }

  /** The number that a digit string denotes. */
  function Value(s: string): int {
    if s == [] then 0 else Value(s[..|s| - 1]) * 10 + DigitValue(s[|s| - 1])
  }

  lemma {:induction false} DigitsDenote(n: nat)
    ensures Value(Digits(n)) == n && Digits(n) != []
    ensures forall i :: 0 <= i < |Digits(n)| ==> '0' <= Digits(n)[i] <= '9'
  {
    if n < 10 {
      assert Value([]) == 0;
      assert Digits(n)[..0] == [];
    } else {
      DigitsDenote(n / 10);
      var s := Digits(n);
      assert s[..|s| - 1] == Digits(n / 10);
    }
  }

  lemma ToStringIsInjective(a: int, b: int)
    requires ToString(a) == ToString(b)
    ensures a == b
  {
    DigitsDenote(if a < 0 then -a else a);
    DigitsDenote(if b < 0 then -b else b);
    assert ToString(a)[0] == ToString(b)[0];
    if a < 0 {
      assert ToString(a)[1..] == Digits(-a);
      assert ToString(b)[1..] == Digits(-b);
    }
  }

  lemma NumbersHaveNoSlash(a: int)
    ensures '/' !in ToString(a)
  {
    DigitsDenote(if a < 0 then -a else a);
  }

  lemma {:induction false} SplitAtFirstSlash(a: string, x: string, b: string, y: string)
    requires '/' !in a && '/' !in b && a + ['/'] + x == b + ['/'] + y
    ensures a == b && x == y
  {
    var s := a + ['/'] + x;
    assert s[|a|] == '/' && s[|b|] == '/';
    assert forall i :: 0 <= i < |a| ==> s[i] == a[i] && s[i] != '/';
    assert forall i :: 0 <= i < |b| ==> s[i] == b[i] && s[i] != '/';
    assert |a| == |b|;
    assert a == s[..|a|] && b == s[..|b|];
    assert x == s[|a| + 1..] && y == s[|b| + 1..];
  }

  lemma {:induction false} SplitAtLastSlash(x: string, a: string, y: string, b: string)
    requires '/' !in a && '/' !in b && x + ['/'] + a == y + ['/'] + b
    ensures a == b && x == y
  {
    var s := x + ['/'] + a;
    assert s[|x|] == '/' && s[|y|] == '/';
    assert forall i :: |x| < i < |s| ==> s[i] == a[i - |x| - 1] && s[i] != '/';
    assert forall i :: |y| < i < |s| ==> s[i] == b[i - |y| - 1] && s[i] != '/';
    assert |x| == |y|;
    assert x == s[..|x|] && y == s[..|y|];
    assert a == s[|x| + 1..] && b == s[|y| + 1..];
  }

  /** Different faults have different keys, whatever slashes the peer name contains. */
  lemma FaultKeyIsInjective(f: Fault, g: Fault)
    requires FaultKey(f) == FaultKey(g)
    ensures f == g
  {
    NumbersHaveNoSlash(f.event);
    NumbersHaveNoSlash(g.event);
    NumbersHaveNoSlash(f.peerUserId);
    NumbersHaveNoSlash(g.peerUserId);
    NumbersHaveNoSlash(f.eventCode);
    NumbersHaveNoSlash(g.eventCode);
    NumbersHaveNoSlash(f.errCode);
    NumbersHaveNoSlash(g.errCode);
    var nf, ng := f.peerName + ['/'] + ToString(f.eventCode), g.peerName + ['/'] + ToString(g.eventCode);
    var mf, mg := nf + ['/'] + ToString(f.errCode), ng + ['/'] + ToString(g.errCode);
    SplitAtFirstSlash(
      ToString(f.event), ToString(f.peerUserId) + ['/'] + mf, ToString(g.event), ToString(g.peerUserId) + ['/'] + mg);
    SplitAtFirstSlash(ToString(f.peerUserId), mf, ToString(g.peerUserId), mg);
    SplitAtLastSlash(nf, ToString(f.errCode), ng, ToString(g.errCode));
    SplitAtLastSlash(f.peerName, ToString(f.eventCode), g.peerName, ToString(g.eventCode));
    ToStringIsInjective(f.event, g.event);
    ToStringIsInjective(f.peerUserId, g.peerUserId);
    ToStringIsInjective(f.eventCode, g.eventCode);
    ToStringIsInjective(f.errCode, g.errCode);
  }

  // ------------------------------------------------------------------- the limiter

  /** Time of the last report and the number to send with the next one (32 bits). */
  datatype Record = Record(last: int, num: nat)

  datatype Report = Report(key: string, time: int, num: nat)

  type Tally = map<string, nat>

  function Count(t: Tally, k: string): nat { if k in t then t[k] else 0 }

  function Plus(t: Tally, k: string, n: nat): Tally { t[k := Count(t, k) + n] }

  /** `seen` counts faults per key, `lost` those dropped with a stale record. */
  datatype State = State(now: int, records: map<string, Record>, reports: seq<Report>, seen: Tally, sent: Tally, lost: Tally)

  function Init(now: int): State { State(now, map[], [], map[], map[], map[]) }

  predicate Suppressed(records: map<string, Record>, k: string, now: int) {
    k in records && now - records[k].last < FAULT_REPORT_INTERVAL
  }

  /** The number sent with a report made now. */
  function ReportNum(records: map<string, Record>, k: string): nat {
    if k in records then records[k].num else 1
  }

  function Stale(records: map<string, Record>, now: int): set<string> {
    set k | k in records && now - records[k].last > FAULT_RETENTION_PERIOD
  }

  datatype Step = FaultSeen(key: string) | CleanUp(victim: Option<string>) | TimePasses(d: nat)

  predicate Enabled(s: State, step: Step) {
    match step
    case CleanUp(victim) =>
      if victim.Some? then victim.value in Stale(s.records, s.now) else Stale(s.records, s.now) == {}
    case _ => true
  }

  function Next(s: State, step: Step): State
    requires Enabled(s, step)
  {
    match step
    case FaultSeen(k) =>
      var s1 := s.(seen := Plus(s.seen, k, 1));
      if Suppressed(s.records, k, s.now) then
        s1.(records := s.records[k := s.records[k].(num := (s.records[k].num + 1) % TWO_32)])
      else
        var n := ReportNum(s.records, k);
        s1.(records := s.records[k := Record(s.now, 1)], reports := s.reports + [Report(k, s.now, n)], sent := Plus(s.sent, k, n))
    case CleanUp(victim) =>
      if victim.None? then s else
      var n := s.records[victim.value].num;
      s.(records := s.records - {victim.value}, lost := Plus(s.lost, victim.value, if n > 0 then n - 1 else 0))
    case TimePasses(d) => s.(now := s.now + d)
  }

  ghost predicate Run(ss: seq<State>, steps: seq<Step>) {
    && |ss| == |steps| + 1 && ss[0] == Init(ss[0].now)
    && forall i :: 0 <= i < |steps| ==> Enabled(ss[i], steps[i]) && ss[i + 1] == Next(ss[i], steps[i])
  }

  // -------------------------------------------------------------- five minutes apart

  ghost predicate Spaced(r: seq<Report>) {
    forall i, j :: 0 <= i < j < |r| && r[i].key == r[j].key ==> r[j].time - r[i].time >= FAULT_REPORT_INTERVAL
  }

  /** A report is remembered by its record, or is so old that forgetting it is harmless. */
  ghost predicate Remembered(s: State) {
    forall i :: 0 <= i < |s.reports| ==>
      if s.reports[i].key in s.records then s.reports[i].time <= s.records[s.reports[i].key].last
      else s.now - s.reports[i].time > FAULT_RETENTION_PERIOD
  }

  lemma {:induction false} ReportsAreSpaced(ss: seq<State>, steps: seq<Step>, k: nat)
    requires Run(ss, steps) && k < |ss|
    ensures Spaced(ss[k].reports) && Remembered(ss[k])
  {
    if k == 0 {
    } else {
      ReportsAreSpaced(ss, steps, k - 1);
      var s, t := ss[k - 1], ss[k];
      forall i | 0 <= i < |s.reports|
        ensures t.reports[i] == s.reports[i]
      {
      }
    }
  }

  /** Every record dates from a report of its key. */
  ghost predicate Dated(s: State) {
    forall k :: k in s.records ==> exists i :: 0 <= i < |s.reports| && s.reports[i].key == k && s.reports[i].time == s.records[k].last
  }

  lemma NextKeepsDated(s: State, step: Step)
    requires Dated(s) && Enabled(s, step)
    ensures Dated(Next(s, step))
  {
    var t := Next(s, step);
    forall k | k in t.records
      ensures exists i :: 0 <= i < |t.reports| && t.reports[i].key == k && t.reports[i].time == t.records[k].last
    {
      if k in s.records && t.records[k].last == s.records[k].last {
        var i :| 0 <= i < |s.reports| && s.reports[i].key == k && s.reports[i].time == s.records[k].last;
        assert t.reports[i] == s.reports[i];
      } else {
        assert t.reports[|s.reports|].key == k;
      }
    }
  }

  lemma {:induction false} RunKeepsDated(ss: seq<State>, steps: seq<Step>, k: nat)
    requires Run(ss, steps) && k < |ss|
    ensures Dated(ss[k])
  {
    if k == 0 {
    } else {
      RunKeepsDated(ss, steps, k - 1);
      NextKeepsDated(ss[k - 1], steps[k - 1]);
    }
  }

  /** A clean-up takes away a record exactly if its key was not reported for more than ten minutes, and does
      nothing exactly if there is no such record. */
  lemma CleanUpIff(s: State, victim: Option<string>)
    ensures Enabled(s, CleanUp(victim)) <==>
      match victim
      case Some(k) => k in s.records && s.now - s.records[k].last > 600000
      case None => forall k :: k in s.records ==> s.now - s.records[k].last <= 600000
  {
    if victim.None? {
      assert Stale(s.records, s.now) == {} <==> forall k :: k !in Stale(s.records, s.now);
      assert forall k :: k in s.records ==> (k in Stale(s.records, s.now) <==> s.now - s.records[k].last > 600000);
    }
  }

  /** The key was reported less than five minutes ago. */
  ghost predicate Recent(s: State, key: string) {
    exists i :: 0 <= i < |s.reports| && s.reports[i].key == key && s.now - s.reports[i].time < 300000
  }

  /** A fault is reported at once exactly if its key was not reported in the last five minutes. */
  lemma ReportedIff(ss: seq<State>, steps: seq<Step>, n: nat)
    requires Run(ss, steps) && n < |steps| && steps[n].FaultSeen?
    ensures |ss[n + 1].reports| > |ss[n].reports| <==> !Recent(ss[n], steps[n].key)
    ensures !Recent(ss[n], steps[n].key) ==>
      (ss[n + 1].reports[|ss[n].reports|].key, ss[n + 1].reports[|ss[n].reports|].time) == (steps[n].key, ss[n].now)
  {
    var s, k := ss[n], steps[n].key;
    ReportsAreSpaced(ss, steps, n);
    RunKeepsDated(ss, steps, n);
    if Suppressed(s.records, k, s.now) {
      var i :| 0 <= i < |s.reports| && s.reports[i].key == k && s.reports[i].time == s.records[k].last;
      assert Recent(s, k);
    }
  }

  // ------------------------------------------------------------------- conservation

  /** Faults counted in the record and not reported yet; the record starts at one for the fault that
      the next report stands for. */
  function Waiting(s: State, k: string): int {
    if k in s.records then s.records[k].num - 1 else 0
  }

  /** Seen = sent + waiting + lost for the key, and the record counts at least one. */
  predicate Balanced(s: State, k: string) {
    && (k in s.records ==> 1 <= s.records[k].num < TWO_32)
    && Count(s.seen, k) == Count(s.sent, k) + Waiting(s, k) + Count(s.lost, k)
  }

  ghost predicate Conserved(s: State) {
    forall k :: Balanced(s, k)
  }

  /** The counter of the record does not overflow. */
  predicate NoWrap(s: State, step: Step) {
    step.FaultSeen? && Suppressed(s.records, step.key, s.now) ==> s.records[step.key].num + 1 < TWO_32
  }

  lemma OtherKeysUntouched(s: State, step: Step, k: string)
    requires Enabled(s, step)
    requires step.FaultSeen? ==> k != step.key
    requires step.CleanUp? ==> step.victim != Some(k)
    ensures Balanced(Next(s, step), k) <==> Balanced(s, k)
  {
  }

  lemma OwnKeyBalance(s: State, step: Step, k: string)
    requires Enabled(s, step) && Balanced(s, k)
    requires step == FaultSeen(k) || step == CleanUp(Some(k))
    ensures Balanced(Next(s, step), k) <==> NoWrap(s, step)
  {
  }

  /** One step conserves the faults exactly when it does not overflow a counter. */
  lemma ConservesIffNoWrap(s: State, step: Step)
    requires Conserved(s) && Enabled(s, step)
    ensures Conserved(Next(s, step)) <==> NoWrap(s, step)
  {
    forall k
      ensures Balanced(Next(s, step), k) <==> (step == FaultSeen(k) ==> NoWrap(s, step))
    {
      assert Balanced(s, k);
      if step == FaultSeen(k) || step == CleanUp(Some(k)) {
        OwnKeyBalance(s, step, k);
      } else {
        OtherKeysUntouched(s, step, k);
      }
    }
    if step.FaultSeen? {
      assert Balanced(Next(s, step), step.key) <==> NoWrap(s, step);
    }
  }

  lemma {:induction false} FaultsAreConserved(ss: seq<State>, steps: seq<Step>, n: nat)
    requires Run(ss, steps) && n < |ss|
    requires forall i :: 0 <= i < |steps| ==> NoWrap(ss[i], steps[i])
    ensures Conserved(ss[n])
  {
    if n == 0 {
    } else {
      FaultsAreConserved(ss, steps, n - 1);
      ConservesIffNoWrap(ss[n - 1], steps[n - 1]);
    }
  }

  /** Faults of one key in one moment: the record counts all of them. */
  lemma {:induction false} BurstIsCounted(k: string, n: nat) returns (ss: seq<State>, steps: seq<Step>)
    requires 1 <= n < TWO_32
    ensures Run(ss, steps) && |steps| == n && ss[n].now == 0 && ss[n].records == map[k := Record(0, n)]
  {
    if n == 1 {
      ss, steps := [Init(0), Next(Init(0), FaultSeen(k))], [FaultSeen(k)];
    } else {
      ss, steps := BurstIsCounted(k, n - 1);
      ss, steps := ss + [Next(ss[n - 1], FaultSeen(k))], steps + [FaultSeen(k)];
    }
  }

  /** The overflow can be reached: a burst of 2^32 - 1 faults, and one more. */
  lemma OverflowExists(k: string) returns (ss: seq<State>, steps: seq<Step>)
    ensures Run(ss, steps) && !NoWrap(ss[|steps|], FaultSeen(k))
  {
    ss, steps := BurstIsCounted(k, TWO_32 - 1);
  }

  // ------------------------------------------------------------------- running code

  class Limiter {
    var faultEventRecords: map<string, Record>

    constructor ()
      ensures faultEventRecords == map[]
    {
      faultEventRecords := map[];
    }

    /** `isFault`: the error code is an error, a known one, and counts as a fault. */
    method GenerateFaultReportInfo(f: Fault, isFault: bool, curTime: int) returns (report: bool, faultNum: nat)
      modifies this
      ensures !isFault ==> !report && faultNum == 0 && faultEventRecords == old(faultEventRecords)
      ensures isFault ==>
        var k := FaultKey(f);
        var s := State(curTime, old(faultEventRecords), [], map[], map[], map[]);
        var t := Next(s, FaultSeen(k));
        && faultEventRecords == t.records
        && t.reports == if report then [Report(k, curTime, faultNum)] else []
    {
      if !isFault {
        return false, 0;
      }
      var key := FaultKey(f);
      if key in faultEventRecords && curTime - faultEventRecords[key].last < FAULT_REPORT_INTERVAL {
        var r := faultEventRecords[key];
        faultEventRecords := faultEventRecords[key := r.(num := (r.num + 1) % TWO_32)];
        return false, 0;
      }
      faultNum := if key in faultEventRecords then faultEventRecords[key].num else 1;
      faultEventRecords := faultEventRecords[key := Record(curTime, 1)];
      return true, faultNum;
    }

    method ClearFaultEventInfo(curTime: int) returns (victim: Option<string>)
      modifies this
      ensures var s := State(curTime, old(faultEventRecords), [], map[], map[], map[]);
        Enabled(s, CleanUp(victim)) && faultEventRecords == Next(s, CleanUp(victim)).records
    {
      var rest := faultEventRecords.Keys;
      while rest != {}
        invariant rest <= faultEventRecords.Keys && faultEventRecords == old(faultEventRecords)
        invariant Stale(faultEventRecords, curTime) <= rest
        decreases rest
      {
        var k :| k in rest;
        if curTime - faultEventRecords[k].last > FAULT_RETENTION_PERIOD {
          faultEventRecords := faultEventRecords - {k};
          return Some(k);
        }
        rest := rest - {k};
      }
      return None;
    }
  }
}
