/** The cache of installed input methods and the package events that keep it up to date.

    Three threads take part.  The package manager changes a bundle and sends an event.  The
    subscriber's thread looks at the cache, asks the package manager, and sends a message.  The work
    thread takes messages one by one; for an added or changed bundle it asks the package manager
    first and then, under the lock, stores the answer; it also loads users, asking and storing in the
    same way.  Every look, question and store is a step, and a question may fail. */
module ImeInfoCache {
  import opened Options

  datatype FullImeInfo = FullImeInfo(name: string, tokenId: nat, version: nat, status: nat)

  type Cache = map<int, seq<FullImeInfo>>

  /** A bundle of a user. */
  datatype Key = Key(userId: int, bundleName: string)

  datatype Kind = ADDED | CHANGED | REMOVED

  /** An event on its way to the subscriber, or a message on its way to the work thread. */
  datatype Message = Message(kind: Kind, key: Key)

  /** The subscriber's thread is between events, about to ask whether a changed bundle that is cached
      still is an input method, about to ask whether a bundle is one, or about to send a message. */
  datatype Subscriber = Resting | Doubting(key: Key) | Asking(kind: Kind, key: Key) | Sending(kind: Kind, key: Key)

  /** The work thread has nothing in hand, a message, the answer to its question about a bundle, a user
      to ask about, or the answer about the user. */
  datatype Worker =
    | Idle
    | Taken(kind: Kind, key: Key)
    | InHand(key: Key, info: FullImeInfo)
    | Loading(userId: int)
    | Listed(userId: int, infos: seq<FullImeInfo>)

  /** `installed` holds the bundles that are input methods, as the package manager knows them. */
  datatype State = State(
    installed: map<Key, FullImeInfo>, cache: Cache,
    events: seq<Message>, subscriber: Subscriber, queue: seq<Message>, worker: Worker)

  // ------------------------------------------------------------------- the cache

  /** Position of the bundle, or the length. */
  function IndexOf(l: seq<FullImeInfo>, name: string): (i: nat)
    ensures i <= |l| && (i < |l| ==> l[i].name == name) && forall j :: 0 <= j < i ==> l[j].name != name
  {
    if l == [] || l[0].name == name then 0 else
    var i := IndexOf(l[1..], name);
    assert forall j :: 1 <= j < 1 + i ==> l[j] == l[1..][j - 1];
    1 + i
  }

  function Erase(l: seq<FullImeInfo>, name: string): seq<FullImeInfo> {
    var i := IndexOf(l, name);
    if i < |l| then l[..i] + l[i + 1..] else l
  }

  function Entry(l: seq<FullImeInfo>, name: string): Option<FullImeInfo> {
    var i := IndexOf(l, name);
    if i < |l| then Some(l[i]) else None
  }

  function Lookup(c: Cache, k: Key): Option<FullImeInfo> {
    if k.userId in c then Entry(c[k.userId], k.bundleName) else None
  }

  function Put(c: Cache, k: Key, info: FullImeInfo): Cache {
    if k.userId !in c then c[k.userId := [info]]
    else c[k.userId := Erase(c[k.userId], k.bundleName) + [info]]
  }

  function Delete(c: Cache, k: Key): Cache {
    if k.userId !in c || IndexOf(c[k.userId], k.bundleName) == |c[k.userId]| then c
    else if Erase(c[k.userId], k.bundleName) == [] then c - {k.userId}
    else c[k.userId := Erase(c[k.userId], k.bundleName)]
  }

  ghost predicate UniqueNames(l: seq<FullImeInfo>) {
    forall i, j :: 0 <= i < j < |l| ==> l[i].name != l[j].name
  }

  ghost predicate AllUnique(c: Cache) {
    forall u :: u in c ==> UniqueNames(c[u])
  }

  lemma EraseFilters(l: seq<FullImeInfo>, name: string)
    requires UniqueNames(l)
    ensures UniqueNames(Erase(l, name))
    ensures forall x :: x in Erase(l, name) <==> x in l && x.name != name
  {
  }

  lemma LookupIsMembership(c: Cache, k: Key, x: FullImeInfo)
    requires AllUnique(c)
    ensures Lookup(c, k) == Some(x) <==> k.userId in c && x in c[k.userId] && x.name == k.bundleName
  {
  }

  lemma LookupDiffers(c: Cache, d: Cache, k: Key)
    requires AllUnique(c) && AllUnique(d)
    requires forall x: FullImeInfo :: x.name == k.bundleName ==>
      (k.userId in c && x in c[k.userId] <==> k.userId in d && x in d[k.userId])
    ensures Lookup(c, k) == Lookup(d, k)
  {
  }

  lemma PutIsUpdate(c: Cache, k: Key, info: FullImeInfo, h: Key)
    requires AllUnique(c) && info.name == k.bundleName
    ensures AllUnique(Put(c, k, info))
    ensures Lookup(Put(c, k, info), h) == if h == k then Some(info) else Lookup(c, h)
    ensures var l := Put(c, k, info)[k.userId]; l != [] && l[|l| - 1] == info
  {
    var d := Put(c, k, info);
    if k.userId in c {
      EraseFilters(c[k.userId], k.bundleName);
    }
    assert UniqueNames(d[k.userId]);
    if h == k {
      assert d[k.userId][|d[k.userId]| - 1] == info;
      LookupIsMembership(d, k, info);
    } else {
      LookupDiffers(c, d, h);
    }
  }

  lemma DeleteIsRemoval(c: Cache, k: Key, h: Key)
    requires AllUnique(c)
    ensures AllUnique(Delete(c, k))
    ensures Lookup(Delete(c, k), h) == if h == k then None else Lookup(c, h)
  {
    if k.userId in c {
      EraseFilters(c[k.userId], k.bundleName);
    }
    if h != k {
      LookupDiffers(c, Delete(c, k), h);
    }
  }

  /** The user's entry goes exactly with the last record, so that the user can be loaded again. */
  lemma DeleteDropsUserIff(c: Cache, k: Key, u: int)
    requires u in c && AllUnique(c)
    ensures u !in Delete(c, k) <==>
      u == k.userId && Lookup(c, k).Some? && forall x :: x in c[u] ==> x.name == k.bundleName
  {
    if u == k.userId {
      EraseFilters(c[u], k.bundleName);
      if Erase(c[u], k.bundleName) != [] {
        var x := Erase(c[u], k.bundleName)[0];
        assert x in Erase(c[u], k.bundleName);
      }
    }
  }

  // -------------------------------------------------------------------- the steps

  datatype Step =
    | Change(kind: Kind, key: Key, now: Option<FullImeInfo>)
    | Look
    | Ask(ok: bool)
    | Send
    | Take
    | Handle(ok: bool)
    | Store
    | StartLoad(userId: int)
    | List(infos: Option<seq<FullImeInfo>>)
    | StoreUser

  /** `infos` lists exactly the installed methods of the user. */
  ghost predicate Lists(installed: map<Key, FullImeInfo>, u: int, infos: seq<FullImeInfo>) {
    && UniqueNames(infos)
    && forall x: FullImeInfo :: x in infos <==> Key(u, x.name) in installed && installed[Key(u, x.name)] == x
  }

  ghost predicate Enabled(s: State, step: Step) {
    match step
    case Change(kind, k, now) =>
      (now.Some? ==> now.value.name == k.bundleName) && (kind == REMOVED ==> now.None?)
    case Look => s.events != [] && s.subscriber.Resting?
    case Ask(_) => s.subscriber.Doubting? || s.subscriber.Asking?
    case Send => s.subscriber.Sending?
    case Take => s.queue != [] && s.worker.Idle?
    case Handle(_) => s.worker.Taken?
    case Store => s.worker.InHand?
    case StartLoad(_) => s.worker.Idle?
    case List(infos) => s.worker.Loading? && (infos.Some? ==> Lists(s.installed, s.worker.userId, infos.value))
    case StoreUser => s.worker.Listed?
  }

  function ChangeIn(installed: map<Key, FullImeInfo>, k: Key, now: Option<FullImeInfo>): map<Key, FullImeInfo> {
    if now.Some? then installed[k := now.value] else installed - {k}
  }

  /** The event was looked at; `has`: the bundle is in the cache. */
  function Looked(kind: Kind, k: Key, has: bool): Subscriber {
    match kind
    case REMOVED => if has then Sending(REMOVED, k) else Resting
    case CHANGED => if has then Doubting(k) else Asking(CHANGED, k)
    case ADDED => Asking(ADDED, k)
  }

  /** The package manager answered whether the bundle is an input method. */
  function Answered(p: Subscriber, isInputMethod: bool): Subscriber {
    match p
    case Doubting(k) => if isInputMethod then Asking(CHANGED, k) else Sending(REMOVED, k)
    case Asking(kind, k) => if isInputMethod then Sending(kind, k) else Resting
    case _ => p
  }

  function Next(s: State, step: Step): State
    requires Enabled(s, step)
  {
    match step
    case Change(kind, k, now) =>
      s.(installed := ChangeIn(s.installed, k, now), events := s.events + [Message(kind, k)])
    case Look =>
      var Message(kind, k) := s.events[0];
      s.(events := s.events[1..], subscriber := Looked(kind, k, Lookup(s.cache, k).Some?))
    case Ask(ok) => s.(subscriber := Answered(s.subscriber, ok && s.subscriber.key in s.installed))
    case Send => s.(queue := s.queue + [Message(s.subscriber.kind, s.subscriber.key)], subscriber := Resting)
    case Take => s.(queue := s.queue[1..], worker := Taken(s.queue[0].kind, s.queue[0].key))
    case Handle(ok) =>
      var Taken(kind, k) := s.worker;
      if kind == REMOVED then s.(cache := Delete(s.cache, k), worker := Idle)
      else if ok && k in s.installed then s.(worker := InHand(k, s.installed[k]))
      else s.(worker := Idle)
    case Store => s.(cache := Put(s.cache, s.worker.key, s.worker.info), worker := Idle)
    case StartLoad(u) => if u in s.cache then s else s.(worker := Loading(u))
    case List(infos) => s.(worker := if infos.Some? then Listed(s.worker.userId, infos.value) else Idle)
    case StoreUser => s.(cache := s.cache[s.worker.userId := s.worker.infos], worker := Idle)
  }

  // ------------------------------------------------------------ eventual agreement

  function Installed(s: State, k: Key): Option<FullImeInfo> {
    if k in s.installed then Some(s.installed[k]) else None
  }

  predicate InSync(s: State, k: Key) {
    Lookup(s.cache, k) == Installed(s, k)
  }

  /** The last message about the bundle. */
  function LastFor(q: seq<Message>, k: Key): Option<Kind> {
    if q == [] then None else if q[|q| - 1].key == k then Some(q[|q| - 1].kind) else LastFor(q[..|q| - 1], k)
  }

  /** The work thread is about to insert the bundle. */
  predicate Inserting(s: State, k: Key) {
    match s.worker
    case InHand(h, _) => h == k
    case Listed(u, infos) => u == k.userId && Entry(infos, k.bundleName).Some?
    case _ => false
  }

  /** Something is on its way that takes the bundle out of the cache, if it is there by then. */
  predicate Removing(s: State, k: Key) {
    || Message(REMOVED, k) in s.events || Message(CHANGED, k) in s.events
    || s.subscriber == Doubting(k) || s.subscriber == Sending(REMOVED, k)
    || Message(REMOVED, k) in s.queue || s.worker == Taken(REMOVED, k)
  }

  /** The cache is right about an installed bundle once the work thread is done with what it has. */
  predicate WorkerRight(s: State, k: Key) {
    match s.worker
    case Taken(kind, h) => if h == k then kind != REMOVED else InSync(s, k)
    case InHand(h, info) => if h == k then Installed(s, k) == Some(info) else InSync(s, k)
    case Loading(u) => u == k.userId || InSync(s, k)
    case Listed(u, infos) => if u == k.userId then Entry(infos, k.bundleName) == Installed(s, k) else InSync(s, k)
    case Idle => InSync(s, k)
  }

  predicate QueueRight(s: State, k: Key) {
    var last := LastFor(s.queue, k);
    if last.Some? then last.value != REMOVED else WorkerRight(s, k)
  }

  predicate About(p: Subscriber, k: Key) {
    !p.Resting? && p.key == k
  }

  predicate SubscriberRight(s: State, k: Key) {
    if About(s.subscriber, k) then s.subscriber != Sending(REMOVED, k) else QueueRight(s, k)
  }

  predicate EventsRight(s: State, k: Key) {
    var last := LastFor(s.events, k);
    if last.Some? then last.value != REMOVED else SubscriberRight(s, k)
  }

  /** The cache is right about the bundle, or what is on its way will put it right: for an installed
      bundle the last thing on its way decides. */
  predicate Settling(s: State, k: Key) {
    if k in s.installed then EventsRight(s, k)
    else (Lookup(s.cache, k).None? && !Inserting(s, k)) || Removing(s, k)
  }

  ghost predicate NamesMatch(installed: map<Key, FullImeInfo>) {
    forall k :: k in installed ==> installed[k].name == k.bundleName
  }

  ghost predicate WorkerFits(s: State) {
    match s.worker
    case InHand(k, info) => info.name == k.bundleName
    case Loading(u) => u !in s.cache
    case Listed(u, infos) => u !in s.cache && UniqueNames(infos)
    case _ => true
  }

  /** The last event about an installed bundle is not its removal. */
  ghost predicate EventsFit(s: State) {
    forall k :: k in s.installed ==> LastFor(s.events, k) != Some(REMOVED)
  }

  ghost predicate Sound(s: State) {
    && AllUnique(s.cache) && NamesMatch(s.installed) && WorkerFits(s) && EventsFit(s)
    && (s.subscriber.Asking? ==> s.subscriber.kind != REMOVED)
  }

  lemma {:induction false} LastForTail(q: seq<Message>, k: Key)
    requires q != []
    ensures LastFor(q, k) == if LastFor(q[1..], k).Some? then LastFor(q[1..], k) else if q[0].key == k then Some(q[0].kind) else None
  {
    if |q| == 1 {
    } else {
      LastForTail(q[..|q| - 1], k);
      assert q[1..][..|q| - 2] == q[..|q| - 1][1..];
    }
  }

  lemma ChangeKeepsSound(s: State, step: Step)
    requires Sound(s) && Enabled(s, step) && step.Change?
    ensures Sound(Next(s, step))
  {
    assert Next(s, step).events[..|s.events|] == s.events;
  }

  lemma LookKeepsSound(s: State)
    requires Sound(s) && Enabled(s, Look)
    ensures Sound(Next(s, Look))
  {
    forall k | k in s.installed
      ensures LastFor(s.events[1..], k) != Some(REMOVED)
    {
      LastForTail(s.events, k);
    }
  }

  lemma NextKeepsSound(s: State, step: Step)
    requires Sound(s) && Enabled(s, step)
    ensures Sound(Next(s, step))
  {
    match step
    case Change(_, _, _) => ChangeKeepsSound(s, step);
    case Look => LookKeepsSound(s);
    case Handle(_) => DeleteIsRemoval(s.cache, s.worker.key, s.worker.key);
    case Store => PutIsUpdate(s.cache, s.worker.key, s.worker.info, s.worker.key);
    case _ =>
  }

  // ------------------------------------------------------------ what loses a bundle

  /** Nothing on its way to the work thread is about the bundle. */
  predicate NothingFollows(s: State, k: Key) {
    LastFor(s.events, k).None? && !About(s.subscriber, k) && LastFor(s.queue, k).None?
  }

  /** The steps after which nothing will put the cache right about the bundle: an "added" event for a
      bundle that is no input method, but is cached or about to be; a look that drops the event of a
      removal because the work thread has yet to insert the bundle; and a question that fails with
      nothing following it. */
  predicate Loses(s: State, step: Step, k: Key) {
    match step
    case Change(kind, h, now) =>
      && h == k && kind == ADDED && now.None? && (Lookup(s.cache, k).Some? || Inserting(s, k)) && !Removing(s, k)
    case Look =>
      && s.events != [] && s.events[0].key == k && s.events[0].kind != ADDED && k !in s.installed
      && Lookup(s.cache, k).None? && Inserting(s, k) && !Removing(s.(events := s.events[1..]), k)
    case Ask(ok) =>
      && !ok && k in s.installed && LastFor(s.events, k).None?
      && (s.subscriber == Doubting(k) || (About(s.subscriber, k) && s.subscriber.Asking? && !QueueRight(s, k)))
    case Handle(ok) =>
      && !ok && k in s.installed && s.worker.Taken? && s.worker.key == k && s.worker.kind != REMOVED
      && NothingFollows(s, k) && !InSync(s, k)
    case List(infos) =>
      infos.None? && k in s.installed && s.worker == Loading(k.userId) && NothingFollows(s, k)
    case _ => false
  }

  /** The steps that may put a lost bundle right again: a change of it, or the loading of its user. */
  predicate Renews(s: State, step: Step, k: Key) {
    (step.Change? && step.key == k) || (step.StartLoad? && step.userId == k.userId && step.userId !in s.cache)
  }

  /** What a step does to a bundle: settling bundles stay so exactly if the step does not lose them, and
      lost ones stay lost unless the step renews them. */
  ghost predicate SettlesExactly(s: State, step: Step, k: Key)
    requires Enabled(s, step)
  {
    && (Settling(s, k) ==> (Settling(Next(s, step), k) <==> !Loses(s, step, k)))
    && (!Settling(s, k) && !Renews(s, step, k) ==> !Settling(Next(s, step), k))
  }

  lemma LastForAppend(q: seq<Message>, m: Message, k: Key)
    ensures LastFor(q + [m], k) == if m.key == k then Some(m.kind) else LastFor(q, k)
  {
    assert (q + [m])[..|q|] == q;
  }

  lemma ChangeSettles(s: State, step: Step, k: Key)
    requires Sound(s) && Enabled(s, step) && step.Change?
    ensures SettlesExactly(s, step, k)
  {
    LastForAppend(s.events, Message(step.kind, step.key), k);
  }

  lemma LookSettles(s: State, k: Key)
    requires Sound(s) && Enabled(s, Look)
    ensures SettlesExactly(s, Look, k)
  {
    LastForTail(s.events, k);
    var e, rest := s.events[0], s.events[1..];
    assert forall m :: m in s.events <==> m == e || m in rest;
    assert k in s.installed ==> LastFor(s.events, k) != Some(REMOVED);
  }

  lemma AskSettles(s: State, ok: bool, k: Key)
    requires Sound(s) && Enabled(s, Ask(ok))
    ensures SettlesExactly(s, Ask(ok), k)
  {
  }

  lemma SendSettles(s: State, k: Key)
    requires Sound(s) && Enabled(s, Send)
    ensures SettlesExactly(s, Send, k)
  {
    LastForAppend(s.queue, Message(s.subscriber.kind, s.subscriber.key), k);
  }

  lemma TakeSettles(s: State, k: Key)
    requires Sound(s) && Enabled(s, Take)
    ensures SettlesExactly(s, Take, k)
  {
    LastForTail(s.queue, k);
    assert s.queue == [s.queue[0]] + s.queue[1..];
  }

  lemma RemovalSettles(s: State, ok: bool, k: Key)
    requires Sound(s) && Enabled(s, Handle(ok)) && s.worker.kind == REMOVED
    ensures SettlesExactly(s, Handle(ok), k)
  {
    DeleteIsRemoval(s.cache, s.worker.key, k);
    var t := Next(s, Handle(ok));
    if k != s.worker.key {
      assert InSync(t, k) == InSync(s, k);
    } else if k in s.installed {
      assert !InSync(t, k);
    }
  }

  lemma QuestionSettles(s: State, ok: bool, k: Key)
    requires Sound(s) && Enabled(s, Handle(ok)) && s.worker.kind != REMOVED
    ensures SettlesExactly(s, Handle(ok), k)
  {
    assert Next(s, Handle(ok)).cache == s.cache;
  }

  lemma StoreSettles(s: State, k: Key)
    requires Sound(s) && Enabled(s, Store)
    ensures SettlesExactly(s, Store, k)
  {
    PutIsUpdate(s.cache, s.worker.key, s.worker.info, k);
  }

  lemma ListedAsInstalled(installed: map<Key, FullImeInfo>, u: int, infos: seq<FullImeInfo>, k: Key)
    requires NamesMatch(installed) && Lists(installed, u, infos) && k.userId == u
    ensures Entry(infos, k.bundleName) == if k in installed then Some(installed[k]) else None
  {
  }

  lemma LoadSettles(s: State, step: Step, k: Key)
    requires Sound(s) && Enabled(s, step) && (step.StartLoad? || step.List? || step.StoreUser?)
    ensures SettlesExactly(s, step, k)
  {
    if step.List? && step.infos.Some? && k.userId == s.worker.userId {
      ListedAsInstalled(s.installed, k.userId, step.infos.value, k);
    }
  }

  /** Over all steps of the three threads. */
  lemma SettlesIff(s: State, step: Step, k: Key)
    requires Sound(s) && Enabled(s, step)
    ensures SettlesExactly(s, step, k)
  {
    match step
    case Change(_, _, _) => ChangeSettles(s, step, k);
    case Look => LookSettles(s, k);
    case Ask(ok) => AskSettles(s, ok, k);
    case Send => SendSettles(s, k);
    case Take => TakeSettles(s, k);
    case Handle(ok) =>
      if s.worker.kind == REMOVED {
        RemovalSettles(s, ok, k);
      } else {
        QuestionSettles(s, ok, k);
      }
    case Store => StoreSettles(s, k);
    case _ => LoadSettles(s, step, k);
  }

  // -------------------------------------------------------------------- whole runs

  ghost predicate Run(ss: seq<State>, steps: seq<Step>) {
    && |ss| == |steps| + 1
    && forall i :: 0 <= i < |steps| ==> Enabled(ss[i], steps[i]) && ss[i + 1] == Next(ss[i], steps[i])
  }

  /** Nothing is on its way. */
  predicate Quiet(s: State) {
    s.events == [] && s.subscriber.Resting? && s.queue == [] && s.worker.Idle?
  }

  lemma QuietIff(s: State, k: Key)
    requires Quiet(s)
    ensures Settling(s, k) <==> InSync(s, k)
  {
  }

  lemma {:induction false} RunKeepsSound(ss: seq<State>, steps: seq<Step>, n: nat)
    requires Run(ss, steps) && n < |ss| && Sound(ss[0])
    ensures Sound(ss[n])
  {
    if n == 0 {
    } else {
      RunKeepsSound(ss, steps, n - 1);
      NextKeepsSound(ss[n - 1], steps[n - 1]);
    }
  }

  lemma {:induction false} RunKeepsSettling(ss: seq<State>, steps: seq<Step>, k: Key, n: nat)
    requires Run(ss, steps) && n < |ss| && Sound(ss[0]) && Settling(ss[0], k)
    requires forall i :: 0 <= i < n ==> !Loses(ss[i], steps[i], k)
    ensures Settling(ss[n], k)
  {
    if n == 0 {
    } else {
      RunKeepsSettling(ss, steps, k, n - 1);
      RunKeepsSound(ss, steps, n - 1);
      SettlesIff(ss[n - 1], steps[n - 1], k);
    }
  }

  /** Starting in agreement about a bundle, whenever nothing is on its way the cache again agrees with
      the package manager about it, and bundle names stay unique. */
  lemma CacheAgreesWhenQuiet(ss: seq<State>, steps: seq<Step>, k: Key, n: nat)
    requires Run(ss, steps) && n < |ss| && Sound(ss[0]) && Settling(ss[0], k)
    requires forall i :: 0 <= i < n ==> !Loses(ss[i], steps[i], k)
    requires Quiet(ss[n])
    ensures InSync(ss[n], k) && AllUnique(ss[n].cache)
  {
    RunKeepsSettling(ss, steps, k, n);
    RunKeepsSound(ss, steps, n);
    QuietIff(ss[n], k);
  }

  ghost predicate NotRenewed(ss: seq<State>, steps: seq<Step>, k: Key, i: nat, n: nat) {
    |ss| == |steps| + 1 && i <= n < |ss| && forall j :: i <= j < n ==> !Renews(ss[j], steps[j], k)
  }

  lemma {:induction false} LostStaysLost(ss: seq<State>, steps: seq<Step>, k: Key, i: nat, n: nat)
    requires Run(ss, steps) && Sound(ss[0]) && NotRenewed(ss, steps, k, i, n) && !Settling(ss[i], k)
    ensures !Settling(ss[n], k)
  {
    if n == i {
    } else {
      LostStaysLost(ss, steps, k, i, n - 1);
      RunKeepsSound(ss, steps, n - 1);
      SettlesIff(ss[n - 1], steps[n - 1], k);
    }
  }

  /** A lost bundle stays lost, and the cache wrong about it whenever nothing is on its way, until the
      bundle changes again or its user is loaded. */
  lemma LostUntilRenewed(ss: seq<State>, steps: seq<Step>, k: Key, i: nat, n: nat)
    requires Run(ss, steps) && Sound(ss[0]) && NotRenewed(ss, steps, k, i + 1, n)
    requires Settling(ss[i], k) && Loses(ss[i], steps[i], k) && Quiet(ss[n])
    ensures !InSync(ss[n], k)
  {
    RunKeepsSound(ss, steps, i);
    SettlesIff(ss[i], steps[i], k);
    LostStaysLost(ss, steps, k, i + 1, n);
    QuietIff(ss[n], k);
  }

  /** Loading a user whom the cache does not know settles every bundle of the user, unless its removal
      is still on its way. */
  lemma LoadingRenews(s: State, u: int, k: Key)
    requires Sound(s) && Enabled(s, StartLoad(u)) && k.userId == u && u !in s.cache
    ensures Settling(Next(s, StartLoad(u)), k) <==>
      !(k in s.installed && LastFor(s.events, k).None?
        && (if About(s.subscriber, k) then s.subscriber == Sending(REMOVED, k) else LastFor(s.queue, k) == Some(REMOVED)))
  {
  }

  /** With nothing in between, loading a user makes a bundle of the user right exactly when the cache did
      not know the user, or was right about the bundle before. */
  lemma LoadedIsInSync(s: State, u: int, infos: seq<FullImeInfo>, k: Key)
    requires Sound(s) && s.worker.Idle? && Lists(s.installed, u, infos) && k.userId == u
    ensures var t := Next(s, StartLoad(u));
      var loaded := if t.worker.Idle? then t else Next(Next(t, List(Some(infos))), StoreUser);
      InSync(loaded, k) <==> u !in s.cache || InSync(s, k)
  {
    ListedAsInstalled(s.installed, u, infos, k);
  }

  // -------------------------------------------------------------- runs that go wrong

  lemma Extend(ss: seq<State>, steps: seq<Step>, step: Step) returns (ss1: seq<State>, steps1: seq<Step>)
    requires Run(ss, steps) && Enabled(ss[|steps|], step)
    ensures Run(ss1, steps1) && steps1 == steps + [step] && ss1[0] == ss[0]
    ensures ss1[|steps1|] == Next(ss[|steps|], step)
  {
    ss1, steps1 := ss + [Next(ss[|steps|], step)], steps + [step];
  }

  /** A quiet state in agreement about the bundle, and a run from it to one that is not. */
  ghost predicate GoesWrong(ss: seq<State>, steps: seq<Step>, k: Key) {
    && Run(ss, steps) && Sound(ss[0]) && Quiet(ss[0]) && InSync(ss[0], k)
    && Quiet(ss[|steps|]) && !InSync(ss[|steps|], k)
  }

  /** An "added" event for a cached bundle that is no input method any more is dropped. */
  lemma MissedEventExists(k: Key, x: FullImeInfo) returns (ss: seq<State>, steps: seq<Step>)
    requires x.name == k.bundleName
    ensures GoesWrong(ss, steps, k)
  {
    ss, steps := [State(map[k := x], map[k.userId := [x]], [], Resting, [], Idle)], [];
    ss, steps := Extend(ss, steps, Change(ADDED, k, None));
    ss, steps := Extend(ss, steps, Look);
    ss, steps := Extend(ss, steps, Ask(true));
  }

  /** A bundle is added and removed; the removal is looked at between the question and the store. */
  lemma OvertakenRemovalExists(k: Key, x: FullImeInfo) returns (ss: seq<State>, steps: seq<Step>)
    requires x.name == k.bundleName
    ensures GoesWrong(ss, steps, k)
  {
    ss, steps := [State(map[], map[], [], Resting, [], Idle)], [];
    ss, steps := Extend(ss, steps, Change(ADDED, k, Some(x)));
    ss, steps := Extend(ss, steps, Look);
    ss, steps := Extend(ss, steps, Ask(true));
    ss, steps := Extend(ss, steps, Send);
    assert ss[|steps|] == State(map[k := x], map[], [], Resting, [Message(ADDED, k)], Idle);
    ss, steps := Extend(ss, steps, Take);
    ss, steps := Extend(ss, steps, Handle(true));
    assert ss[|steps|] == State(map[k := x], map[], [], Resting, [], InHand(k, x));
    ss, steps := Extend(ss, steps, Change(REMOVED, k, None));
    ss, steps := Extend(ss, steps, Look);
    ss, steps := Extend(ss, steps, Store);
  }

  /** The same with a removal while the user of the bundle is loaded. */
  lemma OvertakenLoadExists(k: Key, x: FullImeInfo) returns (ss: seq<State>, steps: seq<Step>)
    requires x.name == k.bundleName
    ensures Run(ss, steps) && Sound(ss[0]) && Quiet(ss[0]) && Quiet(ss[|steps|]) && !InSync(ss[|steps|], k)
    ensures steps == [StartLoad(k.userId), List(Some([x])), Change(REMOVED, k, None), Look, StoreUser]
  {
    ss, steps := [State(map[k := x], map[], [], Resting, [], Idle)], [];
    ss, steps := Extend(ss, steps, StartLoad(k.userId));
    ss, steps := Extend(ss, steps, List(Some([x])));
    ss, steps := Extend(ss, steps, Change(REMOVED, k, None));
    assert ss[|steps|] == State(map[], map[], [Message(REMOVED, k)], Resting, [], Listed(k.userId, [x]));
    ss, steps := Extend(ss, steps, Look);
    ss, steps := Extend(ss, steps, StoreUser);
  }

  /** A question that fails: the event of a new bundle is dropped. */
  lemma FailedQuestionExists(k: Key, x: FullImeInfo) returns (ss: seq<State>, steps: seq<Step>)
    requires x.name == k.bundleName
    ensures GoesWrong(ss, steps, k)
  {
    ss, steps := [State(map[], map[], [], Resting, [], Idle)], [];
    ss, steps := Extend(ss, steps, Change(ADDED, k, Some(x)));
    ss, steps := Extend(ss, steps, Look);
    ss, steps := Extend(ss, steps, Ask(false));
  }

  /** Storing a bundle of a user not loaded yet makes the user look loaded: the user's other methods
      stay missing, because loading then does nothing. */
  lemma StoreBeforeLoadHidesOthers(s: State, h: Key)
    requires Sound(s) && s.worker.InHand? && s.worker.key.userId !in s.cache
    requires h.userId == s.worker.key.userId && h != s.worker.key && h in s.installed
    ensures var t := Next(s, Store);
      Next(t, StartLoad(h.userId)) == t && !InSync(t, h)
  {
  }

  // ------------------------------------------------------------------ running code

  class FullImeInfoManager {
    var fullImeInfos: Cache

    constructor ()
      ensures fullImeInfos == map[]
    {
      fullImeInfos := map[];
    }

    method FindBundle(l: seq<FullImeInfo>, name: string) returns (i: nat)
      ensures i == IndexOf(l, name)
    {
      i := 0;
      while i < |l| && l[i].name != name
        invariant 0 <= i <= |l| && forall j :: 0 <= j < i ==> l[j].name != name
      {
        i := i + 1;
      }
      ghost var f := IndexOf(l, name);
      assert f == i;
    }

    method Has(k: Key) returns (r: bool)
      ensures r == Lookup(fullImeInfos, k).Some?
    {
      if k.userId !in fullImeInfos {
        return false;
      }
      var i := FindBundle(fullImeInfos[k.userId], k.bundleName);
      return i < |fullImeInfos[k.userId]|;
    }

    /** `status`: the settings' answer about the bundle; without one the stored status stays. */
    method Get(k: Key, status: Option<nat>) returns (r: Option<FullImeInfo>)
      ensures r.Some? <==> Lookup(fullImeInfos, k).Some?
      ensures r.Some? ==> var stored := Lookup(fullImeInfos, k).value;
        r.value == stored.(status := if status.Some? then status.value else stored.status)
    {
      if k.userId !in fullImeInfos {
        return None;
      }
      var i := FindBundle(fullImeInfos[k.userId], k.bundleName);
      if i == |fullImeInfos[k.userId]| {
        return None;
      }
      var info := fullImeInfos[k.userId][i];
      if status.Some? {
        info := info.(status := status.value);
      }
      return Some(info);
    }

    /** `queried`: the package manager's answer about the bundle.  Adding and updating do the same. */
    method AddPackage(k: Key, queried: Option<FullImeInfo>) returns (ok: bool)
      modifies this
      ensures ok == queried.Some?
      ensures fullImeInfos == if ok then Put(old(fullImeInfos), k, queried.value) else old(fullImeInfos)
    {
      if queried.None? {
        return false;
      }
      if k.userId !in fullImeInfos {
        fullImeInfos := fullImeInfos[k.userId := [queried.value]];
        return true;
      }
      var l := fullImeInfos[k.userId];
      var i := FindBundle(l, k.bundleName);
      if i < |l| {
        l := l[..i] + l[i + 1..];
      }
      fullImeInfos := fullImeInfos[k.userId := l + [queried.value]];
      return true;
    }

    method DeletePackage(k: Key)
      modifies this
      ensures fullImeInfos == Delete(old(fullImeInfos), k)
    {
      if k.userId !in fullImeInfos {
        return;
      }
      var l := fullImeInfos[k.userId];
      var i := FindBundle(l, k.bundleName);
      if i == |l| {
        return;
      }
      l := l[..i] + l[i + 1..];
      if l == [] {
        fullImeInfos := fullImeInfos - {k.userId};
      } else {
        fullImeInfos := fullImeInfos[k.userId := l];
      }
    }

    /** `queried`: the package manager's answer about the user.  No other thread stores meanwhile. */
    method AddUser(userId: int, queried: Option<seq<FullImeInfo>>) returns (infos: Option<seq<FullImeInfo>>)
      modifies this
      ensures infos.Some? <==> userId in fullImeInfos
      ensures infos.Some? ==> infos.value == fullImeInfos[userId]
      ensures infos.None? ==> queried.None? && fullImeInfos == old(fullImeInfos)
      ensures forall s: State :: s.cache == old(fullImeInfos) && s.worker.Idle? ==>
        var t := Next(s, StartLoad(userId));
        if t.worker.Idle? || queried.None? then fullImeInfos == s.cache
        else fullImeInfos == Next(t.(worker := Listed(userId, queried.value)), StoreUser).cache
    {
      if userId in fullImeInfos {
        return Some(fullImeInfos[userId]);
      }
      if queried.None? {
        return None;
      }
      fullImeInfos := fullImeInfos[userId := queried.value];
      return queried;
    }

    /** `first` and `second` are the answers to whether the bundle is an input method, asked one after
        the other; the first question is asked about a changed bundle that is cached only. */
    method IfNeedToBeProcessed(kind: Kind, k: Key, first: bool, second: bool) returns (process: bool, messageId: Kind)
      ensures var looked := Looked(kind, k, Lookup(fullImeInfos, k).Some?);
        var doubted := if looked.Doubting? then Answered(looked, first) else looked;
        Answered(doubted, second) == if process then Sending(messageId, k) else Resting
    {
      var has := Has(k);
      if kind == REMOVED {
        return has, kind;
      }
      if kind == CHANGED && has && !first {
        return true, REMOVED;
      }
      return second, kind;
    }
  }
}
