/** What the session engine stores about input clients, and what each entry point does to it.

    A user session keeps one client group per display group.  A group maps client objects to their
    records and carries a "current" and an "inactive" pointer.  A record may be bound to an IME.
    Every function below is the effect of one source operation on that data; calls to the IME and
    to the client are inputs (did they succeed) and nothing else.
 */
module ClientBinding {
  import opened Options

  /** A client's remote object.  The object lives in exactly one process. */
  datatype Client = Client(handle: nat, pid: int)

  datatype ImeType = RealIme | ProxyIme | ImeMirror

  datatype BindImeData = BindImeData(pid: int, kind: ImeType)

  datatype ClientState = Active | Inactive

  /** The part of a client's configuration that matters here: who it says it is, and why it asks for
      the keyboard. */
  datatype TextConfig = TextConfig(bundleName: string, reason: RequestKeyboardReason)

  datatype RequestKeyboardReason = NONE | MOUSE | TOUCH | OTHER

  datatype ClientInfo = ClientInfo(
    client: Client, hostPid: int, groupId: nat, config: TextConfig, clientType: nat, tokenId: nat,
    isShowKeyboard: bool, state: ClientState, bound: Option<BindImeData>)

  /** What an attaching client sends. */
  datatype Request = Request(
    client: Client, hostPid: int, groupId: nat, config: TextConfig, clientType: nat, tokenId: nat, isShowKeyboard: bool)

  datatype Group = Group(clients: map<Client, ClientInfo>, current: Option<Client>, inactive: Option<Client>)

  type State = map<nat, Group>

  const EMPTY_GROUP := Group(map[], None, None)

  // ---------------------------------------------------------------- one group

  function NewInfo(r: Request): ClientInfo {
    ClientInfo(
      r.client, r.hostPid, r.groupId, r.config, r.clientType, r.tokenId, r.isShowKeyboard, Inactive, None)
  }

  /** Adding a client that is already there refreshes its configuration and leaves its binding. */
  function Add(g: Group, r: Request): Group {
    if r.client in g.clients then
      var renewed := g.clients[r.client].(
        hostPid := r.hostPid, groupId := r.groupId, config := r.config, clientType := r.clientType, tokenId := r.tokenId);
      g.(clients := g.clients[r.client := renewed])
    else
      g.(clients := g.clients[r.client := NewInfo(r)])
  }

  function Unregister(g: Group, c: Client): Group {
    g.(clients := g.clients - {c})
  }

  /** Orderly removal: the current pointer is cleared in preference to the inactive one. */
  function Remove(g: Group, c: Client): Group {
    if g.current == Some(c) then Unregister(g.(current := None), c)
    else if g.inactive == Some(c) then Unregister(g.(inactive := None), c)
    else Unregister(g, c)
  }

  /** Removal by death or by a client of another group: both pointers are cleared. */
  function Evict(g: Group, c: Client): Group {
    Unregister(
      g.(current := if g.current == Some(c) then None else g.current,
         inactive := if g.inactive == Some(c) then None else g.inactive), c)
  }

  function Deactivate(g: Group, c: Client): Group {
    if c !in g.clients then g else
    g.(clients := g.clients[c := g.clients[c].(state := Inactive)],
       current := if g.current == Some(c) then None else g.current,
       inactive := Some(c))
  }

  function Show(g: Group, c: Client, shown: bool): Group {
    if c !in g.clients then g else
    g.(clients := g.clients[c := g.clients[c].(isShowKeyboard := shown)])
  }

  /** The reason of the last request for the keyboard is forgotten. */
  function ClearReason(g: Group): Group {
    if g.current.None? || g.current.value !in g.clients then g else
    var info := g.clients[g.current.value];
    g.(clients := g.clients[g.current.value := info.(config := info.config.(reason := NONE))])
  }

  function Mark(g: Group, c: Client, shown: bool, ime: BindImeData): Group {
    if c !in g.clients then g else
    g.(clients := g.clients[c := g.clients[c].(isShowKeyboard := shown, state := Active, bound := Some(ime))])
  }

  predicate Displaces(g: Group, prior: Option<Client>, c: Client) {
    prior.Some? && prior.value in g.clients && prior.value.pid != c.pid
  }

  /** Make `c` current; whoever was current or inactive leaves, unless it is of the same process. */
  function ReplaceCurrent(g: Group, c: Client): Group {
    if c !in g.clients then g else
    var g1 := g.(current := Some(c));
    var g2 := if Displaces(g1, g.current, c) then Remove(g1, g.current.value) else g1;
    if Displaces(g2, g2.inactive, c) then Remove(g2, g2.inactive.value) else g2
  }

  function CurrentInfo(g: Group): Option<ClientInfo> {
    if g.current.Some? && g.current.value in g.clients then Some(g.clients[g.current.value]) else None
  }

  /** Before a client of the group binds to a different kind of IME, the current client leaves. */
  function PrepareRebind(g: Group, c: Client, ime: BindImeData): Group {
    var prior := CurrentInfo(g);
    if ime.kind == ImeMirror || prior.None? || prior.value.client == c then g
    else if prior.value.bound.Some? && prior.value.bound.value.pid == ime.pid then g
    else if (prior.value.bound.None? || prior.value.bound.value.kind == ime.kind) && ime.kind == RealIme then g
    else Unregister(g.(current := None), prior.value.client)
  }

  function RequestHide(g: Group, caller: string): Group {
    var cur := CurrentInfo(g);
    var g1 :=
      if g.current.None? then g
      else if caller != "" && cur.Some? && caller != cur.value.config.bundleName then Remove(g, g.current.value)
      else Show(g, g.current.value, false);
    if g1.inactive.Some? then Remove(g1, g1.inactive.value) else g1
  }

  // ------------------------------------------------------------- all the groups

  predicate BindsPid(g: Group, c: Client, pid: int) {
    c in g.clients && g.clients[c].bound.Some? && g.clients[c].bound.value.pid == pid
  }

  predicate BindsReal(g: Group, c: Client) {
    c in g.clients && g.clients[c].bound.Some? && g.clients[c].bound.value.kind == RealIme
  }

  predicate BoundToPid(s: State, g: nat, c: Client, pid: int) {
    g in s && BindsPid(s[g], c, pid)
  }

  predicate BoundToReal(s: State, g: nat, c: Client) {
    g in s && BindsReal(s[g], c)
  }

  /** Some client bound to the process, whichever the map iteration meets first. */
  ghost function FindByImePid(s: State, pid: int): (r: Option<(nat, Client)>)
    ensures r.Some? ==> BoundToPid(s, r.value.0, r.value.1, pid)
    ensures r.None? ==> forall g, c :: !BoundToPid(s, g, c, pid)
  {
    if exists g, c :: BoundToPid(s, g, c, pid) then
      var g, c :| BoundToPid(s, g, c, pid); Some((g, c))
    else None
  }

  ghost function FindBoundReal(s: State): (r: Option<(nat, Client)>)
    ensures r.Some? ==> BoundToReal(s, r.value.0, r.value.1)
    ensures r.None? ==> forall g, c :: !BoundToReal(s, g, c)
  {
    if exists g, c :: BoundToReal(s, g, c) then
      var g, c :| BoundToReal(s, g, c); Some((g, c))
    else None
  }

  predicate CurrentBoundToReal(s: State, g: nat) {
    g in s && s[g].current.Some? && BoundToReal(s, g, s[g].current.value)
  }

  ghost function FindCurrentBoundReal(s: State): (r: Option<nat>)
    ensures r.Some? ==> CurrentBoundToReal(s, r.value)
    ensures r.None? ==> forall g :: !CurrentBoundToReal(s, g)
  {
    if exists g :: CurrentBoundToReal(s, g) then
      var g :| CurrentBoundToReal(s, g); Some(g)
    else None
  }

  /** A client found in another group than the newcomer's leaves that group. */
  function Preempt(s: State, newGroup: nat, found: Option<(nat, Client)>): State
    requires found.Some? ==> found.value.0 in s && found.value.1 in s[found.value.0].clients
  {
    if found.None? then s else
    var (g, c) := found.value;
    var info := s[g].clients[c];
    if info.groupId == newGroup then s else s[g := Evict(s[g], info.client)]
  }

  /** The same IME and, for the real IME, any real binding is taken from other groups. */
  ghost function ClearOtherGroups(s: State, groupId: nat, ime: BindImeData): State {
    var s1 := Preempt(s, groupId, FindByImePid(s, ime.pid));
    if ime.kind == RealIme then Preempt(s1, groupId, FindBoundReal(s1)) else s1
  }

  /** Binding a client once the IME accepted it. */
  ghost function Bind(s: State, c: Client, groupId: nat, shown: bool, ime: BindImeData): State {
    if groupId !in s || ime.kind == ImeMirror then s else
    var s2 := ClearOtherGroups(s, groupId, ime);
    s2[groupId := ReplaceCurrent(Mark(s2[groupId], c, shown, ime), c)]
  }

  ghost function BindCurrent(s: State, g: nat, ime: BindImeData): State {
    if g !in s || CurrentInfo(s[g]).None? then s else
    var info := CurrentInfo(s[g]).value;
    Bind(s, info.client, info.groupId, info.isShowKeyboard, ime)
  }

  function RemoveCurrent(g: Group): Group {
    if g.current.Some? then Remove(g, g.current.value) else g
  }

  function RemoveAllCurrent(s: State): State {
    map g | g in s :: RemoveCurrent(s[g])
  }

  predicate OfProcess(g: Group, c: Client, pid: int) {
    c in g.clients && c.pid == pid
  }

  predicate HostedBy(g: Group, c: Client, pid: int) {
    c in g.clients && g.clients[c].hostPid == pid
  }

  predicate Registered(s: State, g: nat, c: Client) {
    g in s && c in s[g].clients
  }

  /** A group the client is registered in, or any number when there is none. */
  ghost predicate FoundGroup(s: State, c: Client, g: nat) {
    Registered(s, g, c) || forall h :: !Registered(s, h, c)
  }

  /** A result of the search by own pid in one group. */
  ghost predicate FoundByPid(g: Group, pid: int, r: Option<Client>) {
    match r
    case Some(c) => OfProcess(g, c, pid)
    case None => forall c :: !OfProcess(g, c, pid)
  }

  /** A result of the search by own or host pid in one group: own pids come first. */
  ghost predicate FoundInGroup(g: Group, pid: int, r: Option<Client>) {
    match r
    case Some(c) => OfProcess(g, c, pid) || (HostedBy(g, c, pid) && forall d :: !OfProcess(g, d, pid))
    case None => forall c :: !OfProcess(g, c, pid) && !HostedBy(g, c, pid)
  }

  /** A result of the search over all groups, whose order is not fixed. */
  ghost predicate FoundBySelfOrHost(s: State, pid: int, r: Option<(nat, Client)>) {
    match r
    case Some(p) => p.0 in s && FoundInGroup(s[p.0], pid, Some(p.1))
    case None => forall g :: g in s ==> FoundInGroup(s[g], pid, None)
  }

  /** The group is created with its first client; a new client needs its death recipient. */
  function Register(s: State, r: Request, added: bool): State {
    var g := if r.groupId in s then s[r.groupId] else EMPTY_GROUP;
    if added || r.client in g.clients then s[r.groupId := Add(g, r)] else s
  }

  function Prepare(s: State, r: Request, added: bool, found: Option<(nat, Client)>): State
    requires found.Some? ==> found.value.0 in s && found.value.1 in s[found.value.0].clients
  {
    Register(Preempt(s, r.groupId, found), r, added)
  }

  // ------------------------------------------------------------------- steps

  /** One call into the session.  Fields after the addressees are what the outside world answered and
      what the searches found.  `LateBind` binds a client that was looked up before other steps ran: the
      second half of an attach, or a switch from a proxy back to the real IME. */
  datatype Step =
    | PrepareInput(request: Request, added: bool, found: Option<(nat, Client)>)
    | StartInput(request: Request, ime: BindImeData, accepted: bool)
    | ReleaseInput(g: nat, c: Client)
    | ClientDied(g: nat, c: Client)
    | Focused(g: nat, curFocused: bool, sceneBoard: bool)
    | Unfocused(g: nat, pid: int, curUnfocused: bool, gone: Option<Client>)
    | HideRequested(g: nat, caller: string)
    | KeyboardShown(g: nat, c: Client, shown: bool)
    | SceneBoardStopped
    | ImeReady(ime: BindImeData, needBind: bool, accepted: bool)
    | ProxyChanged(g: nat, ime: BindImeData, accepted: bool)
    | LateBind(c: Client, g: nat, shown: bool, ime: BindImeData, accepted: bool)

  ghost predicate Enabled(s: State, step: Step) {
    match step
    case PrepareInput(r, _, found) => FoundBySelfOrHost(s, r.client.pid, found)
    case ReleaseInput(g, c) => FoundGroup(s, c, g)
    case ClientDied(g, c) => FoundGroup(s, c, g)
    case Unfocused(g, pid, _, found) => g in s ==> FoundByPid(s[g], pid, found)
    case ImeReady(ime, _, _) => ime.kind == RealIme
    case _ => true
  }

  ghost function Next(s: State, step: Step): State
    requires Enabled(s, step)
  {
    match step
    case PrepareInput(r, added, found) => Prepare(s, r, added, found)
    case StartInput(r, ime, accepted) =>
      if r.groupId !in s then s else
      var s1 := s[r.groupId := PrepareRebind(s[r.groupId], r.client, ime)];
      if accepted then Bind(s1, r.client, r.groupId, r.isShowKeyboard, ime) else s1
    case ReleaseInput(g, c) => if Registered(s, g, c) then s[g := Remove(s[g], c)] else s
    case ClientDied(g, c) => if Registered(s, g, c) then s[g := Evict(s[g], c)] else s
    case Focused(g, curFocused, sceneBoard) =>
      if g !in s || s[g].current.None? || curFocused then s
      else if sceneBoard then s[g := Deactivate(s[g], s[g].current.value)]
      else s[g := Remove(s[g], s[g].current.value)]
    case Unfocused(g, _, curUnfocused, found) =>
      if g !in s || s[g].current.None? || curUnfocused || found.None? then s else s[g := Remove(s[g], found.value)]
    case HideRequested(g, caller) => if g in s then s[g := RequestHide(s[g], caller)] else s
    case KeyboardShown(g, c, shown) => if g in s then s[g := Show(s[g], c, shown)] else s
    case SceneBoardStopped => RemoveAllCurrent(s)
    case ImeReady(ime, needBind, accepted) =>
      var g := FindCurrentBoundReal(s);
      if !needBind || g.None? then s else
      var s1 := s[g.value := ClearReason(s[g.value])];
      if accepted then BindCurrent(s1, g.value, ime) else s1
    case ProxyChanged(g, ime, accepted) => if accepted then BindCurrent(s, g, ime) else s
    case LateBind(c, g, shown, ime, accepted) => if accepted then Bind(s, c, g, shown, ime) else s
  }
}
