/** The session engine's client bookkeeping as it runs: groups are objects updated in place, and
    lookups walk the maps in whatever order.  Each entry point is proved to take the step of
    module ClientBinding that bears its name, and to keep the session invariant. */
module PerUserSession {
  import opened Options
  import opened ClientBinding
  import opened ClientBindingProofs

  datatype UpdateFlag =
    | ISSHOWKEYBOARD | STATE | TEXT_CONFIG | UIEXTENSION_TOKENID | CLIENT_TYPE | BIND_IME_DATA
    | UIEXTENSION_HOST_WINDOW_PID | CLIENT_GROUP_ID | REQUEST_KEYBOARD_REASON

  /** The values that an update may carry; one of the wrong type is ignored. */
  datatype Variant =
    | Flag(b: bool) | StateOf(state: ClientState) | Config(config: TextConfig) | Token(token: nat)
    | TypeOf(clientType: nat) | Pid(pid: int) | Id(id: nat) | BindData(data: Option<BindImeData>)
    | Reason(reason: RequestKeyboardReason)

  type Updates = map<UpdateFlag, Variant>

  /** The configuration with the new reason, if there is one, put in after a new configuration. */
  function UpdatedConfig(config: TextConfig, u: Updates): TextConfig {
    var whole := if TEXT_CONFIG in u && u[TEXT_CONFIG].Config? then u[TEXT_CONFIG].config else config;
    if REQUEST_KEYBOARD_REASON in u && u[REQUEST_KEYBOARD_REASON].Reason?
    then whole.(reason := u[REQUEST_KEYBOARD_REASON].reason) else whole
  }

  /** The record with every field replaced for which there is an update of its type. */
  function Updated(info: ClientInfo, u: Updates): ClientInfo {
    ClientInfo(
      info.client,
      if UIEXTENSION_HOST_WINDOW_PID in u && u[UIEXTENSION_HOST_WINDOW_PID].Pid?
      then u[UIEXTENSION_HOST_WINDOW_PID].pid else info.hostPid,
      if CLIENT_GROUP_ID in u && u[CLIENT_GROUP_ID].Id? then u[CLIENT_GROUP_ID].id else info.groupId,
      UpdatedConfig(info.config, u),
      if CLIENT_TYPE in u && u[CLIENT_TYPE].TypeOf? then u[CLIENT_TYPE].clientType else info.clientType,
      if UIEXTENSION_TOKENID in u && u[UIEXTENSION_TOKENID].Token? then u[UIEXTENSION_TOKENID].token else info.tokenId,
      if ISSHOWKEYBOARD in u && u[ISSHOWKEYBOARD].Flag? then u[ISSHOWKEYBOARD].b else info.isShowKeyboard,
      if STATE in u && u[STATE].StateOf? then u[STATE].state else info.state,
      if BIND_IME_DATA in u && u[BIND_IME_DATA].BindData? then u[BIND_IME_DATA].data else info.bound)
  }

  /** A new configuration comes with a new reason: the one that is put in last stays. */
  predicate Contended(u: Updates) {
    && TEXT_CONFIG in u && u[TEXT_CONFIG].Config?
    && REQUEST_KEYBOARD_REASON in u && u[REQUEST_KEYBOARD_REASON].Reason?
  }

  /** What the updates may make of a record, in any order: the same but for contended reasons. */
  ghost predicate IsUpdated(r: ClientInfo, info: ClientInfo, u: Updates) {
    || r == Updated(info, u)
    || (Contended(u) && r == Updated(info, u).(config := u[TEXT_CONFIG].config))
  }

  lemma OneMoreUpdate(r: ClientInfo, info: ClientInfo, done: Updates, flag: UpdateFlag, value: Variant)
    requires IsUpdated(r, info, done) && flag !in done
    ensures IsUpdated(Updated(r, map[flag := value]), info, done[flag := value])
  {
  }

  class ClientGroup {
    const displayGroupId: nat
    var mapClients: map<Client, ClientInfo>
    var currentClient: Option<Client>
    var inactiveClient: Option<Client>

    ghost function Value(): Group
      reads this
    {
      Group(mapClients, currentClient, inactiveClient)
    }

    constructor (id: nat)
      ensures displayGroupId == id && Value() == EMPTY_GROUP
    {
      displayGroupId := id;
      mapClients, currentClient, inactiveClient := map[], None, None;
    }

    /** `recipientAdded`: the death recipient could be attached to a new client's object. */
    method AddClientInfo(r: Request, recipientAdded: bool) returns (ok: bool)
      modifies this
      ensures ok == (recipientAdded || r.client in old(mapClients))
      ensures Value() == if ok then Add(old(Value()), r) else old(Value())
    {
      if r.client in mapClients {
        UpdateClientInfo(r.client, map[
          TEXT_CONFIG := Config(r.config), CLIENT_TYPE := TypeOf(r.clientType), UIEXTENSION_TOKENID := Token(r.tokenId),
          UIEXTENSION_HOST_WINDOW_PID := Pid(r.hostPid), CLIENT_GROUP_ID := Id(r.groupId)]);
        return true;
      }
      if !recipientAdded {
        return false;
      }
      mapClients := mapClients[r.client := NewInfo(r)];
      return true;
    }

    method RemoveClientInfo(c: Client)
      modifies this
      ensures Value() == Unregister(old(Value()), c)
    {
      if c in mapClients {
        mapClients := mapClients - {c};
      }
    }

    method GetClientInfoByBindIme(pid: int) returns (r: Option<Client>)
      ensures r.Some? ==> BindsPid(Value(), r.value, pid)
      ensures r.None? ==> forall c :: !BindsPid(Value(), c, pid)
    {
      var rest := mapClients.Keys;
      while rest != {}
        invariant rest <= mapClients.Keys
        invariant forall c :: BindsPid(Value(), c, pid) ==> c in rest
        decreases rest
      {
        var c :| c in rest;
        if mapClients[c].bound.Some? && mapClients[c].bound.value.pid == pid {
          return Some(c);
        }
        rest := rest - {c};
      }
      return None;
    }

    method GetClientInfoBoundRealIme() returns (r: Option<Client>)
      ensures r.Some? ==> BindsReal(Value(), r.value)
      ensures r.None? ==> forall c :: !BindsReal(Value(), c)
    {
      var rest := mapClients.Keys;
      while rest != {}
        invariant rest <= mapClients.Keys
        invariant forall c :: BindsReal(Value(), c) ==> c in rest
        decreases rest
      {
        var c :| c in rest;
        if mapClients[c].bound.Some? && mapClients[c].bound.value.kind == RealIme {
          return Some(c);
        }
        rest := rest - {c};
      }
      return None;
    }

    method GetClientInfoByPid(pid: int) returns (r: Option<Client>)
      ensures FoundByPid(Value(), pid, r)
    {
      var rest := mapClients.Keys;
      while rest != {}
        invariant rest <= mapClients.Keys
        invariant forall c :: OfProcess(Value(), c, pid) ==> c in rest
        decreases rest
      {
        var c :| c in rest;
        if c.pid == pid {
          return Some(c);
        }
        rest := rest - {c};
      }
      return None;
    }

    /** A client of the process or, failing that, one hosted by it. */
    method GetClientInfoBySelfOrHost(pid: int) returns (r: Option<Client>)
      ensures FoundInGroup(Value(), pid, r)
    {
      r := None;
      var rest := mapClients.Keys;
      while rest != {}
        invariant rest <= mapClients.Keys
        invariant forall c :: OfProcess(Value(), c, pid) ==> c in rest
        invariant r.Some? ==> HostedBy(Value(), r.value, pid)
        invariant r.None? ==> forall c :: HostedBy(Value(), c, pid) ==> c in rest
        decreases rest
      {
        var c :| c in rest;
        if c.pid == pid {
          return Some(c);
        }
        if r.None? && mapClients[c].hostPid == pid {
          r := Some(c);
        }
        rest := rest - {c};
      }
    }

    /** The updates are applied in whatever order the map gives them. */
    method UpdateClientInfo(c: Client, updates: Updates)
      modifies this`mapClients
      ensures c !in old(mapClients) ==> mapClients == old(mapClients)
      ensures c in old(mapClients) ==>
        && c in mapClients && mapClients == old(mapClients)[c := mapClients[c]]
        && IsUpdated(mapClients[c], old(mapClients)[c], updates)
    {
      if c !in mapClients {
        return;
      }
      var info := mapClients[c];
      var rest := updates.Keys;
      ghost var done: Updates := map[];
      while rest != {}
        invariant rest <= updates.Keys && done.Keys == updates.Keys - rest
        invariant forall f :: f in done ==> done[f] == updates[f]
        invariant mapClients == old(mapClients) && IsUpdated(info, old(mapClients)[c], done)
        decreases rest
      {
        var flag :| flag in rest;
        OneMoreUpdate(info, old(mapClients)[c], done, flag, updates[flag]);
        info := UpdateField(info, flag, updates[flag]);
        rest := rest - {flag};
        done := done[flag := updates[flag]];
      }
      assert done == updates;
      mapClients := mapClients[c := info];
    }

    method UpdateField(info: ClientInfo, flag: UpdateFlag, value: Variant) returns (r: ClientInfo)
      ensures r == Updated(info, map[flag := value])
    {
      match (flag, value)
      case (ISSHOWKEYBOARD, Flag(b)) => return info.(isShowKeyboard := b);
      case (STATE, StateOf(state)) => return info.(state := state);
      case (TEXT_CONFIG, Config(config)) => return info.(config := config);
      case (UIEXTENSION_TOKENID, Token(token)) => return info.(tokenId := token);
      case (CLIENT_TYPE, TypeOf(clientType)) => return info.(clientType := clientType);
      case (BIND_IME_DATA, BindData(data)) => return info.(bound := data);
      case (UIEXTENSION_HOST_WINDOW_PID, Pid(pid)) => return info.(hostPid := pid);
      case (CLIENT_GROUP_ID, Id(id)) => return info.(groupId := id);
      case (REQUEST_KEYBOARD_REASON, Reason(reason)) => return info.(config := info.config.(reason := reason));
      case _ => return info;
    }

    /** The reason for showing comes as a plain number, which the typed update does not store. */
    method UpdateShown(c: Client, shown: bool, reason: int)
      modifies this`mapClients
      ensures Value() == Show(old(Value()), c, shown)
    {
      if shown {
        UpdateClientInfo(c, map[ISSHOWKEYBOARD := Flag(true), REQUEST_KEYBOARD_REASON := Pid(reason)]);
      } else {
        UpdateClientInfo(c, map[ISSHOWKEYBOARD := Flag(false)]);
      }
    }

    method ClearRequestKeyboardReason()
      modifies this`mapClients
      ensures Value() == ClearReason(old(Value()))
    {
      if currentClient.Some? && currentClient.value in mapClients {
        var info := mapClients[currentClient.value];
        mapClients := mapClients[currentClient.value := info.(config := info.config.(reason := NONE))];
      }
    }

    /** Both pointers and the registration of the client go. */
    method EvictClient(c: Client)
      modifies this
      ensures Value() == Evict(old(Value()), c)
    {
      if currentClient == Some(c) {
        currentClient := None;
      }
      if inactiveClient == Some(c) {
        inactiveClient := None;
      }
      RemoveClientInfo(c);
    }
  }

  class Session {
    var clientGroupMap: map<nat, ClientGroup>
    /** The client objects that ever attach: one per process. */
    ghost const clients: set<Client>

    ghost predicate Linked()
      reads this, clientGroupMap.Values
    {
      forall g :: g in clientGroupMap ==> clientGroupMap[g].displayGroupId == g
    }

    ghost function Groups(): State
      reads this, clientGroupMap.Values
    {
      map g | g in clientGroupMap :: clientGroupMap[g].Value()
    }

    ghost predicate Valid()
      reads this, clientGroupMap.Values
    {
      Linked() && OnePerProcess(clients) && Inv(Groups()) && Within(Groups(), clients)
    }

    constructor (ghost u: set<Client>)
      requires OnePerProcess(u)
      ensures Valid() && Groups() == map[] && clients == u
    {
      clientGroupMap := map[];
      clients := u;
    }

    // -------------------------------------------------------------------- lookups

    method GetClientBoundImeByImePid(pid: int) returns (r: Option<(nat, Client)>)
      requires Valid()
      ensures r == FindByImePid(Groups(), pid)
    {
      ghost var s := Groups();
      InvIsSafe(s);
      var rest := clientGroupMap.Keys;
      while rest != {}
        invariant rest <= clientGroupMap.Keys
        invariant forall g, c :: g in s && g !in rest ==> !BindsPid(s[g], c, pid)
        decreases rest
      {
        var g :| g in rest;
        var found := clientGroupMap[g].GetClientInfoByBindIme(pid);
        assert clientGroupMap[g].Value() == s[g];
        if found.Some? {
          ghost var f := FindByImePid(s, pid);
          assert BoundToPid(s, g, found.value, pid);
          LookupsAreDeterministic(s, pid, g, found.value, f.value.0, f.value.1);
          return Some((g, found.value));
        }
        rest := rest - {g};
      }
      return None;
    }

    method GetClientBoundRealIme() returns (r: Option<(nat, Client)>)
      requires Valid()
      ensures r == FindBoundReal(Groups())
    {
      ghost var s := Groups();
      InvIsSafe(s);
      var rest := clientGroupMap.Keys;
      while rest != {}
        invariant rest <= clientGroupMap.Keys
        invariant forall g, c :: g in s && g !in rest ==> !BindsReal(s[g], c)
        decreases rest
      {
        var g :| g in rest;
        var found := clientGroupMap[g].GetClientInfoBoundRealIme();
        assert clientGroupMap[g].Value() == s[g];
        if found.Some? {
          ghost var f := FindBoundReal(s);
          assert BoundToReal(s, g, found.value);
          LookupsAreDeterministic(s, 0, g, found.value, f.value.0, f.value.1);
          return Some((g, found.value));
        }
        rest := rest - {g};
      }
      return None;
    }

    method GetCurrentClientBoundRealIme() returns (r: Option<nat>)
      requires Valid()
      ensures r == FindCurrentBoundReal(Groups())
    {
      ghost var s := Groups();
      InvIsSafe(s);
      var rest := clientGroupMap.Keys;
      while rest != {}
        invariant rest <= clientGroupMap.Keys
        invariant forall g :: CurrentBoundToReal(s, g) ==> g in rest
        decreases rest
      {
        var g :| g in rest;
        var group := clientGroupMap[g];
        if group.currentClient.Some? && group.currentClient.value in group.mapClients {
          var info := group.mapClients[group.currentClient.value];
          if info.bound.Some? && info.bound.value.kind == RealIme {
            assert CurrentBoundToReal(s, g);
            ghost var f := FindCurrentBoundReal(s);
            LookupsAreDeterministic(s, 0, g, info.client, f.value, info.client);
            return Some(g);
          }
        }
        rest := rest - {g};
      }
      return None;
    }

    method GetClientBySelfPidOrHostPid(pid: int) returns (r: Option<(nat, Client)>)
      requires Valid()
      ensures FoundBySelfOrHost(Groups(), pid, r)
    {
      ghost var s := Groups();
      var rest := clientGroupMap.Keys;
      while rest != {}
        invariant rest <= clientGroupMap.Keys
        invariant forall g :: g in s && g !in rest ==> FoundInGroup(s[g], pid, None)
        decreases rest
      {
        var g :| g in rest;
        var found := clientGroupMap[g].GetClientInfoBySelfOrHost(pid);
        if found.Some? {
          return Some((g, found.value));
        }
        rest := rest - {g};
      }
      return None;
    }

    /** Any group that the client is registered in. */
    method GetClientGroup(c: Client) returns (r: Option<nat>)
      requires Valid()
      ensures r.Some? ==> Registered(Groups(), r.value, c)
      ensures r.None? ==> forall g :: !Registered(Groups(), g, c)
    {
      var rest := clientGroupMap.Keys;
      while rest != {}
        invariant rest <= clientGroupMap.Keys
        invariant forall g :: Registered(Groups(), g, c) ==> g in rest
        decreases rest
      {
        var g :| g in rest;
        if c in clientGroupMap[g].mapClients {
          return Some(g);
        }
        rest := rest - {g};
      }
      return None;
    }

    // -------------------------------------------------------- parts of the operations

    method RemoveClient(c: Client, group: ClientGroup)
      modifies group
      ensures group.Value() == Remove(old(group.Value()), c)
    {
      if group.currentClient == Some(c) {
        group.currentClient := None;
      } else if group.inactiveClient == Some(c) {
        group.inactiveClient := None;
      }
      group.RemoveClientInfo(c);
    }

    method DeactivateClient(c: Client, group: ClientGroup)
      modifies group
      ensures group.Value() == Deactivate(old(group.Value()), c)
    {
      if c !in group.mapClients {
        return;
      }
      group.UpdateClientInfo(c, map[STATE := StateOf(Inactive)]);
      if group.currentClient == Some(c) {
        group.currentClient := None;
      }
      group.inactiveClient := Some(c);
    }

    method ReplaceCurrentClient(c: Client, group: ClientGroup)
      modifies group
      ensures group.Value() == ReplaceCurrent(old(group.Value()), c)
    {
      if c !in group.mapClients {
        return;
      }
      var replaced := group.currentClient;
      group.currentClient := Some(c);
      if replaced.Some? && replaced.value in group.mapClients && replaced.value.pid != c.pid {
        RemoveClient(replaced.value, group);
      }
      var inactive := group.inactiveClient;
      if inactive.Some? && inactive.value in group.mapClients && inactive.value.pid != c.pid {
        RemoveClient(inactive.value, group);
      }
    }

    /** The client found in another group loses its pointers and its registration. */
    method HandleInMultiGroup(newGroup: nat, found: Option<(nat, Client)>)
      requires Linked()
      requires found.Some? ==> found.value.0 in clientGroupMap && found.value.1 in clientGroupMap[found.value.0].mapClients
      modifies clientGroupMap.Values
      ensures Linked() && Groups() == Preempt(old(Groups()), newGroup, found)
    {
      if found.None? {
        return;
      }
      var (g, c) := found.value;
      var group := clientGroupMap[g];
      var info := group.mapClients[c];
      if info.groupId == newGroup {
        return;
      }
      group.EvictClient(info.client);
      assert Groups() == old(Groups())[g := group.Value()];
    }

    /** `accepted`: the IME started input and, where it is told, the client took the channel. */
    method BindClientWithIme(c: Client, groupId: nat, shown: bool, ime: BindImeData, accepted: bool)
      requires Valid()
      modifies clientGroupMap.Values
      ensures Valid()
      ensures Groups() == if accepted then Bind(old(Groups()), c, groupId, shown, ime) else old(Groups())
    {
      if groupId !in clientGroupMap || !accepted || ime.kind == ImeMirror {
        return;
      }
      ghost var s := Groups();
      HandleOtherGroups(groupId, ime);
      ghost var cleared := Groups();
      var group := clientGroupMap[groupId];
      SetBinding(c, shown, ime, group);
      assert Linked();
      assert Groups() == Bind(s, c, groupId, shown, ime) by {
        assert Groups() == cleared[groupId := group.Value()];
      }
      BindKeepsInv(s, c, groupId, shown, ime, clients);
    }

    method HandleOtherGroups(groupId: nat, ime: BindImeData)
      requires Valid()
      modifies clientGroupMap.Values
      ensures Valid() && Groups() == ClearOtherGroups(old(Groups()), groupId, ime)
    {
      ghost var s := Groups();
      var sameIme := GetClientBoundImeByImePid(ime.pid);
      HandleInMultiGroup(groupId, sameIme);
      PreemptKeepsValid(s, groupId, sameIme, clients);
      if ime.kind == RealIme {
        ghost var s1 := Groups();
        var anyReal := GetClientBoundRealIme();
        HandleInMultiGroup(groupId, anyReal);
        PreemptKeepsValid(s1, groupId, anyReal, clients);
      }
    }

    method SetBinding(c: Client, shown: bool, ime: BindImeData, group: ClientGroup)
      modifies group
      ensures group.Value() == ReplaceCurrent(Mark(old(group.Value()), c, shown, ime), c)
    {
      group.UpdateClientInfo(c, map[
        ISSHOWKEYBOARD := Flag(shown), STATE := StateOf(Active), BIND_IME_DATA := BindData(Some(ime))]);
      ReplaceCurrentClient(c, group);
    }

    method HandleBindImeChanged(c: Client, ime: BindImeData, group: ClientGroup)
      modifies group
      ensures group.Value() == PrepareRebind(old(group.Value()), c, ime)
    {
      if ime.kind == ImeMirror {
        return;
      }
      var prior: Option<ClientInfo> := None;
      var isClientInactive := false;
      if group.currentClient.Some? && group.currentClient.value in group.mapClients {
        prior := Some(group.mapClients[group.currentClient.value]);
      } else if group.inactiveClient.Some? {
        isClientInactive := true;
        if group.inactiveClient.value in group.mapClients {
          prior := Some(group.mapClients[group.inactiveClient.value]);
        }
      }
      if prior.None? || (prior.value.bound.Some? && prior.value.bound.value.pid == ime.pid) {
        return;
      }
      if (prior.value.bound.None? || prior.value.bound.value.kind == ime.kind) && ime.kind == RealIme {
        return;
      }
      if !isClientInactive && c != prior.value.client {
        group.currentClient := None;
        group.RemoveClientInfo(prior.value.client);
      }
    }

    // ------------------------------------------------------------------ entry points

    method OnPrepareInput(r: Request, recipientAdded: bool) returns (ok: bool, ghost found: Option<(nat, Client)>)
      requires Valid() && r.client in clients
      modifies this, clientGroupMap.Values
      ensures Valid()
      ensures Enabled(old(Groups()), PrepareInput(r, recipientAdded, found))
      ensures Groups() == Next(old(Groups()), PrepareInput(r, recipientAdded, found))
      ensures ok <==> r.groupId in clientGroupMap && r.client in clientGroupMap[r.groupId].mapClients
    {
      var f := GetClientBySelfPidOrHostPid(r.client.pid);
      found := f;
      ghost var s := Groups();
      HandleInMultiGroup(r.groupId, f);
      ok := AddClientInfo(r, recipientAdded);
      NextKeepsInv(s, PrepareInput(r, recipientAdded, found), clients);
    }

    method AddClientInfo(r: Request, recipientAdded: bool) returns (ok: bool)
      requires Linked()
      modifies this, clientGroupMap.Values
      ensures Linked() && Groups() == Register(old(Groups()), r, recipientAdded)
      ensures ok <==> r.groupId in clientGroupMap && r.client in clientGroupMap[r.groupId].mapClients
    {
      ghost var s := Groups();
      if r.groupId in clientGroupMap {
        var group := clientGroupMap[r.groupId];
        ok := group.AddClientInfo(r, recipientAdded);
        assert Groups() == s[r.groupId := group.Value()];
      } else {
        var group := new ClientGroup(r.groupId);
        ok := group.AddClientInfo(r, recipientAdded);
        if ok {
          clientGroupMap := clientGroupMap[r.groupId := group];
          assert Groups() == s[r.groupId := group.Value()];
        }
      }
    }

    method OnStartInput(r: Request, ime: BindImeData, accepted: bool)
      requires Valid()
      modifies clientGroupMap.Values
      ensures Valid() && Groups() == Next(old(Groups()), StartInput(r, ime, accepted))
    {
      if r.groupId in clientGroupMap {
        ghost var s := Groups();
        var group := clientGroupMap[r.groupId];
        HandleBindImeChanged(r.client, ime, group);
        assert Groups() == s[r.groupId := group.Value()];
        NextKeepsInv(s, StartInput(r, ime, false), clients);
        BindClientWithIme(r.client, r.groupId, r.isShowKeyboard, ime, accepted);
      }
    }

    /** `g` is the group that the search found; an unknown client changes nothing. */
    method OnReleaseInput(c: Client) returns (ghost g: nat)
      requires Valid()
      modifies clientGroupMap.Values
      ensures Valid() && Enabled(old(Groups()), ReleaseInput(g, c))
      ensures Groups() == Next(old(Groups()), ReleaseInput(g, c))
    {
      ghost var s := Groups();
      var found := GetClientGroup(c);
      g := if found.Some? then found.value else 0;
      assert Groups() == s;
      if found.Some? {
        RemoveClient(c, clientGroupMap[found.value]);
        assert Groups() == s[found.value := clientGroupMap[found.value].Value()];
      }
      NextKeepsInv(s, ReleaseInput(g, c), clients);
    }

    method OnClientDied(c: Client) returns (ghost g: nat)
      requires Valid()
      modifies clientGroupMap.Values
      ensures Valid() && Enabled(old(Groups()), ClientDied(g, c))
      ensures Groups() == Next(old(Groups()), ClientDied(g, c))
    {
      ghost var s := Groups();
      var found := GetClientGroup(c);
      g := if found.Some? then found.value else 0;
      assert Groups() == s;
      if found.Some? {
        clientGroupMap[found.value].EvictClient(c);
        assert Groups() == s[found.value := clientGroupMap[found.value].Value()];
      }
      NextKeepsInv(s, ClientDied(g, c), clients);
    }

    method OnFocused(g: nat, curFocused: bool, sceneBoard: bool)
      requires Valid()
      modifies clientGroupMap.Values
      ensures Valid() && Groups() == Next(old(Groups()), Focused(g, curFocused, sceneBoard))
    {
      ghost var s := Groups();
      if g in clientGroupMap && clientGroupMap[g].currentClient.Some? && !curFocused {
        var group := clientGroupMap[g];
        if sceneBoard {
          DeactivateClient(group.currentClient.value, group);
        } else {
          RemoveClient(group.currentClient.value, group);
        }
        assert Groups() == s[g := group.Value()];
      }
      NextKeepsInv(s, Focused(g, curFocused, sceneBoard), clients);
    }

    method OnUnfocused(g: nat, pid: int, curUnfocused: bool) returns (ghost found: Option<Client>)
      requires Valid()
      modifies clientGroupMap.Values
      ensures Valid() && Enabled(old(Groups()), Unfocused(g, pid, curUnfocused, found))
      ensures Groups() == Next(old(Groups()), Unfocused(g, pid, curUnfocused, found))
    {
      ghost var s := Groups();
      found := None;
      if g in clientGroupMap {
        var group := clientGroupMap[g];
        var c := group.GetClientInfoByPid(pid);
        found := c;
        if group.currentClient.Some? && !curUnfocused && c.Some? {
          RemoveClient(c.value, group);
          assert Groups() == s[g := group.Value()];
        }
      }
      NextKeepsInv(s, Unfocused(g, pid, curUnfocused, found), clients);
    }

    method HideInGroup(group: ClientGroup, caller: string)
      modifies group
      ensures group.Value() == RequestHide(old(group.Value()), caller)
    {
      if group.currentClient.Some? {
        var c := group.currentClient.value;
        if caller != "" && c in group.mapClients && caller != group.mapClients[c].config.bundleName {
          RemoveClient(c, group);
        } else {
          group.UpdateShown(c, false, 0);
        }
      }
      if group.inactiveClient.Some? {
        RemoveClient(group.inactiveClient.value, group);
      }
    }

    method UpdateClientAfterRequestHide(g: nat, caller: string)
      requires Valid()
      modifies clientGroupMap.Values
      ensures Valid() && Groups() == Next(old(Groups()), HideRequested(g, caller))
    {
      ghost var s := Groups();
      if g in clientGroupMap {
        HideInGroup(clientGroupMap[g], caller);
        assert Groups() == s[g := clientGroupMap[g].Value()];
      }
      NextKeepsInv(s, HideRequested(g, caller), clients);
    }

    /** Showing or hiding the keyboard of a group's client, once the IME did it. */
    method SetKeyboardShown(g: nat, c: Client, shown: bool, reason: int)
      requires Valid()
      modifies clientGroupMap.Values
      ensures Valid() && Groups() == Next(old(Groups()), KeyboardShown(g, c, shown))
    {
      ghost var s := Groups();
      if g in clientGroupMap {
        var group := clientGroupMap[g];
        group.UpdateShown(c, shown, reason);
        assert Groups() == s[g := group.Value()];
      }
      NextKeepsInv(s, KeyboardShown(g, c, shown), clients);
    }

    method RemoveAllCurrentClient()
      requires Valid()
      modifies clientGroupMap.Values
      ensures Valid() && Groups() == Next(old(Groups()), SceneBoardStopped)
    {
      ghost var s := Groups();
      RemoveEachCurrent();
      NextKeepsInv(s, SceneBoardStopped, clients);
    }

    method RemoveEachCurrent()
      requires Linked()
      modifies clientGroupMap.Values
      ensures Linked() && Groups() == RemoveAllCurrent(old(Groups()))
    {
      ghost var s := Groups();
      var rest := clientGroupMap.Keys;
      while rest != {}
        invariant rest <= clientGroupMap.Keys && Linked()
        invariant forall g :: g in clientGroupMap ==>
          clientGroupMap[g].Value() == if g in rest then s[g] else RemoveCurrent(s[g])
        decreases rest
      {
        var g :| g in rest;
        RemoveCurrentOf(clientGroupMap[g]);
        rest := rest - {g};
      }
      assert Groups() == RemoveAllCurrent(s);
    }

    method RemoveCurrentOf(group: ClientGroup)
      modifies group
      ensures group.Value() == RemoveCurrent(old(group.Value()))
    {
      if group.currentClient.Some? {
        RemoveClient(group.currentClient.value, group);
      }
    }

    /** `needBind`: no attach is under way that would bind the client itself. */
    method OnSetCoreAndAgent(ime: BindImeData, needBind: bool, accepted: bool)
      requires Valid() && ime.kind == RealIme
      modifies clientGroupMap.Values
      ensures Valid() && Groups() == Next(old(Groups()), ImeReady(ime, needBind, accepted))
    {
      if !needBind {
        return;
      }
      ghost var s := Groups();
      var g := GetCurrentClientBoundRealIme();
      if g.Some? {
        ForgetReason(g.value);
        NextKeepsInv(s, ImeReady(ime, true, false), clients);
        BindCurrentClient(g.value, ime, accepted);
      }
    }

    method ForgetReason(g: nat)
      requires Linked() && g in clientGroupMap
      modifies clientGroupMap.Values
      ensures Linked() && Groups() == old(Groups())[g := ClearReason(old(Groups())[g])]
    {
      ghost var s := Groups();
      var group := clientGroupMap[g];
      group.ClearRequestKeyboardReason();
      assert Groups() == s[g := group.Value()];
    }

    /** Back from a proxy to the real IME: the client was looked up before the IME was started. */
    method BindAfterProxy(c: Client, g: nat, shown: bool, ime: BindImeData, accepted: bool)
      requires Valid()
      modifies clientGroupMap.Values
      ensures Valid() && Groups() == Next(old(Groups()), LateBind(c, g, shown, ime, accepted))
    {
      BindClientWithIme(c, g, shown, ime, accepted);
    }

    /** Registering or unregistering a proxy re-binds the display group's current client. */
    method RebindCurrentClient(g: nat, ime: BindImeData, accepted: bool)
      requires Valid()
      modifies clientGroupMap.Values
      ensures Valid() && Groups() == Next(old(Groups()), ProxyChanged(g, ime, accepted))
    {
      BindCurrentClient(g, ime, accepted);
    }

    method BindCurrentClient(g: nat, ime: BindImeData, accepted: bool)
      requires Valid()
      modifies clientGroupMap.Values
      ensures Valid() && Groups() == if accepted then BindCurrent(old(Groups()), g, ime) else old(Groups())
    {
      if g in clientGroupMap {
        var group := clientGroupMap[g];
        if group.currentClient.Some? && group.currentClient.value in group.mapClients {
          var info := group.mapClients[group.currentClient.value];
          BindClientWithIme(info.client, info.groupId, info.isShowKeyboard, ime, accepted);
        }
      }
    }
  }
}
