/**
 * The connection manager of packages/mcp-host/src/connection-manager.ts on the heap: entries and
 * clients are objects compared by reference, and the asynchronous methods are cut at their awaits.
 * The state machine numbers the same entries and clients; every method here is one of its events.
 */
module ConnectionManagerClass {
  import opened Options
  import opened ConnectionManager
  import ConnectionLeaks
  import ConnectionNews

  function AddsOf(configs: seq<(string, Config, Option<StartupError>)>): seq<Event> {
    if configs == [] then []
    else
      var (name, config, invalid) := configs[|configs| - 1];
      AddsOf(configs[..|configs| - 1]) + [Add(name, config, invalid)]
  }

  lemma AddsOneMore(configs: seq<(string, Config, Option<StartupError>)>, i: nat)
    requires i < |configs|
    ensures AddsOf(configs[..i + 1]) == AddsOf(configs[..i]) + [Add(configs[i].0, configs[i].1, configs[i].2)]
  {
    assert configs[..i + 1][..i] == configs[..i];
  }

  lemma ReachableStep(s: State, ev: Event)
    requires Reachable(s) && Next(s, ev).Some?
    ensures Reachable(Next(s, ev).value)
  {
    var evs :| LeadsTo(EMPTY, evs, s);
    RunGrows(EMPTY, evs, s, ev);
  }

  // c is the client of an entry filed under one of these names.
  ghost predicate HeldBy(s: State, names: set<string>, c: ClientId)
    requires WellFormed(s)
  {
    exists n :: n in names && n in s.entries && s.objects[s.entries[n]].client == Some(c)
  }

  // A shutdown that has closed the clients of the entries under these names.
  ghost function PartlyDown(s: State, names: set<string>): (r: State)
    requires WellFormed(s)
    ensures WellFormed(r)
  {
    State(
      seq(|s.objects|, e requires 0 <= e < |s.objects| =>
        if InMap(s, e) && s.objects[e].name in names then s.objects[e].(client := None) else s.objects[e]),
      map[],
      seq(|s.clients|, c requires 0 <= c < |s.clients| =>
        if HeldBy(s, names, c) then s.clients[c].(closed := true) else s.clients[c]),
      s.tasks,
      s.emitted)
  }

  lemma PartlyDownAtFirst(s: State)
    requires WellFormed(s)
    ensures PartlyDown(s, {}) == s.(entries := map[])
  {
    assert PartlyDown(s, {}).objects == s.objects;
    assert PartlyDown(s, {}).clients == s.clients;
  }

  lemma PartlyDownStep(s: State, names: set<string>, n: string)
    requires WellFormed(s) && n in s.entries && n !in names
    ensures CloseClient(PartlyDown(s, names), s.entries[n]) == PartlyDown(s, names + {n})
  {
    var p, q := CloseClient(PartlyDown(s, names), s.entries[n]), PartlyDown(s, names + {n});
    forall e | 0 <= e < |s.objects| ensures p.objects[e] == q.objects[e] {
      assert InMap(s, e) && s.objects[e].name == n ==> e == s.entries[n];
    }
    assert p.objects == q.objects;
    forall c: ClientId | c < |s.clients| ensures p.clients[c] == q.clients[c] {
      HeldByOneMore(s, names, n, c);
    }
    assert p.clients == q.clients;
  }

  lemma HeldByOneMore(s: State, names: set<string>, n: string, c: ClientId)
    requires WellFormed(s) && n in s.entries
    ensures HeldBy(s, names + {n}, c) <==> HeldBy(s, names, c) || s.objects[s.entries[n]].client == Some(c)
  {
    if HeldBy(s, names, c) {
      var m :| m in names && m in s.entries && s.objects[s.entries[m]].client == Some(c);
      assert m in names + {n};
    }
    if s.objects[s.entries[n]].client == Some(c) {
      assert n in names + {n};
    }
  }

  function ShowFailed(s: State, e: EntryId, error: StartupError): (r: State)
    requires WellFormed(s) && e < |s.objects|
    ensures WellFormed(r)
  {
    s.(objects := s.objects[e := s.objects[e].(face := FailedFace(s.objects[e].config, error))])
  }

  lemma FailureInSteps(s: State, t: TaskId, e: EntryId, attemptId: nat, client: Option<ClientId>, error: StartupError)
    requires WellFormed(s) && t < |s.tasks| && e < |s.objects| && IsCurrent(s, e, attemptId)
    requires client.Some? ==> client.value < |s.clients|
    ensures HandleFailure(s, t, e, attemptId, client, error) ==
            Become(CloseClient(ShowFailed(s, e, error), e), t, Reporting(e, attemptId))
  {
  }

  lemma HeldAreClosed(s: State, n: string)
    requires WellFormed(s) && n in s.entries
    ensures ShutDown(s).objects[s.entries[n]].client == None
    ensures var held := s.objects[s.entries[n]].client; held.Some? ==> ShutDown(s).clients[held.value].closed
  {
  }

  lemma OneLeft(names: set<string>, left: set<string>, n: string)
    requires n in left && left <= names
    ensures names - left + {n} == names - (left - {n}) && n !in names - left
  {
  }

  lemma PartlyDownAtLast(s: State)
    requires WellFormed(s)
    ensures PartlyDown(s, s.entries.Keys) == ShutDown(s)
  {
    assert PartlyDown(s, s.entries.Keys).objects == ShutDown(s).objects;
    assert PartlyDown(s, s.entries.Keys).clients == ShutDown(s).clients;
  }

  datatype ReconnectError = ServerNotFound | ServerDisabled

  // The numbers, and which attempt a client was created for, are history.
  class RuntimeClient {
    ghost const id: ClientId
    ghost const entry: EntryId
    ghost const attemptId: nat
    ghost const task: TaskId
    var closed: bool
    var ready: bool
    var watched: bool
    var died: bool
    ghost var listed: Option<seq<Tool>>

    constructor (ghost id: ClientId, ghost entry: EntryId, ghost attemptId: nat, ghost task: TaskId)
      ensures this.id == id && Record() == Client(entry, attemptId, task, false, false, false, false, None)
    {
      this.id, this.entry, this.attemptId, this.task := id, entry, attemptId, task;
      closed, ready, watched, died, listed := false, false, false, false, None;
    }

    ghost function Record(): Client
      reads this
    {
      Client(entry, attemptId, task, closed, ready, watched, died, listed)
    }
  }

  class InternalEntry {
    ghost const id: EntryId
    const name: string
    const config: Config
    var attemptId: nat
    var status: Status
    var tools: Option<seq<Tool>>
    var enabledNames: Option<set<string>>
    var error: Option<EntryError>
    var client: RuntimeClient?
    ghost var task: TaskId

    constructor (ghost id: EntryId, name: string, config: Config, ghost task: TaskId)
      ensures this.id == id && this.name == name && this.config == config && client == null
      ensures Record() == NewEntry(name, config, task)
    {
      this.id, this.name, this.config, this.task := id, name, config, task;
      attemptId, status := 0, if config.enabled then Pending else Disabled;
      tools, enabledNames, error, client := None, None, None, null;
    }

    ghost function Record(): Entry
      reads this
    {
      Entry(name, config, attemptId, Face(status, tools, enabledNames, error),
            if client == null then None else Some(client.id), task)
    }

    function ToPublic(): (v: View)
      reads this
      ensures v == ToPublicEntry(Record())
    {
      View(name, status, if status.Connected? && enabledNames.Some? then |enabledNames.value| else 0, error)
    }

    method MarkConnected(discovered: seq<Tool>)
      modifies this
      ensures client == old(client) && Record() == old(Record()).(face := ConnectedFace(old(Record()), discovered))
    {
      tools := Some(discovered);
      enabledNames := Some(ComputeEnabledNames(config, discovered));
      status := Connected;
    }

    method MarkPending()
      modifies this
      ensures client == old(client) && Record() == old(Record()).(face := PENDING)
    {
      status := Pending;
      tools, enabledNames, error := None, None, None;
    }

    method MarkClosed()
      modifies this
      ensures client == null && Record() == old(Record()).(face := CLOSED, client := None)
    {
      status, error := Failed, Some(ClosedUnexpectedly);
      tools, enabledNames := None, None;
      client := null;
    }

    method MarkFailed(startupError: StartupError)
      modifies this
      ensures Record() == old(Record()).(face := FailedFace(config, startupError)) && client == old(client)
    {
      if config.canAuthorize && startupError.unauthorizedLike {
        status, error := NeedsAuth, Some(RequiresLogin);
      } else {
        status, error := Failed, Some(StartupFailed(startupError.message));
      }
      tools := None;
      enabledNames := None;
    }
  }

  ghost predicate Filed(objects: seq<InternalEntry>, entry: InternalEntry) {
    entry.id < |objects| && objects[entry.id] == entry
  }

  ghost predicate Known(clients: seq<RuntimeClient>, client: RuntimeClient) {
    client.id < |clients| && clients[client.id] == client
  }

  ghost predicate EntriesMatch(objects: seq<InternalEntry>, clients: seq<RuntimeClient>, records: seq<Entry>)
    reads objects
  {
    && |objects| == |records|
    && forall e :: 0 <= e < |objects| ==>
      && objects[e].id == e && objects[e].Record() == records[e]
      && (objects[e].client != null ==> Known(clients, objects[e].client))
  }

  ghost predicate ClientsMatch(clients: seq<RuntimeClient>, records: seq<Client>)
    reads clients
  {
    |clients| == |records| && forall c :: 0 <= c < |clients| ==> clients[c].id == c && clients[c].Record() == records[c]
  }

  ghost predicate MapMatches(
    entries: map<string, InternalEntry>, objects: seq<InternalEntry>, ids: map<string, EntryId>)
  {
    entries.Keys == ids.Keys && forall n :: n in entries ==> Filed(objects, entries[n]) && entries[n].id == ids[n]
  }

  lemma EntriesGrow(objects: seq<InternalEntry>, clients: seq<RuntimeClient>, records: seq<Entry>, entry: InternalEntry)
    requires EntriesMatch(objects, clients, records) && entry.id == |objects| && entry.client == null
    ensures EntriesMatch(objects + [entry], clients, records + [entry.Record()])
  {
  }

  lemma AddedIsWellFormed(s: State, o: Entry)
    requires WellFormed(s) && o.client.None?
    ensures WellFormed(s.(objects := s.objects + [o], entries := s.entries[o.name := |s.objects|]))
  {
  }

  lemma MapGrows(entries: map<string, InternalEntry>, objects: seq<InternalEntry>, ids: map<string, EntryId>,
      name: string, entry: InternalEntry)
    requires MapMatches(entries, objects, ids) && entry.id == |objects|
    ensures MapMatches(entries[name := entry], objects + [entry], ids[name := entry.id])
  {
  }

  lemma MoreClients(objects: seq<InternalEntry>, clients: seq<RuntimeClient>, records: seq<Entry>,
      client: RuntimeClient)
    requires EntriesMatch(objects, clients, records)
    ensures EntriesMatch(objects, clients + [client], records)
  {
  }

  lemma ClientsGrow(clients: seq<RuntimeClient>, records: seq<Client>, client: RuntimeClient)
    requires ClientsMatch(clients, records) && client.id == |clients|
    ensures ClientsMatch(clients + [client], records + [client.Record()])
  {
  }

  class McpConnectionManager {
    var entries: map<string, InternalEntry>
    var emitted: seq<View>
    ghost var objects: seq<InternalEntry>
    ghost var clients: seq<RuntimeClient>
    ghost var model: State

    // The objects hold what the state says, and each is where its number says.
    ghost predicate Rep()
      reads this, objects, clients
    {
      && WellFormed(model)
      && EntriesMatch(objects, clients, model.objects)
      && ClientsMatch(clients, model.clients)
      && MapMatches(entries, objects, model.entries)
      && emitted == model.emitted
    }

    ghost predicate Valid()
      reads this, objects, clients
    {
      Rep() && Reachable(model)
    }

    twostate predicate Grown()
      reads this
    {
      && old(objects) <= objects && (forall e :: |old(objects)| <= e < |objects| ==> fresh(objects[e]))
      && old(clients) <= clients && (forall c :: |old(clients)| <= c < |clients| ==> fresh(clients[c]))
    }

    constructor ()
      ensures Valid() && model == EMPTY
    {
      entries, emitted, objects, clients, model := map[], [], [], [], EMPTY;
      new;
      assert IsRun([EMPTY], []) && LeadsTo(EMPTY, [], EMPTY);
    }

    predicate IsCurrent(entry: InternalEntry, attemptId: nat)
      reads this, entry
    {
      entry.name in entries && entries[entry.name] == entry && entry.attemptId == attemptId
    }

    // Comparing references is comparing numbers.
    lemma IdentityIsNumber(entry: InternalEntry, attemptId: nat)
      requires Rep() && Filed(objects, entry)
      ensures IsCurrent(entry, attemptId) == ConnectionManager.IsCurrent(model, entry.id, attemptId)
    {
    }

    method Emit(entry: InternalEntry)
      requires Rep() && Filed(objects, entry)
      modifies `emitted, `model
      ensures Rep() && model == ConnectionManager.Emit(old(model), entry.id)
    {
      emitted := emitted + [entry.ToPublic()];
      model := ConnectionManager.Emit(model, entry.id);
    }

    method CloseRuntimeClient(client: RuntimeClient)
      requires Rep() && Known(clients, client)
      modifies `model, client
      ensures Rep() && model == ConnectionManager.CloseRuntimeClient(old(model), client.id)
    {
      client.closed := true;
      model := ConnectionManager.CloseRuntimeClient(model, client.id);
    }

    method CloseClient(entry: InternalEntry)
      requires Rep() && Filed(objects, entry)
      modifies `model, entry, clients
      ensures Rep() && model == ConnectionManager.CloseClient(old(model), entry.id)
    {
      if entry.client == null {
        return;
      }
      var client := entry.client;
      entry.client := null;
      model := model.(objects := model.objects[entry.id := model.objects[entry.id].(client := None)]);
      CloseRuntimeClient(client);
    }

    ghost method Become(t: TaskId, task: Task)
      requires Rep() && t < |model.tasks|
      requires !task.Finished? ==> task.entry < |objects| && (HasClient(task) ==> task.client < |clients|)
      modifies `model
      ensures Rep() && model == ConnectionManager.Become(old(model), t, task)
    {
      model := ConnectionManager.Become(model, t, task);
    }

    method MarkFailed(entry: InternalEntry, error: StartupError)
      requires Rep() && Filed(objects, entry)
      modifies `model, entry
      ensures Rep() && model == ShowFailed(old(model), entry.id, error)
    {
      entry.MarkFailed(error);
      model := model.(objects := model.objects[entry.id := entry.Record()]);
    }

    // The catch branch of connectOne: a superseded attempt closes what it built, a current one says so.
    method ConnectOneFailed(ghost t: TaskId, entry: InternalEntry, attemptId: nat, client: RuntimeClient?,
        error: StartupError)
      requires Rep() && Filed(objects, entry) && (client != null ==> Known(clients, client)) && t < |model.tasks|
      modifies `model, entry, clients
      ensures Rep()
      ensures model ==
              HandleFailure(old(model), t, entry.id, attemptId, if client == null then None else Some(client.id), error)
    {
      IdentityIsNumber(entry, attemptId);
      if IsCurrent(entry, attemptId) {
        FailureInSteps(model, t, entry.id, attemptId, if client == null then None else Some(client.id), error);
        GiveUp(t, entry, attemptId, error);
      } else {
        if client != null {
          CloseRuntimeClient(client);
        }
        Become(t, Finished);
      }
    }

    method GiveUp(ghost t: TaskId, entry: InternalEntry, attemptId: nat, error: StartupError)
      requires Rep() && Filed(objects, entry) && t < |model.tasks|
      modifies `model, entry, clients
      ensures Rep()
      ensures model == ConnectionManager.Become(
        ConnectionManager.CloseClient(ShowFailed(old(model), entry.id, error), entry.id), t,
        Reporting(entry.id, attemptId))
    {
      MarkFailed(entry, error);
      CloseClient(entry);
      Become(t, Reporting(entry.id, attemptId));
    }

    method CreateClient(ghost t: TaskId, ghost e: EntryId, ghost attemptId: nat) returns (client: RuntimeClient)
      requires Rep() && e < |objects| && t < |model.tasks|
      modifies `model, `clients
      ensures Rep() && fresh(client) && clients == old(clients) + [client] && client.id == |old(clients)|
      ensures model == old(model).(
        clients := old(model).clients + [Client(e, attemptId, t, false, false, false, false, None)])
    {
      client := new RuntimeClient(|clients|, e, attemptId, t);
      MoreClients(objects, clients, model.objects, client);
      ClientsGrow(clients, model.clients, client);
      clients := clients + [client];
      model := model.(clients := model.clients + [client.Record()]);
    }

    method Attach(entry: InternalEntry, client: RuntimeClient)
      requires Rep() && Filed(objects, entry) && Known(clients, client)
      modifies `model, entry
      ensures Rep() && model == old(model).(
        objects := old(model).objects[entry.id := old(model).objects[entry.id].(client := Some(client.id))])
    {
      entry.client := client;
      model := model.(objects := model.objects[entry.id := entry.Record()]);
    }

    // connectOne up to its first await; `invalid` is what building the client throws.
    method ConnectOne(ghost t: TaskId, entry: InternalEntry, attemptId: nat, invalid: Option<StartupError>)
      requires Rep() && Filed(objects, entry) && t < |model.tasks|
      modifies `model, `clients, entry, clients
      ensures Rep() && Grown()
      ensures model == StartConnect(old(model), t, entry.id, attemptId, invalid)
    {
      if invalid.Some? {
        ConnectOneFailed(t, entry, attemptId, null, invalid.value);
      } else {
        var client := CreateClient(t, entry.id, attemptId);
        Attach(entry, client);
        Become(t, Connecting(entry.id, attemptId, client.id));
      }
    }

    method MarkPending(entry: InternalEntry)
      requires Rep() && Filed(objects, entry)
      modifies `model, entry
      ensures Rep() && model == old(model).(objects := old(model).objects[entry.id := old(model).objects[entry.id].(
        face := PENDING)])
    {
      entry.MarkPending();
      model := model.(objects := model.objects[entry.id := entry.Record()]);
    }

    method MarkClosed(entry: InternalEntry)
      requires Rep() && Filed(objects, entry)
      modifies `model, entry
      ensures Rep() && model == old(model).(objects := old(model).objects[entry.id := old(model).objects[entry.id].(
        face := CLOSED, client := None)])
    {
      entry.MarkClosed();
      model := model.(objects := model.objects[entry.id := entry.Record()]);
    }

    // The listener that watchForUnexpectedClose registers.
    method OnUnexpectedClose(client: RuntimeClient, entry: InternalEntry, attemptId: nat)
      requires Rep() && Filed(objects, entry) && Known(clients, client)
      modifies `model, `emitted, entry, client
      ensures Rep()
      ensures model == ConnectionManager.OnUnexpectedClose(old(model), client.id, entry.id, attemptId)
    {
      IdentityIsNumber(entry, attemptId);
      if !IsCurrent(entry, attemptId) || entry.client != client {
        return;
      }
      MarkClosed(entry);
      CloseRuntimeClient(client);
      Emit(entry);
    }

    // Registering with the client replays a close that came first.
    method WatchForUnexpectedClose(client: RuntimeClient, entry: InternalEntry, attemptId: nat)
      requires Rep() && Filed(objects, entry) && Known(clients, client)
      modifies `model, `emitted, entry, client
      ensures Rep()
      ensures model == ConnectionManager.WatchForUnexpectedClose(old(model), client.id, entry.id, attemptId)
    {
      var replay := client.died;
      client.watched, client.died := true, false;
      model := model.(clients := model.clients[client.id := client.Record()]);
      if replay {
        OnUnexpectedClose(client, entry, attemptId);
      }
    }

    method MarkConnected(entry: InternalEntry, tools: seq<Tool>)
      requires Rep() && Filed(objects, entry)
      modifies `model, entry
      ensures Rep() && model == old(model).(objects := old(model).objects[entry.id := old(model).objects[entry.id].(
        face := ConnectedFace(old(model).objects[entry.id], tools))])
    {
      entry.MarkConnected(tools);
      model := model.(objects := model.objects[entry.id := entry.Record()]);
    }

    method EmitIfCurrent(entry: InternalEntry, attemptId: nat)
      requires Rep() && Filed(objects, entry)
      modifies `model, `emitted
      ensures Rep()
      ensures model == if ConnectionManager.IsCurrent(old(model), entry.id, attemptId)
                       then ConnectionManager.Emit(old(model), entry.id) else old(model)
    {
      IdentityIsNumber(entry, attemptId);
      if IsCurrent(entry, attemptId) {
        Emit(entry);
      }
    }

    // connectOne after a successful race.
    method ConnectOneSucceeded(ghost t: TaskId, entry: InternalEntry, attemptId: nat, client: RuntimeClient,
        tools: seq<Tool>)
      requires Rep() && Filed(objects, entry) && Known(clients, client) && t < |model.tasks|
      modifies `model, `emitted, entry, client
      ensures Rep()
      ensures model == FinishConnect(old(model), t, entry.id, attemptId, client.id, tools)
    {
      IdentityIsNumber(entry, attemptId);
      if IsCurrent(entry, attemptId) {
        Install(t, entry, attemptId, client, tools);
      } else {
        Become(t, Finished);
        CloseRuntimeClient(client);
      }
    }

    method Install(ghost t: TaskId, entry: InternalEntry, attemptId: nat, client: RuntimeClient, tools: seq<Tool>)
      requires Rep() && Filed(objects, entry) && Known(clients, client) && t < |model.tasks|
      requires ConnectionManager.IsCurrent(model, entry.id, attemptId)
      modifies `model, `emitted, entry, client
      ensures Rep() && model == FinishConnect(old(model), t, entry.id, attemptId, client.id, tools)
    {
      Become(t, Finished);
      MarkConnected(entry, tools);
      WatchForUnexpectedClose(client, entry, attemptId);
      EmitIfCurrent(entry, attemptId);
    }

    method BeginConnectAttempt(entry: InternalEntry) returns (attemptId: nat)
      requires Rep() && Filed(objects, entry)
      modifies `model, entry
      ensures Rep() && attemptId == old(entry.attemptId) + 1 == entry.attemptId
      ensures model == old(model).(
        objects := old(model).objects[entry.id := old(model).objects[entry.id].(
          attemptId := attemptId, task := |old(model).tasks|)],
        tasks := old(model).tasks + [Closing(entry.id, attemptId)])
    {
      entry.attemptId := entry.attemptId + 1;
      entry.task := |model.tasks|;
      attemptId := entry.attemptId;
      model := model.(
        objects := model.objects[entry.id := entry.Record()],
        tasks := model.tasks + [Closing(entry.id, attemptId)]);
    }

    method SetEntry(name: string, config: Config) returns (entry: InternalEntry)
      requires Rep()
      modifies `model, `objects, `entries
      ensures Rep() && fresh(entry) && objects == old(objects) + [entry] && entry.id == |old(objects)|
      ensures entry.config == config && entry.attemptId == 0
      ensures model == old(model).(
        objects := old(model).objects + [NewEntry(name, config, |old(model).tasks|)],
        entries := old(model).entries[name := entry.id])
    {
      entry := new InternalEntry(|objects|, name, config, |model.tasks|);
      AddedIsWellFormed(model, entry.Record());
      EntriesGrow(objects, clients, model.objects, entry);
      MapGrows(entries, objects, model.entries, name, entry);
      entries := entries[name := entry];
      objects := objects + [entry];
      model := model.(objects := model.objects + [entry.Record()], entries := model.entries[name := entry.id]);
    }

    method Enlist(name: string, config: Config) returns (entry: InternalEntry)
      requires Rep()
      modifies `model, `objects, `entries, `emitted
      ensures Rep() && fresh(entry) && objects == old(objects) + [entry] && entry.id == |old(objects)|
      ensures config.enabled ==> entry.attemptId == 1
      ensures model == ConnectionManager.Enlist(old(model), name, config)
    {
      entry := SetEntry(name, config);
      Emit(entry);
      if config.enabled {
        var _ := BeginConnectAttempt(entry);
      }
    }

    method EnlistAndConnect(name: string, config: Config, invalid: Option<StartupError>)
      requires Rep()
      modifies this, objects, clients
      ensures Rep() && Grown() && model == ConnectionManager.AddServer(old(model), name, config, invalid)
    {
      ghost var t := |model.tasks|;
      var entry := Enlist(name, config);
      if config.enabled {
        ConnectOne(t, entry, entry.attemptId, invalid);
      }
    }

    // One server of connectAllNow, up to the first await of its attempt.
    method AddServer(name: string, config: Config, invalid: Option<StartupError>)
      requires Valid()
      modifies this, objects, clients
      ensures Valid() && Grown() && Some(model) == Next(old(model), Add(name, config, invalid))
    {
      ReachableStep(model, Add(name, config, invalid));
      EnlistAndConnect(name, config, invalid);
    }

    method ConnectAllNow(configs: seq<(string, Config, Option<StartupError>)>)
      requires Valid()
      modifies this, objects, clients
      ensures Valid() && Grown() && LeadsTo(old(model), AddsOf(configs), model)
    {
      assert IsRun([model], []) && LeadsTo(model, [], model);
      for i := 0 to |configs|
        invariant Valid() && Grown() && LeadsTo(old(model), AddsOf(configs[..i]), model)
      {
        RunGrows(old(model), AddsOf(configs[..i]), model, Add(configs[i].0, configs[i].1, configs[i].2));
        AddsOneMore(configs, i);
        AddServer(configs[i].0, configs[i].1, configs[i].2);
      }
      assert configs[..|configs|] == configs;
    }

    method BeginReconnect(entry: InternalEntry)
      requires Rep() && Filed(objects, entry)
      modifies `model, entry, clients
      ensures Rep() && model == ConnectionManager.BeginReconnect(old(model), entry.id)
    {
      var _ := BeginConnectAttempt(entry);
      CloseClient(entry);
    }

    // reconnect up to its first await.
    method Reconnect(name: string) returns (error: Option<ReconnectError>)
      requires Valid()
      modifies `model, objects, clients
      ensures Valid()
      ensures error == Some(ServerNotFound) <==> name !in entries
      ensures error == Some(ServerDisabled) <==> name in entries && !entries[name].config.enabled
      ensures error.Some? ==> model == old(model)
      ensures error.None? ==> Some(model) == Next(old(model), ConnectionManager.Reconnect(name))
    {
      if name !in entries {
        return Some(ServerNotFound);
      }
      var entry := entries[name];
      if !entry.config.enabled {
        return Some(ServerDisabled);
      }
      ReachableStep(model, ConnectionManager.Reconnect(name));
      BeginReconnect(entry);
      return None;
    }

    method RestartEntry(ghost t: TaskId, entry: InternalEntry, attemptId: nat, invalid: Option<StartupError>)
      requires Rep() && Filed(objects, entry) && t < |model.tasks|
      requires ConnectionManager.IsCurrent(model, entry.id, attemptId)
      modifies `model, `emitted, `clients, entry, clients
      ensures Rep() && Grown()
      ensures model == ContinueReconnect(old(model), t, entry.id, attemptId, invalid)
    {
      MarkPending(entry);
      Emit(entry);
      ConnectOne(t, entry, attemptId, invalid);
    }

    // A superseded reconnect stops where it is.
    ghost method Abandon(t: TaskId, entry: InternalEntry, attemptId: nat, invalid: Option<StartupError>)
      requires Rep() && Filed(objects, entry) && t < |model.tasks|
      requires !ConnectionManager.IsCurrent(model, entry.id, attemptId)
      modifies `model
      ensures Rep() && model == ContinueReconnect(old(model), t, entry.id, attemptId, invalid)
    {
      Become(t, Finished);
    }

    method RestartIfCurrent(ghost t: TaskId, entry: InternalEntry, attemptId: nat, invalid: Option<StartupError>)
      requires Rep() && Filed(objects, entry) && t < |model.tasks|
      modifies `model, `emitted, `clients, entry, clients
      ensures Rep() && Grown()
      ensures model == ContinueReconnect(old(model), t, entry.id, attemptId, invalid)
    {
      IdentityIsNumber(entry, attemptId);
      if IsCurrent(entry, attemptId) {
        RestartEntry(t, entry, attemptId, invalid);
      } else {
        Abandon(t, entry, attemptId, invalid);
      }
    }

    // reconnect after the old client has closed.
    method ResumeReconnect(ghost t: TaskId, entry: InternalEntry, attemptId: nat, invalid: Option<StartupError>)
      requires Valid() && Filed(objects, entry)
      requires t < |model.tasks| && model.tasks[t] == Closing(entry.id, attemptId)
      modifies `model, `emitted, `clients, entry, clients
      ensures Valid() && Grown() && Some(model) == Next(old(model), ConnectionManager.ResumeReconnect(t, invalid))
    {
      ReachableStep(model, ConnectionManager.ResumeReconnect(t, invalid));
      RestartIfCurrent(t, entry, attemptId, invalid);
    }

    // ---- the race between connecting and the timeout ----

    method HandshakeCompletes(ghost t: TaskId, client: RuntimeClient)
      requires Valid() && Known(clients, client) && !client.closed
      requires t < |model.tasks| && model.tasks[t].Connecting? && model.tasks[t].client == client.id
      modifies `model, client
      ensures Valid() && Some(model) == Next(old(model), ClientReady(t))
    {
      ReachableStep(model, ClientReady(t));
      client.ready := true;
      model := model.(clients := model.clients[client.id := client.Record()]);
    }

    ghost method List(client: RuntimeClient, tools: seq<Tool>)
      requires Rep() && Known(clients, client)
      modifies `model, client`listed
      ensures Rep() && model == old(model).(
        clients := old(model).clients[client.id := old(model).clients[client.id].(listed := Some(tools))])
    {
      client.listed := Some(tools);
      model := model.(clients := model.clients[client.id := client.Record()]);
    }

    method ToolsDiscovered(ghost t: TaskId, client: RuntimeClient, ghost tools: seq<Tool>)
      requires Valid() && Known(clients, client) && client.ready
      requires t < |model.tasks| && model.tasks[t].Connecting? && model.tasks[t].client == client.id
      modifies `model, client
      ensures Valid() && Some(model) == Next(old(model), ConnectSucceeds(t, tools))
    {
      ReachableStep(model, ConnectSucceeds(t, tools));
      ghost var task := model.tasks[t];
      List(client, tools);
      Become(t, Discovered(task.entry, task.attemptId, client.id, tools));
    }

    ghost method DiscoveryFails(t: TaskId, error: StartupError)
      requires Valid() && t < |model.tasks| && model.tasks[t].Connecting?
      modifies `model
      ensures Valid() && Some(model) == Next(old(model), ConnectFails(t, error))
    {
      ReachableStep(model, ConnectFails(t, error));
      Become(t, Broken(model.tasks[t].entry, model.tasks[t].attemptId, model.tasks[t].client, error));
    }

    // The timeout closes the client of an attempt that is still racing.
    method OnTimeout(ghost t: TaskId, client: RuntimeClient)
      requires Valid() && Known(clients, client)
      requires t < |model.tasks| && model.tasks[t].Connecting? && model.tasks[t].client == client.id
      modifies `model, client
      ensures Valid() && Some(model) == Next(old(model), ConnectTimesOut(t))
    {
      ReachableStep(model, ConnectTimesOut(t));
      CloseRuntimeClient(client);
      Become(t, Broken(model.tasks[t].entry, model.tasks[t].attemptId, client.id, StartupError("Timed out", false)));
    }

    // ---- connectOne after its awaits ----

    method ResumeDiscovered(ghost t: TaskId, entry: InternalEntry, attemptId: nat, client: RuntimeClient,
        tools: seq<Tool>)
      requires Valid() && Filed(objects, entry) && Known(clients, client)
      requires t < |model.tasks| && model.tasks[t] == Discovered(entry.id, attemptId, client.id, tools)
      modifies `model, `emitted, entry, client
      ensures Valid() && Some(model) == Next(old(model), ResumeConnect(t))
    {
      ReachableStep(model, ResumeConnect(t));
      ConnectOneSucceeded(t, entry, attemptId, client, tools);
    }

    method ResumeBroken(ghost t: TaskId, entry: InternalEntry, attemptId: nat, client: RuntimeClient,
        error: StartupError)
      requires Valid() && Filed(objects, entry) && Known(clients, client)
      requires t < |model.tasks| && model.tasks[t] == Broken(entry.id, attemptId, client.id, error)
      modifies `model, entry, clients
      ensures Valid() && Some(model) == Next(old(model), ResumeConnect(t))
    {
      ReachableStep(model, ResumeConnect(t));
      ConnectOneFailed(t, entry, attemptId, client, error);
    }

    method ResumeReport(ghost t: TaskId, entry: InternalEntry, attemptId: nat)
      requires Valid() && Filed(objects, entry)
      requires t < |model.tasks| && model.tasks[t] == Reporting(entry.id, attemptId)
      modifies `model, `emitted
      ensures Valid() && Some(model) == Next(old(model), ConnectionManager.ResumeReport(t))
    {
      ReachableStep(model, ConnectionManager.ResumeReport(t));
      EmitIfCurrent(entry, attemptId);
      Become(t, Finished);
    }

    // The transport of a ready client is gone: its listener runs, or the client remembers the close.
    method TransportDies(client: RuntimeClient, entry: InternalEntry, attemptId: nat)
      requires Valid() && Filed(objects, entry) && Known(clients, client) && !client.closed && client.ready
      requires client.entry == entry.id && client.attemptId == attemptId
      modifies `model, `emitted, entry, client
      ensures Valid() && Some(model) == Next(old(model), ConnectionManager.TransportDies(client.id))
    {
      ReachableStep(model, ConnectionManager.TransportDies(client.id));
      if client.watched {
        OnUnexpectedClose(client, entry, attemptId);
      } else {
        client.died := true;
        model := model.(clients := model.clients[client.id := client.Record()]);
      }
    }

    // ---- shutdown ----

    method CloseNext(ghost s: State, ghost names: set<string>, ghost n: string, entry: InternalEntry)
      requires Rep() && WellFormed(s) && n in s.entries && n !in names
      requires Filed(objects, entry) && entry.id == s.entries[n] && model == PartlyDown(s, names)
      modifies `model, entry, clients
      ensures Rep() && model == PartlyDown(s, names + {n})
    {
      PartlyDownStep(s, names, n);
      CloseClient(entry);
    }

    method CloseAll(ghost s: State, values: map<string, InternalEntry>)
      requires Rep() && WellFormed(s) && MapMatches(values, objects, s.entries) && model == PartlyDown(s, {})
      modifies `model, objects, clients
      ensures Rep() && model == PartlyDown(s, s.entries.Keys)
    {
      var left := values.Keys;
      assert s.entries.Keys - left == {};
      while left != {}
        invariant left <= values.Keys
        invariant Rep() && model == PartlyDown(s, s.entries.Keys - left)
        decreases left
      {
        var n :| n in left;
        CloseNext(s, s.entries.Keys - left, n, values[n]);
        OneLeft(s.entries.Keys, left, n);
        left := left - {n};
      }
      assert s.entries.Keys - left == s.entries.Keys;
    }

    method CloseEntries()
      requires Rep()
      modifies `model, `entries, objects, clients
      ensures Rep() && entries == map[] && model == ShutDown(old(model))
      ensures forall n :: n in old(entries) ==> old(entries)[n].client == null
      ensures forall n :: n in old(entries) && old(entries[n].client) != null ==> old(entries[n].client).closed
    {
      EmptyMap();
      forall n | n in old(entries)
        ensures old(entries)[n].client == null && (old(entries[n].client) != null ==> old(entries[n].client).closed)
      {
        HeldAreClosed(old(model), n);
      }
    }

    method EmptyMap()
      requires Rep()
      modifies `model, `entries, objects, clients
      ensures Rep() && entries == map[] && model == ShutDown(old(model))
    {
      PartlyDownAtFirst(model);
      PartlyDownAtLast(model);
      ghost var s := model;
      var values := entries;
      entries := map[];
      model := model.(entries := map[]);
      CloseAll(s, values);
    }

    // The map is emptied first, then the client of every entry it held is closed.
    method ShutdownAll()
      requires Valid()
      modifies `model, `entries, objects, clients
      ensures Valid() && entries == map[] && Some(model) == Next(old(model), Shutdown)
      ensures forall n :: n in old(entries) ==> old(entries)[n].client == null
      ensures forall n :: n in old(entries) && old(entries[n].client) != null ==> old(entries[n].client).closed
    {
      ReachableStep(model, Shutdown);
      CloseEntries();
    }

    method Resolved(name: string) returns (r: Option<(RuntimeClient, seq<Tool>, set<string>)>)
      requires Valid()
      ensures r.None? <==> ConnectionManager.Resolved(model, name).None?
      ensures r.Some? ==>
        var (client, tools, enabled) := r.value;
        && name in entries && entries[name].client == client && Known(clients, client)
        && !client.closed && client.listed == Some(tools)
        && forall n :: n in enabled <==> Allows(entries[name].config, tools, n)
    {
      if name !in entries {
        return None;
      }
      ReachableInv(model);
      var entry := entries[name];
      assert EntryInv(model, entry.id);
      if !entry.status.Connected? || entry.tools.None? || entry.client == null {
        return None;
      }
      var tools := entry.tools.value;
      var enabledNames := if entry.enabledNames.Some? then entry.enabledNames.value else ToolNames(tools);
      ResolvedPairsAClientWithItsTools(model, name);
      return Some((entry.client, tools, enabledNames));
    }

    // ---- what the heap inherits ----

    // With nothing in flight, every client object is closed, or is the client of a connected entry in the map.
    lemma OpenClientsAreOwned(client: RuntimeClient)
      requires Rep() && ConnectionLeaks.ReachableWithFreshNames(model) && Quiescent(model)
      requires client in clients
      ensures client.closed || exists n :: n in entries && entries[n].status.Connected? && entries[n].client == client
    {
      ConnectionLeaks.NoClientLeaks(model, client.id);
    }

    // With nothing in flight, the last view told about a name is how its entry looks.
    lemma ListenersSeeTheEntries(name: string)
      requires Valid() && Quiescent(model) && name in entries
      ensures ConnectionNews.LastView(emitted, name) == Some(entries[name].ToPublic())
    {
      ConnectionNews.ListenersEndUpInformed(model, name);
    }
  }
}
