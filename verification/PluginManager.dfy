/**
 The plugin manager loads the configured data source and provision plugins on demand and caches them until shutdown.

 Plugins in the manager's own process may fail to load; plugins in other processes come with a client that has to be
 killed, and one such plugin may serve both roles.
 */
module PluginManager {
  import opened Wrappers
  import opened Configuration
  import opened Records

  /** The machine that plugin processes run on; it knows of every client that was ever started. */
  class Host {
    // Nothing that is loaded on a reliable host fails.
    const reliable: bool
    ghost var started: set<Client>

    constructor (reliable: bool)
      ensures this.reliable == reliable && started == {}
    {
      this.reliable := reliable;
      started := {};
    }
  }

  /** The client of a plugin process. */
  class Client {
    var alive: bool

    /** Starts the process. */
    constructor (host: Host)
      modifies host
      ensures alive && host.started == old(host.started) + {this}
    {
      alive := true;
      new;
      host.started := host.started + {this};
    }

    method Kill()
      modifies this
      ensures !alive
    {
      alive := false;
    }
  }

  /** A loaded plugin, with the client of its process unless it runs in this one. */
  class Plugin {
    const client: Client?

    constructor (client: Client?)
      ensures this.client == client
    {
      this.client := client;
    }
  }

  /** The names that an in-process loader supports, for each role. */
  datatype InProcess = InProcess(sources: set<string>, provisions: set<string>)

  datatype Role = DataSourceRole | ProvisionRole

  function Supports(loader: InProcess, role: Role): set<string> {
    if role.DataSourceRole? then loader.sources else loader.provisions
  }

  predicate InProcessName(loaders: seq<InProcess>, role: Role, name: string) {
    exists i | 0 <= i < |loaders| :: name in Supports(loaders[i], role)
  }

  /** A plugin that runs in its own process is not also supported in this one, for the other role. */
  predicate Separate(loaders: seq<InProcess>, names: Plugins) {
    names.dataSource == names.provision ==>
      (InProcessName(loaders, DataSourceRole, names.dataSource) <==>
       InProcessName(loaders, ProvisionRole, names.provision))
  }

  /** Asks the in-process loaders in turn, up to loader `index`, which decides; loading or validating the plugin may
      fail. */
  method LoadInProcess(loaders: seq<InProcess>, role: Role, name: string, reliable: bool)
    returns (failed: bool, plugin: Plugin?, index: nat)
    ensures index <= |loaders| && forall j | 0 <= j < index :: name !in Supports(loaders[j], role)
    ensures failed ==> index < |loaders| && plugin == null && !reliable
    ensures plugin != null ==>
              fresh(plugin) && plugin.client == null && index < |loaders| && name in Supports(loaders[index], role)
    ensures plugin != null ==>
              name in if role == DataSourceRole then loaders[index].sources else loaders[index].provisions
    ensures !failed && plugin == null ==> index == |loaders|
  {
    plugin, index := null, 0;
    while index < |loaders|
      invariant index <= |loaders| && forall j | 0 <= j < index :: name !in Supports(loaders[j], role)
      invariant plugin == null
    {
      var fails: bool := *;
      if fails && !reliable {
        return true, null, index;
      }
      if name in Supports(loaders[index], role) {
        plugin := new Plugin(null);
        return false, plugin, index;
      }
      index := index + 1;
    }
    return false, null, index;
  }

  /** Starts the process of plugin `name`, if there is one, and gets from it every role that the configuration assigns
      to that name. If anything fails, the process is killed. */
  method LoadProcess(host: Host, name: string, names: Plugins)
    returns (client: Client?, source: Plugin?, provision: Plugin?)
    modifies host
    ensures old(host.started) <= host.started && fresh(host.started - old(host.started))
    ensures forall c | c in host.started - old(host.started) :: c.alive <==> c == client
    ensures client != null ==> client in host.started && fresh(client)
    ensures client == null ==> !host.reliable
    ensures source != null <==> client != null && names.dataSource == name
    ensures provision != null <==> client != null && names.provision == name
    ensures source != null ==> fresh(source) && source.client == client
    ensures provision != null ==> fresh(provision) && provision.client == client
  {
    client, source, provision := null, null, null;
    var found: bool, fails: bool := *, *;
    if !found && !host.reliable {
      return;
    }
    client := new Client(host);
    if fails && !host.reliable {
      client.Kill();
      client := null;
      return;
    }
    if names.dataSource == name {
      source := new Plugin(client);
    }
    if names.provision == name {
      provision := new Plugin(client);
    }
  }

  ghost predicate Has(clients: map<string, Client>, c: Client) {
    exists n | n in clients :: clients[n] == c
  }

  /** The clients in the map are alive, and different for each name. */
  ghost predicate Tracks(clients: map<string, Client>, started: set<Client>)
    reads started
  {
    && (forall n | n in clients :: clients[n] in started && clients[n].alive)
    && (forall m, n | m in clients && n in clients && m != n :: clients[m] != clients[n])
  }

  /** The clients that are alive but no longer in the map. */
  ghost function Lost(clients: map<string, Client>, started: set<Client>): set<Client>
    reads started
  {
    set c | c in started && c.alive && !Has(clients, c)
  }

  /** Kills one client and forgets it. */
  method KillOne(clients: map<string, Client>, ghost started: set<Client>) returns (rest: map<string, Client>)
    requires clients != map[] && Tracks(clients, started)
    modifies clients.Values
    ensures Tracks(rest, started) && rest.Keys < clients.Keys && rest.Values <= clients.Values
    ensures Lost(rest, started) == old(Lost(clients, started))
  {
    var name :| name in clients;
    assert clients[name] in clients.Values;
    clients[name].Kill();
    rest := clients - {name};
    assert rest.Keys == clients.Keys - {name};
    forall c | c in started && c != clients[name] ensures Has(rest, c) <==> Has(clients, c) {
      if Has(clients, c) {
        var n :| n in clients && clients[n] == c;
        assert n in rest && rest[n] == c;
      }
    }
    assert Has(clients, clients[name]);
  }

  /** Kills every client in the map, in any order. */
  method KillAll(clients: map<string, Client>, ghost started: set<Client>)
    requires Tracks(clients, started)
    modifies clients.Values
    ensures forall c | c in started :: c.alive <==> c in old(Lost(clients, started))
  {
    var rest := clients;
    while rest != map[]
      invariant Tracks(rest, started) && rest.Values <= clients.Values
      invariant Lost(rest, started) == old(Lost(clients, started))
      decreases rest.Keys
    {
      rest := KillOne(rest, started);
    }
    assert forall c :: !Has(rest, c);
  }

  /** What is cached for a role whose configured plugin is `name`. */
  predicate Cached(loaders: seq<InProcess>, clients: map<string, Client>, role: Role, name: string, plugin: Plugin?) {
    && (name in clients ==> plugin != null && plugin.client == clients[name])
    && (plugin != null ==> if plugin.client == null then InProcessName(loaders, role, name) else name in clients)
  }

  class Manager {
    const host: Host
    const loaders: seq<InProcess>
    var configLoader: Loader
    var source: Plugin?
    var provision: Plugin?
    var clients: map<string, Client>

    /** The clients in the map are alive, one for each name. */
    ghost predicate Consistent()
      reads this, host, host.started
    {
      Tracks(clients, host.started)
    }

    /** The clients that nothing will kill any more. */
    ghost function Orphans(): set<Client>
      reads this, host, host.started
    {
      Lost(clients, host.started)
    }

    /** Moreover, each plugin process is cached in every role that the configuration gives it. */
    ghost predicate Valid(names: Plugins)
      reads this, host, host.started
    {
      Consistent() && CachedFor(names)
    }

    ghost predicate CachedFor(names: Plugins)
      reads this
    {
      && Separate(loaders, names) && (forall n | n in clients :: n in {names.dataSource, names.provision})
      && Cached(loaders, clients, DataSourceRole, names.dataSource, source)
      && Cached(loaders, clients, ProvisionRole, names.provision, provision)
    }

    constructor (host: Host, configLoader: Loader, loaders: seq<InProcess>)
      ensures this.host == host && this.configLoader == configLoader && this.loaders == loaders
      ensures source == null && provision == null && clients == map[]
    {
      this.host, this.configLoader, this.loaders := host, configLoader, loaders;
      source, provision, clients := null, null, map[];
    }

    /** The names of the configured plugins. */
    method ReadPlugins() returns (r: Option<Plugins>)
      ensures r == if configLoader.exists_ then Some(configLoader.data.plugins) else None
    {
      var config := configLoader.Read();
      return if config.Some? then Some(config.value.plugins) else None;
    }

    /** Loads a plugin process and caches what it provides.  A client is lost exactly if there already was one for that
        name. */
    method LoadGrpcPlugin(name: string, names: Plugins) returns (ok: bool)
      requires Consistent()
      modifies this`source, this`provision, this`clients, host
      ensures Consistent() && old(host.started) <= host.started && fresh(host.started - old(host.started))
      ensures !ok ==> !host.reliable
      ensures !ok ==> source == old(source) && provision == old(provision) && clients == old(clients)
      ensures ok ==> name in clients && fresh(clients[name]) && clients == old(clients)[name := clients[name]]
      ensures ok ==> if names.dataSource == name then source != null && source.client == clients[name]
                     else source == old(source)
      ensures ok ==> if names.provision == name then provision != null && provision.client == clients[name]
                     else provision == old(provision)
      ensures Orphans() == old(Orphans()) + if ok && name in old(clients) then {old(clients)[name]} else {}
    {
      var client, s, p := LoadProcess(host, name, names);
      LostBesides(clients, old(host.started), host.started, client);
      if client == null {
        return false;
      }
      Remember(name, client, s, p);
      return true;
    }

    method Remember(name: string, client: Client, s: Plugin?, p: Plugin?)
      requires Consistent() && client in host.started && client.alive && !Has(clients, client)
      modifies this`source, this`provision, this`clients
      ensures Consistent() && clients == old(clients)[name := client]
      ensures source == (if s != null then s else old(source)) && provision == if p != null then p else old(provision)
      ensures Orphans() == old(Orphans()) - {client} + if name in old(clients) then {old(clients)[name]} else {}
    {
      if s != null {
        source := s;
      }
      if p != null {
        provision := p;
      }
      LostByPut(clients, host.started, name, client);
      clients := clients[name := client];
    }

    /** The cached data source, or a newly loaded one.  A failed load changes nothing. */
    method GetDataSource(ghost names: Plugins) returns (r: Plugin?)
      requires Consistent()
      modifies this`source, this`provision, this`clients, host
      ensures Consistent() && old(host.started) <= host.started && fresh(host.started - old(host.started))
      ensures forall n | n in clients :: (n in old(clients) && clients[n] == old(clients)[n]) || fresh(clients[n])
      ensures r != null ==> r == source
      ensures r == null || old(source) != null ==>
                source == old(source) && provision == old(provision) && clients == old(clients)
      ensures old(source) != null ==> r == old(source)
      ensures host.reliable && configLoader.exists_ && configLoader.data.plugins.dataSource != "" ==> r != null
      ensures r != null && old(source) == null ==>
                configLoader.exists_ && Loaded(DataSourceRole, configLoader.data.plugins.dataSource, r, old(clients))
      ensures Orphans() == old(Orphans()) + Replaced(old(source), r, configLoader.data.plugins.dataSource, old(clients))
      ensures old(CachedFor(names)) && (configLoader.exists_ ==> configLoader.data.plugins == names) ==>
                && CachedFor(names) && old(provision) in {null, provision} && Orphans() == old(Orphans())
    {
      if source != null {
        return source;
      }
      var plugins := ReadPlugins();
      if plugins.None? || plugins.value.dataSource == "" {
        return null;
      }
      var name := plugins.value.dataSource;
      var failed, plugin, index := LoadInProcess(loaders, DataSourceRole, name, host.reliable);
      if failed {
        return null;
      }
      if plugin != null {
        source := plugin;
        return source;
      }
      var ok := LoadGrpcPlugin(name, plugins.value);
      return if ok then source else null;
    }

    /** The same for the provision plugin. */
    method GetProvision(ghost names: Plugins) returns (r: Plugin?)
      requires Consistent()
      modifies this`source, this`provision, this`clients, host
      ensures Consistent() && old(host.started) <= host.started && fresh(host.started - old(host.started))
      ensures forall n | n in clients :: (n in old(clients) && clients[n] == old(clients)[n]) || fresh(clients[n])
      ensures r != null ==> r == provision
      ensures r == null || old(provision) != null ==>
                provision == old(provision) && source == old(source) && clients == old(clients)
      ensures old(provision) != null ==> r == old(provision)
      ensures host.reliable && configLoader.exists_ && configLoader.data.plugins.provision != "" ==> r != null
      ensures r != null && old(provision) == null ==>
                configLoader.exists_ && Loaded(ProvisionRole, configLoader.data.plugins.provision, r, old(clients))
      ensures Orphans() == old(Orphans())
              + Replaced(old(provision), r, configLoader.data.plugins.provision, old(clients))
      ensures old(CachedFor(names)) && (configLoader.exists_ ==> configLoader.data.plugins == names) ==>
                && CachedFor(names) && old(source) in {null, source} && Orphans() == old(Orphans())
    {
      if provision != null {
        return provision;
      }
      var plugins := ReadPlugins();
      if plugins.None? || plugins.value.provision == "" {
        return null;
      }
      var name := plugins.value.provision;
      var failed, plugin, index := LoadInProcess(loaders, ProvisionRole, name, host.reliable);
      if failed {
        return null;
      }
      if plugin != null {
        provision := plugin;
        return provision;
      }
      var ok := LoadGrpcPlugin(name, plugins.value);
      return if ok then provision else null;
    }

    /** Where a newly loaded plugin comes from, and what that does to the clients. */
    ghost predicate Loaded(role: Role, name: string, r: Plugin, before: map<string, Client>)
      reads this
    {
      if r.client == null then InProcessName(loaders, role, name) && clients == before
      else !InProcessName(loaders, role, name) && clients == before[name := r.client]
    }

    /** Kills every client in the map and forgets all plugins; only what was lost before survives. */
    method Shutdown()
      requires Consistent()
      modifies this`source, this`provision, this`clients, clients.Values
      ensures Consistent() && clients == map[] && source == null && provision == null
      ensures forall c | c in host.started :: c.alive <==> c in old(Orphans())
    {
      KillAll(clients, host.started);
      clients := map[];
      source, provision := null, null;
    }

    /** Replaces the config loader and forgets all plugins, but not their clients. */
    method UpdateConfigLoader(configLoader: Loader)
      requires Consistent()
      modifies this`configLoader, this`source, this`provision
      ensures Consistent() && this.configLoader == configLoader && source == null && provision == null
      ensures Orphans() == old(Orphans())
    {
      this.configLoader := configLoader;
      source, provision := null, null;
    }
  }

  /** The client that a newly loaded plugin displaced from the map. */
  function Replaced(was: Plugin?, r: Plugin?, name: string, before: map<string, Client>): set<Client> {
    if was == null && r != null && r.client != null && name in before then {before[name]} else {}
  }

  /** Swapping the config loader, getting the data source again and shutting down: of the clients that there were, one
      stays alive exactly if the data source could be loaded and is one that runs in its own process under that name. */
  method SwapAndReload(m: Manager, configLoader: Loader) returns (r: Plugin?)
    requires m.Consistent()
    modifies m, m.host, m.clients.Values
    ensures m.clients == map[]
    ensures forall n | n in old(m.clients) ::
              old(m.clients)[n].alive <==>
              r != null && n == configLoader.data.plugins.dataSource && !InProcessName(m.loaders, DataSourceRole, n)
    ensures m.host.reliable && configLoader.exists_ && configLoader.data.plugins.dataSource != "" ==> r != null
  {
    m.UpdateConfigLoader(configLoader);
    r := m.GetDataSource(configLoader.data.plugins);
    assert forall c | c in m.clients.Values :: c in old(m.clients.Values) || fresh(c);
    m.Shutdown();
  }

  /** Starting a client, which is lost until it is put into the map, loses no other. */
  lemma LostBesides(clients: map<string, Client>, before: set<Client>, started: set<Client>, client: Client?)
    requires Tracks(clients, before) && before <= started && client !in before
    requires forall c | c in started - before :: c.alive <==> c == client
    ensures Tracks(clients, started)
    ensures Lost(clients, started) == Lost(clients, before) + (set c | c in started && c == client)
  {
    forall c | c in started - before ensures !Has(clients, c) {}
  }

  lemma LostByPut(clients: map<string, Client>, started: set<Client>, name: string, client: Client)
    requires Tracks(clients, started) && client in started && client.alive && !Has(clients, client)
    ensures var m := clients[name := client];
            && Tracks(m, started)
            && Lost(m, started) == Lost(clients, started) - {client} + if name in clients then {clients[name]} else {}
  {
    var m := clients[name := client];
    assert m[name] == client && Has(m, client);
    forall c | c in started && c != client
      ensures Has(m, c) <==> Has(clients, c) && !(name in clients && c == clients[name])
    {
      if Has(clients, c) {
        var n :| n in clients && clients[n] == c;
        if n != name {
          assert m[n] == c;
        }
      }
    }
  }

  // ---------- whole runs ----------

  datatype Call = CallGetDataSource | CallGetProvision | CallShutdown | CallUpdateConfigLoader(loader: Loader)

  /** What a caller sees of a call. */
  datatype Seen =
    | GotSource(plugin: Plugin) | SourceFailed
    | GotProvision(plugin: Plugin) | ProvisionFailed
    | Stopped | Swapped

  predicate Answers(call: Call, e: Seen) {
    match call
    case CallGetDataSource => e.GotSource? || e.SourceFailed?
    case CallGetProvision => e.GotProvision? || e.ProvisionFailed?
    case CallShutdown => e.Stopped?
    case CallUpdateConfigLoader(_) => e.Swapped?
  }

  ghost predicate NoStop(log: seq<Seen>, i: nat) {
    forall k | i < k < |log| :: !log[k].Stopped?
  }

  /** Since the last shutdown, every instance that was given out is the one that is cached. */
  ghost predicate Current(log: seq<Seen>, source: Plugin?, provision: Plugin?) {
    forall i | 0 <= i < |log| && NoStop(log, i) ::
      && (log[i].GotSource? ==> log[i].plugin == source)
      && (log[i].GotProvision? ==> log[i].plugin == provision)
  }

  /** Once an instance was given out for a role, each further call for it until a shutdown gets that instance: none gets
      another, and none fails. */
  ghost predicate Repeats(calls: seq<Call>, log: seq<Seen>)
    requires |calls| == |log|
  {
    forall i, j | 0 <= i < j < |log| && NoStop(log[..j], i) ::
      && (log[i].GotSource? && calls[j].CallGetDataSource? ==> log[j] == log[i])
      && (log[i].GotProvision? && calls[j].CallGetProvision? ==> log[j] == log[i])
  }

  /** A call gives out what was cached, and only a shutdown drops that; what it gives out is cached afterwards. */
  ghost predicate GivesOut(call: Call, e: Seen, source0: Plugin?, provision0: Plugin?, source: Plugin?,
                           provision: Plugin?) {
    && (!e.Stopped? ==> source0 in {null, source} && provision0 in {null, provision})
    && (e.GotSource? ==> e.plugin == source)
    && (e.GotProvision? ==> e.plugin == provision)
    && (call.CallGetDataSource? && source0 != null ==> e == GotSource(source0))
    && (call.CallGetProvision? && provision0 != null ==> e == GotProvision(provision0))
  }

  /** Until the first shutdown, a plugin that was cached before the run is given out every time. */
  ghost predicate KeepsCached(calls: seq<Call>, log: seq<Seen>, source: Plugin?, provision: Plugin?)
    requires |calls| == |log|
  {
    forall j | 0 <= j < |log| && Unstopped(log[..j]) ::
      && (calls[j].CallGetDataSource? && source != null ==> log[j] == GotSource(source))
      && (calls[j].CallGetProvision? && provision != null ==> log[j] == GotProvision(provision))
  }

  ghost predicate Unstopped(log: seq<Seen>) {
    forall e | e in log :: !e.Stopped?
  }

  lemma KeepsCachedStep(calls: seq<Call>, log: seq<Seen>, source: Plugin?, provision: Plugin?, call: Call, e: Seen)
    requires |calls| == |log| && KeepsCached(calls, log, source, provision)
    requires Unstopped(log) && call.CallGetDataSource? && source != null ==> e == GotSource(source)
    requires Unstopped(log) && call.CallGetProvision? && provision != null ==> e == GotProvision(provision)
    ensures KeepsCached(calls + [call], log + [e], source, provision)
  {
    forall j | 0 <= j <= |log| ensures (log + [e])[..j] == log[..j] {}
    assert log[..|log|] == log;
  }

  lemma LogStep(calls: seq<Call>, log: seq<Seen>, source0: Plugin?, provision0: Plugin?, call: Call, e: Seen,
                source: Plugin?, provision: Plugin?)
    requires |calls| == |log| && Repeats(calls, log) && Current(log, source0, provision0)
    requires GivesOut(call, e, source0, provision0, source, provision)
    ensures Repeats(calls + [call], log + [e]) && Current(log + [e], source, provision)
  {
    var all := log + [e];
    forall i | 0 <= i < |all| && NoStop(all, i)
      ensures (all[i].GotSource? ==> all[i].plugin == source) && (all[i].GotProvision? ==> all[i].plugin == provision)
    {
      if i < |log| {
        assert all[|log|] == e && !e.Stopped?;
        forall k | i < k < |log| ensures !log[k].Stopped? { assert all[k] == log[k]; }
        assert NoStop(log, i);
      }
    }
    forall i, j | 0 <= i < j < |all| && NoStop(all[..j], i)
      ensures all[i].GotSource? && (calls + [call])[j].CallGetDataSource? ==> all[j] == all[i]
      ensures all[i].GotProvision? && (calls + [call])[j].CallGetProvision? ==> all[j] == all[i]
    {
      if j < |log| {
        assert all[..j] == log[..j];
      } else {
        assert all[..j] == log && NoStop(log, i);
      }
    }
  }

  /** What a run that started with the plugins `source0` and `provision0` cached, and is left with `source` and
      `provision`, has given out. */
  ghost predicate GaveOut(calls: seq<Call>, log: seq<Seen>, source0: Plugin?, provision0: Plugin?,
                               source: Plugin?, provision: Plugin?)
    requires |calls| == |log|
  {
    && Repeats(calls, log) && Current(log, source, provision) && KeepsCached(calls, log, source0, provision0)
    && (Unstopped(log) ==> source0 in {null, source} && provision0 in {null, provision})
  }

  lemma RunStep(calls: seq<Call>, log: seq<Seen>, source0: Plugin?, provision0: Plugin?, source1: Plugin?,
                provision1: Plugin?, call: Call, e: Seen, source: Plugin?, provision: Plugin?)
    requires |calls| == |log| && GaveOut(calls, log, source0, provision0, source1, provision1)
    requires GivesOut(call, e, source1, provision1, source, provision)
    ensures GaveOut(calls + [call], log + [e], source0, provision0, source, provision)
  {
    LogStep(calls, log, source1, provision1, call, e, source, provision);
    KeepsCachedStep(calls, log, source0, provision0, call, e);
    if Unstopped(log + [e]) {
      assert e in log + [e];
      forall x | x in log ensures !x.Stopped? { assert x in log + [e]; }
    }
  }

  /** On a reliable host with a configuration that names the plugin, a call for it gets one. */
  predicate Served(call: Call, e: Seen, names: Plugins) {
    && (call.CallGetDataSource? && names.dataSource != "" ==> e.GotSource?)
    && (call.CallGetProvision? && names.provision != "" ==> e.GotProvision?)
  }

  /** A call as its caller sees it; `names` are the plugins that the configuration names, if it stays as it is. */
  method Step(m: Manager, call: Call, ghost names: Plugins) returns (e: Seen)
    requires m.Consistent()
    modifies m, m.host, m.clients.Values
    ensures m.Consistent() && forall n | n in m.clients :: m.clients[n] in old(m.clients.Values) || fresh(m.clients[n])
    ensures Answers(call, e) && (e.GotSource? ==> e.plugin == m.source) && (e.GotProvision? ==> e.plugin == m.provision)
    ensures call.CallGetDataSource? && old(m.source) != null ==> e == GotSource(old(m.source))
    ensures call.CallGetProvision? && old(m.provision) != null ==> e == GotProvision(old(m.provision))
    ensures call.CallShutdown? ==> m.clients == map[]
    ensures m.host.reliable && m.configLoader.exists_ ==> Served(call, e, m.configLoader.data.plugins)
    ensures old(m.Orphans()) <= m.Orphans()
    ensures m.configLoader == if call.CallUpdateConfigLoader? then call.loader else old(m.configLoader)
    ensures old(m.CachedFor(names)) && Configured(m, names) && !e.Swapped? ==>
              && m.CachedFor(names) && m.Orphans() == old(m.Orphans())
              && (!e.Stopped? ==> old(m.source) in {null, m.source} && old(m.provision) in {null, m.provision})
  {
    match call
    case CallGetDataSource =>
      var r := m.GetDataSource(names);
      e := if r == null then SourceFailed else GotSource(r);
    case CallGetProvision =>
      var r := m.GetProvision(names);
      e := if r == null then ProvisionFailed else GotProvision(r);
    case CallShutdown =>
      m.Shutdown();
      e := Stopped;
    case CallUpdateConfigLoader(loader) =>
      m.UpdateConfigLoader(loader);
      e := Swapped;
  }

  predicate Configured(m: Manager, names: Plugins)
    reads m, m.configLoader
  {
    m.configLoader.exists_ ==> m.configLoader.data.plugins == names
  }

  /** A call while the configuration stays as it is. */
  method StepConfigured(m: Manager, call: Call, ghost names: Plugins) returns (e: Seen)
    requires m.Valid(names) && Configured(m, names) && !call.CallUpdateConfigLoader?
    modifies m, m.host, m.clients.Values
    ensures m.Valid(names) && Configured(m, names) && m.configLoader == old(m.configLoader)
    ensures m.Orphans() == old(m.Orphans())
    ensures forall n | n in m.clients :: m.clients[n] in old(m.clients.Values) || fresh(m.clients[n])
    ensures Answers(call, e) && (call.CallShutdown? ==> m.clients == map[])
    ensures GivesOut(call, e, old(m.source), old(m.provision), m.source, m.provision)
    ensures m.host.reliable && m.configLoader.exists_ ==> Served(call, e, names)
  {
    e := Step(m, call, names);
  }

  /** Any sequence of calls while the configuration stays as it is, with any pattern of loading failures: once a plugin
      was given out for a role, it is given out every time until the manager is shut down; no client is lost, and after
      a shutdown none that the manager started is alive; and if nothing fails, every call is served. */
  method AnyRun(m: Manager, calls: seq<Call>, ghost names: Plugins) returns (log: seq<Seen>)
    requires m.Valid(names) && Configured(m, names) && forall c | c in calls :: !c.CallUpdateConfigLoader?
    modifies m, m.host, m.clients.Values
    ensures |log| == |calls| && forall i | 0 <= i < |calls| :: Answers(calls[i], log[i])
    ensures m.Valid(names) && m.Orphans() == old(m.Orphans())
    ensures Repeats(calls, log) && Current(log, m.source, m.provision)
    ensures KeepsCached(calls, log, old(m.source), old(m.provision))
    ensures calls != [] && calls[|calls| - 1].CallShutdown? ==>
              m.clients == map[] && forall c | c in m.host.started && c.alive :: c in old(m.Orphans())
    ensures m.host.reliable && m.configLoader.exists_ ==> forall i | 0 <= i < |calls| :: Served(calls[i], log[i], names)
  {
    log := [];
    for i := 0 to |calls|
      invariant |log| == i && forall j | 0 <= j < i :: Answers(calls[j], log[j])
      invariant m.Valid(names) && m.configLoader == old(m.configLoader) && m.Orphans() == old(m.Orphans())
      invariant Configured(m, names)
      invariant forall n | n in m.clients :: m.clients[n] in old(m.clients.Values) || fresh(m.clients[n])
      invariant GaveOut(calls[..i], log, old(m.source), old(m.provision), m.source, m.provision)
      invariant i > 0 && calls[i - 1].CallShutdown? ==> m.clients == map[]
      invariant m.host.reliable && m.configLoader.exists_ ==> forall j | 0 <= j < i :: Served(calls[j], log[j], names)
    {
      ghost var source1, provision1 := m.source, m.provision;
      assert calls[i] in calls;
      var e := StepConfigured(m, calls[i], names);
      RunStep(calls[..i], log, old(m.source), old(m.provision), source1, provision1, calls[i], e, m.source,
              m.provision);
      assert calls[..i + 1] == calls[..i] + [calls[i]];
      log := log + [e];
    }
    assert calls[..|calls|] == calls;
    assert m.clients == map[] ==> forall c :: !Has(m.clients, c);
  }

  /** Any sequence of calls at all: once lost, a client stays alive for good. */
  method AnyCalls(m: Manager, calls: seq<Call>) returns (log: seq<Seen>)
    requires m.Consistent()
    modifies m, m.host, m.clients.Values
    ensures |log| == |calls| && forall i | 0 <= i < |calls| :: Answers(calls[i], log[i])
    ensures m.Consistent() && forall c | c in old(m.Orphans()) :: c.alive && c in m.Orphans()
  {
    log := [];
    for i := 0 to |calls|
      invariant |log| == i && forall j | 0 <= j < i :: Answers(calls[j], log[j])
      invariant m.Consistent() && old(m.Orphans()) <= m.Orphans()
      invariant forall n | n in m.clients :: m.clients[n] in old(m.clients.Values) || fresh(m.clients[n])
    {
      ghost var names: Plugins := *;
      var e := Step(m, calls[i], names);
      log := log + [e];
    }
  }
}
