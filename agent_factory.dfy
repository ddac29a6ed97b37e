/**
 * Creating agents from configurations, keeping the registry of live
 * agents, and the manager that loads, starts and shuts them all down.
 *
 * An agent class is known here only by its registered name; creating an
 * agent builds a `BaseAgent` and initialises it, with the class's
 * initialisation hook given as an outcome. Per-agent hook outcomes for
 * start and stop are functions of the agent (or of its configuration).
 * Python iterates the registry's dictionaries in insertion order; the
 * bulk operations here visit the entries in an unspecified order, which
 * their results do not depend on.
 */
module Factory {
  import opened Text
  import opened Interfaces
  import opened BaseAgents

  class AgentFactory {
    /** Agent type -> name of the class registered for it. */
    var agentClasses: map<AgentType, string>

    constructor ()
      ensures agentClasses == map[]
    {
      agentClasses := map[];
    }

    /** Registering a type again replaces the earlier class. */
    method RegisterAgentClass(t: AgentType, className: string)
      modifies this
      ensures agentClasses == old(agentClasses)[t := className]
    {
      agentClasses := agentClasses[t := className];
    }

    predicate IsSupported(t: AgentType)
      reads this
    {
      t in agentClasses
    }

    /**
     * Fails with a ValueError for a type never registered; otherwise builds
     * the agent and initialises it, passing an initialisation failure on.
     */
    method CreateAgent(config: AgentConfig, initHook: Completion) returns (agent: BaseAgent?, r: Completion)
      ensures r.Done? <==> config.agentType in agentClasses && initHook.Done?
      ensures config.agentType !in agentClasses ==>
                r == Raised(("No agent class " + "registered for " + "type: ") + AgentTypeValue(config.agentType))
      ensures config.agentType in agentClasses ==> r == initHook
      ensures r.Done? <==> agent != null
      ensures agent != null ==> fresh(agent) && agent.Valid() && agent.agentId == config.id
                                && agent.config == Some(config) && !agent.isRunning
                                && agent.errorCount == 0 && agent.published == []
    {
      if config.agentType !in agentClasses {
        return null, Raised(("No agent class " + "registered for " + "type: ") + AgentTypeValue(config.agentType));
      }
      var created := new BaseAgent(config.id);
      r := created.Initialize(config, initHook);
      agent := if r.Done? then created else null;
    }
  }

  /** One row of the registry's status summary. */
  datatype AgentSummary = AgentSummary(
    agentType: string,
    name: string,
    enabled: bool,
    running: bool,
    automationLevel: AutomationLevel,
    errorCount: nat,
    lastError: Option<string>)

  class AgentRegistry {
    var agents: map<string, BaseAgent>
    var agentConfigs: map<string, AgentConfig>

    ghost predicate Valid()
      reads this, agents.Values
    {
      && agents.Keys == agentConfigs.Keys
      && forall a | a in agents.Values :: a.Valid()
    }

    constructor ()
      ensures Valid() && agents == map[] && agentConfigs == map[]
    {
      agents := map[];
      agentConfigs := map[];
    }

    /** An id already present keeps its first agent and configuration. */
    method RegisterAgent(agent: BaseAgent, config: AgentConfig)
      requires Valid() && agent.Valid()
      modifies this
      ensures Valid()
      ensures config.id in old(agents) ==> agents == old(agents) && agentConfigs == old(agentConfigs)
      ensures config.id !in old(agents) ==>
                agents == old(agents)[config.id := agent] && agentConfigs == old(agentConfigs)[config.id := config]
    {
      if config.id in agents {
        return;
      }
      agents := agents[config.id := agent];
      agentConfigs := agentConfigs[config.id := config];
    }

    /** An unknown id changes nothing; a known one is stopped and removed from both maps. */
    method UnregisterAgent(id: string, stopHook: Completion)
      requires Valid()
      modifies this, if id in agents then {agents[id]} else {}
      ensures Valid()
      ensures id !in old(agents) ==> agents == old(agents) && agentConfigs == old(agentConfigs)
      ensures id in old(agents) ==>
                agents == old(agents) - {id} && agentConfigs == old(agentConfigs) - {id}
                && !old(agents[id]).isRunning
    {
      if id !in agents {
        return;
      }
      var agent := agents[id];
      agent.Stop(stopHook);
      agents := agents - {id};
      agentConfigs := agentConfigs - {id};
    }

    function GetAgent(id: string): (r: Option<BaseAgent>)
      reads this
      ensures r.Some? <==> id in agents
      ensures r.Some? ==> r.value == agents[id]
    {
      if id in agents then Some(agents[id]) else None
    }

    function GetAgentConfig(id: string): (r: Option<AgentConfig>)
      reads this
      ensures r.Some? <==> id in agentConfigs
      ensures r.Some? ==> r.value == agentConfigs[id]
    {
      if id in agentConfigs then Some(agentConfigs[id]) else None
    }

    /** Exactly the registered agents whose configuration has type `t`. */
    function GetAgentsByType(t: AgentType): (r: map<string, BaseAgent>)
      requires agents.Keys <= agentConfigs.Keys
      reads this
      ensures forall id :: id in r <==> id in agents && agentConfigs[id].agentType == t
      ensures forall id | id in r :: r[id] == agents[id]
    {
      map id | id in agents && agentConfigs[id].agentType == t :: agents[id]
    }

    /** Exactly the registered agents that are running. */
    function GetActiveAgents(): (r: map<string, BaseAgent>)
      reads this, agents.Values
      ensures forall id :: id in r <==> id in agents && agents[id].isRunning
      ensures forall id | id in r :: r[id] == agents[id]
    {
      map id | id in agents && agents[id].isRunning :: agents[id]
    }

    /** One entry per registered agent, read from its configuration and its state. */
    function GetAgentStatusSummary(): (r: map<string, AgentSummary>)
      requires agents.Keys <= agentConfigs.Keys
      reads this, agents.Values
      ensures r.Keys == agents.Keys
      ensures forall id | id in r ::
                r[id].running == agents[id].isRunning && r[id].errorCount == agents[id].errorCount
                && r[id].agentType == AgentTypeValue(agentConfigs[id].agentType)
                && r[id].enabled == agentConfigs[id].enabled
      ensures forall id | id in r ::
                r[id].name == agentConfigs[id].name && r[id].automationLevel == agentConfigs[id].automationLevel
                && r[id].lastError == agents[id].lastError
    {
      map id | id in agents ::
        AgentSummary(AgentTypeValue(agentConfigs[id].agentType), agentConfigs[id].name,
                     agentConfigs[id].enabled, agents[id].isRunning,
                     agentConfigs[id].automationLevel, agents[id].errorCount, agents[id].lastError)
    }

    method StartAgent(id: string, now: Timestamp, hook: Completion) returns (r: Completion)
      requires Valid()
      modifies if id in agents then {agents[id]} else {}
      ensures Valid()
      ensures id !in agents ==> r == Raised("Agent " + id + " not found")
      ensures id in agents && old(agents[id].isRunning) ==> r == Done
      ensures id in agents ==>
                (agents[id].isRunning <==> old(agents[id].isRunning) || (old(agents[id].config).Some? && hook.Done?))
      ensures id in agents ==> var a := agents[id];
                && (old(a.isRunning) ==> a.errorCount == old(a.errorCount) && a.lastError == old(a.lastError)
                                         && a.startTime == old(a.startTime))
                && (!old(a.isRunning) && old(a.config).None? ==>
                      r == Raised(("Agent not " + "initialized - no " + "configuration loaded"))
                      && a.errorCount == old(a.errorCount) + 1 && a.lastError == Some(r.error))
                && (!old(a.isRunning) && old(a.config).Some? ==>
                      r == hook && a.startTime == Some(now) && a.lastHeartbeat == Some(now)
                      && a.errorCount == old(a.errorCount) + (if hook.Raised? then 1 else 0)
                      && (hook.Raised? ==> a.lastError == Some(hook.error)))
    {
      if id !in agents {
        return Raised("Agent " + id + " not found");
      }
      r := agents[id].Start(now, hook);
    }

    method StopAgent(id: string, hook: Completion) returns (r: Completion)
      requires Valid()
      modifies if id in agents then {agents[id]} else {}
      ensures Valid()
      ensures id !in agents ==> r == Raised("Agent " + id + " not found")
      ensures id in agents ==> r == Done && !agents[id].isRunning
    {
      if id !in agents {
        return Raised("Agent " + id + " not found");
      }
      agents[id].Stop(hook);
      r := Done;
    }

    /**
     * Starts every registered agent that is not running; a failure of one
     * start is counted by that agent and does not stop the others.
     */
    method StartAllAgents(now: Timestamp, hooks: BaseAgent -> Completion)
      requires Valid()
      modifies agents.Values
      ensures Valid()
      ensures forall a | a in agents.Values ::
                a.isRunning <==> old(a.isRunning) || (old(a.config).Some? && hooks(a).Done?)
      ensures forall a | a in agents.Values :: a.errorCount >= old(a.errorCount) && a.config == old(a.config)
    {
      var pending := agents.Keys;
      ghost var visited: set<BaseAgent> := {};
      while pending != {}
        invariant pending <= agents.Keys
        invariant visited <= agents.Values
        invariant Valid()
        invariant forall a | a in agents.Values :: a.errorCount >= old(a.errorCount) && a.config == old(a.config)
        invariant forall a | a in visited ::
                    a.isRunning <==> old(a.isRunning) || (old(a.config).Some? && hooks(a).Done?)
        invariant forall a | a in agents.Values && a !in visited :: a.isRunning == old(a.isRunning)
        invariant forall id | id in agents.Keys - pending :: agents[id] in visited
        decreases pending
      {
        var id :| id in pending;
        var agent := agents[id];
        if !agent.isRunning {
          var _ := agent.Start(now, hooks(agent));
        }
        visited := visited + {agent};
        pending := pending - {id};
      }
    }

    /** Stops every running agent; stop never raises, so every agent ends stopped. */
    method StopAllAgents(hooks: BaseAgent -> Completion)
      requires Valid()
      modifies agents.Values
      ensures Valid()
      ensures forall a | a in agents.Values :: !a.isRunning
      ensures forall a | a in agents.Values :: a.errorCount >= old(a.errorCount) && a.config == old(a.config)
      ensures GetActiveAgents() == map[]
    {
      var pending := agents.Keys;
      while pending != {}
        invariant pending <= agents.Keys
        invariant Valid()
        invariant forall a | a in agents.Values :: a.errorCount >= old(a.errorCount) && a.config == old(a.config)
        invariant forall id | id in agents.Keys - pending :: !agents[id].isRunning
        decreases pending
      {
        var id :| id in pending;
        var agent := agents[id];
        if agent.isRunning {
          agent.Stop(hooks(agent));
        }
        pending := pending - {id};
      }
    }

    /**
     * Unknown ids raise. Otherwise the agent reloads; only when that succeeds
     * does the registry record the new configuration.
     */
    method ReloadAgentConfig(id: string, c: AgentConfig, hook: Completion) returns (r: Completion)
      requires Valid()
      modifies this, if id in agents then {agents[id]} else {}
      ensures Valid() && agents == old(agents)
      ensures id !in agents ==> r == Raised("Agent " + id + " not found") && agentConfigs == old(agentConfigs)
      ensures id in agents ==> r == hook && agents[id].config == Some(c)
      ensures id in agents && r.Done? ==> agentConfigs == old(agentConfigs)[id := c]
      ensures r.Raised? ==> agentConfigs == old(agentConfigs)
    {
      if id !in agents {
        return Raised("Agent " + id + " not found");
      }
      r := agents[id].ReloadConfig(c, hook);
      if r.Done? {
        agentConfigs := agentConfigs[id := c];
      }
    }
  }

  /** Every registered agent is listed under exactly one type. */
  lemma ByTypePartition(registry: AgentRegistry, id: string)
    requires registry.agents.Keys <= registry.agentConfigs.Keys
    requires id in registry.agents
    ensures id in registry.GetAgentsByType(registry.agentConfigs[id].agentType)
    ensures forall t | t != registry.agentConfigs[id].agentType :: id !in registry.GetAgentsByType(t)
  {
  }

  class AgentManager {
    const factory: AgentFactory
    const registry: AgentRegistry

    ghost predicate Valid()
      reads this, registry, registry.agents.Values
    {
      registry.Valid()
    }

    constructor ()
      ensures Valid() && fresh(factory) && fresh(registry)
      ensures factory.agentClasses == map[] && registry.agents == map[]
    {
      factory := new AgentFactory();
      registry := new AgentRegistry();
    }

    /** A configuration the load creates and registers: enabled, of a registered type, initialised without error. */
    predicate LoadsAs(c: AgentConfig, initHook: Completion)
      reads factory
    {
      c.enabled && c.agentType in factory.agentClasses && initHook.Done?
    }

    /** The ids the load registers. */
    ghost function Loadable(configs: seq<AgentConfig>, initHooks: AgentConfig -> Completion): set<string>
      reads factory
    {
      if configs == [] then {}
      else
        var c := configs[|configs| - 1];
        Loadable(configs[..|configs| - 1], initHooks) + (if LoadsAs(c, initHooks(c)) then {c.id} else {})
    }

    /** Every id the load registers is the id of one of the configurations. */
    lemma {:induction false} LoadableIds(configs: seq<AgentConfig>, initHooks: AgentConfig -> Completion, id: string)
      requires id in Loadable(configs, initHooks)
      ensures exists k | 0 <= k < |configs| :: configs[k].id == id
    {
      var init := configs[..|configs| - 1];
      if id in Loadable(init, initHooks) {
        LoadableIds(init, initHooks, id);
        var k :| 0 <= k < |init| && init[k].id == id;
        assert configs[k] == init[k];
      } else {
        assert configs[|configs| - 1].id == id;
      }
    }

    /** With distinct ids, the load has not registered a configuration's id before reaching it. */
    lemma NotYetLoaded(configs: seq<AgentConfig>, i: nat, initHooks: AgentConfig -> Completion)
      requires i < |configs|
      requires forall a, b | 0 <= a < b < |configs| :: configs[a].id != configs[b].id
      ensures configs[i].id !in Loadable(configs[..i], initHooks)
    {
      if configs[i].id in Loadable(configs[..i], initHooks) {
        LoadableIds(configs[..i], initHooks, configs[i].id);
      }
    }

    /**
     * A freshly created agent for `c` after its start: it holds `c`, runs
     * exactly when the start hook succeeded, and has counted one error if
     * it did not.
     */
    ghost predicate StartedFrom(a: BaseAgent, c: AgentConfig, startHook: Completion, now: Timestamp)
      reads a
    {
      && a.agentId == c.id && a.config == Some(c)
      && (a.isRunning <==> startHook.Done?)
      && a.errorCount == (if startHook.Done? then 0 else 1)
      && a.startTime == Some(now)
    }

    /**
     * The registry after loading `configs[..i]` onto the registry `agents0`,
     * `configs0`: the loaded ids are added, earlier entries are kept, and
     * every configuration loaded here holds a started agent for it.
     */
    ghost predicate Loaded(configs: seq<AgentConfig>, i: nat, now: Timestamp, initHooks: AgentConfig -> Completion,
                           startHooks: AgentConfig -> Completion,
                           agents0: map<string, BaseAgent>, configs0: map<string, AgentConfig>)
      requires i <= |configs|
      reads factory, registry, registry.agents.Values
    {
      && agents0.Keys == configs0.Keys
      && registry.agents.Keys == agents0.Keys + Loadable(configs[..i], initHooks)
      && (forall id | id in agents0 ::
            && id in registry.agents && id in registry.agentConfigs
            && registry.agents[id] == agents0[id] && registry.agentConfigs[id] == configs0[id])
      && (forall j | 0 <= j < i && LoadsAs(configs[j], initHooks(configs[j])) && configs[j].id !in agents0 ::
            && configs[j].id in registry.agents && configs[j].id in registry.agentConfigs
            && registry.agentConfigs[configs[j].id] == configs[j]
            && StartedFrom(registry.agents[configs[j].id], configs[j], startHooks(configs[j]), now))
    }

    /**
     * For every enabled configuration, creates, registers and starts an
     * agent; a failure for one configuration is logged and the rest go on.
     * Disabled configurations create nothing. The configurations come from
     * a dictionary keyed by agent id, so their ids are distinct.
     */
    method LoadAndStartAgents(configs: seq<AgentConfig>, now: Timestamp,
                              initHooks: AgentConfig -> Completion, startHooks: AgentConfig -> Completion)
      requires Valid()
      requires forall i, j | 0 <= i < j < |configs| :: configs[i].id != configs[j].id
      modifies registry
      ensures Valid()
      ensures registry.agents.Keys == old(registry.agents.Keys) + Loadable(configs, initHooks)
      ensures Loaded(configs, |configs|, now, initHooks, startHooks, old(registry.agents), old(registry.agentConfigs))
      ensures forall j | 0 <= j < |configs| && LoadsAs(configs[j], initHooks(configs[j]))
                         && configs[j].id !in old(registry.agents) ::
                configs[j].id in registry.agents && fresh(registry.agents[configs[j].id])
    {
      ghost var agents0, configs0 := registry.agents, registry.agentConfigs;
      var i := 0;
      while i < |configs|
        invariant 0 <= i <= |configs|
        invariant Valid()
        invariant Loaded(configs, i, now, initHooks, startHooks, agents0, configs0)
        invariant forall j | 0 <= j < i && LoadsAs(configs[j], initHooks(configs[j])) && configs[j].id !in agents0 ::
                    configs[j].id in registry.agents && fresh(registry.agents[configs[j].id])
      {
        LoadNext(configs, i, now, initHooks, startHooks, agents0, configs0);
        i := i + 1;
      }
      assert configs[..i] == configs;
    }

    /** One step of the load: `configs[i]` is loaded on top of `configs[..i]`. */
    method LoadNext(configs: seq<AgentConfig>, i: nat, now: Timestamp, initHooks: AgentConfig -> Completion,
                    startHooks: AgentConfig -> Completion,
                    ghost agents0: map<string, BaseAgent>, ghost configs0: map<string, AgentConfig>)
      requires Valid() && i < |configs|
      requires forall a, b | 0 <= a < b < |configs| :: configs[a].id != configs[b].id
      requires Loaded(configs, i, now, initHooks, startHooks, agents0, configs0)
      modifies registry
      ensures Valid()
      ensures Loaded(configs, i + 1, now, initHooks, startHooks, agents0, configs0)
      ensures forall id | id in old(registry.agents) :: id in registry.agents && registry.agents[id] == old(registry.agents[id])
      ensures LoadsAs(configs[i], initHooks(configs[i])) && configs[i].id !in agents0 ==>
                configs[i].id in registry.agents && fresh(registry.agents[configs[i].id])
    {
      assert configs[..i + 1][..i] == configs[..i];
      NotYetLoaded(configs, i, initHooks);
      LoadOne(configs[i], now, initHooks(configs[i]), startHooks(configs[i]));
      forall j | 0 <= j < i + 1 && LoadsAs(configs[j], initHooks(configs[j])) && configs[j].id !in agents0
        ensures && configs[j].id in registry.agents && configs[j].id in registry.agentConfigs
                && registry.agentConfigs[configs[j].id] == configs[j]
                && StartedFrom(registry.agents[configs[j].id], configs[j], startHooks(configs[j]), now)
      {
        if j < i {
          assert configs[j].id != configs[i].id;
        }
      }
      assert registry.agents.Keys == agents0.Keys + Loadable(configs[..i + 1], initHooks);
      assert Loaded(configs, i + 1, now, initHooks, startHooks, agents0, configs0);
    }

    /** One configuration of the load: skipped if disabled, failures contained. */
    method LoadOne(config: AgentConfig, now: Timestamp, initHook: Completion, startHook: Completion)
      requires Valid()
      modifies registry
      ensures Valid()
      ensures LoadsAs(config, initHook) && config.id !in old(registry.agents) ==>
                && config.id in registry.agents
                && registry.agents == old(registry.agents)[config.id := registry.agents[config.id]]
                && registry.agentConfigs == old(registry.agentConfigs)[config.id := config]
                && fresh(registry.agents[config.id])
                && StartedFrom(registry.agents[config.id], config, startHook, now)
      ensures !(LoadsAs(config, initHook) && config.id !in old(registry.agents)) ==>
                registry.agents == old(registry.agents) && registry.agentConfigs == old(registry.agentConfigs)
    {
      if !config.enabled {
        return;
      }
      var agent, created := factory.CreateAgent(config, initHook);
      if agent == null {
        return;
      }
      registry.RegisterAgent(agent, config);
      var _ := agent.Start(now, startHook);
    }

    /** Stops every agent, then unregisters every id: the registry ends empty. */
    method ShutdownAllAgents(hooks: BaseAgent -> Completion)
      requires Valid()
      modifies registry, registry.agents.Values
      ensures Valid()
      ensures registry.agents == map[] && registry.agentConfigs == map[]
      ensures forall a | a in old(registry.agents.Values) :: !a.isRunning
    {
      registry.StopAllAgents(hooks);
      var pending := registry.agents.Keys;
      while pending != {}
        invariant registry.Valid()
        invariant registry.agents.Keys == pending
        invariant registry.agents.Values <= old(registry.agents.Values)
        invariant forall a | a in old(registry.agents.Values) :: !a.isRunning
        decreases pending
      {
        var id :| id in pending;
        registry.UnregisterAgent(id, hooks(registry.agents[id]));
        pending := pending - {id};
      }
      assert registry.agentConfigs.Keys == {};
    }
  }
}
