/** Reconciling the running agents with the agent registry. */
module Registry {
  import opened Options

  /** The non-volatile part of a registry entry. */
  datatype Fingerprint = Fingerprint(strategy: string, schedule: string, interval: int, universe: seq<string>,
                                     parameters: map<string, string>, trust: string)

  datatype Entry = Entry(name: string, fingerprint: Fingerprint, shadow: bool)

  datatype AgentConfig = AgentConfig(name: string, strategy: string, schedule: string, interval: int, cron: Option<string>,
                                     universe: seq<string>, parameters: map<string, string>, trust: string, shadowMode: bool)

  datatype Event = Started(name: string) | Stopped(name: string)

  /** The registered strategies; a factory may decline to build an agent. */
  type Strategies = map<string, AgentConfig -> bool>

  /** The runner: configs of its agents, names with a running task, fingerprints last applied, names
      already warned about, and the starts and stops so far. */
  datatype Runner = Runner(agents: map<string, AgentConfig>, running: set<string>, applied: map<string, Fingerprint>,
                           warned: set<string>, events: seq<Event>)

  function ConfigOf(e: Entry): AgentConfig {
    var f := e.fingerprint;
    AgentConfig(e.name, f.strategy, f.schedule, if f.schedule == "continuous" then f.interval else 60,
                if f.schedule == "cron" && "cron" in f.parameters then Some(f.parameters["cron"]) else None,
                f.universe, f.parameters, f.trust, e.shadow)
  }

  /** A cron schedule needs a non-empty cron expression among its parameters. */
  predicate MissingCron(e: Entry) {
    e.fingerprint.schedule == "cron" && (ConfigOf(e).cron.None? || ConfigOf(e).cron.value == "")
  }

  function Known(strategies: Strategies, e: Entry): bool { e.fingerprint.strategy in strategies }

  /** An agent can be built for the entry. */
  predicate Startable(strategies: Strategies, e: Entry) {
    Known(strategies, e) && !MissingCron(e) && strategies[e.fingerprint.strategy](ConfigOf(e))
  }

  function Stop(s: Runner, name: string): Runner {
    s.(running := s.running - {name}, events := s.events + [Stopped(name)])
  }

  /** register, then start_agent for the schedules that run on their own. */
  function StartFresh(s: Runner, e: Entry): Runner {
    var registered := s.(agents := s.agents[e.name := ConfigOf(e)], applied := s.applied[e.name := e.fingerprint],
                         running := s.running - {e.name});
    if e.fingerprint.schedule == "continuous" || e.fingerprint.schedule == "cron" then
      registered.(running := registered.running + {e.name}, events := registered.events + [Started(e.name)])
    else registered
  }

  function Instantiate(strategies: Strategies, s: Runner, e: Entry): Runner {
    if !Known(strategies, e) then s
    else if MissingCron(e) then s.(warned := s.warned + {e.name})
    else if strategies[e.fingerprint.strategy](ConfigOf(e)) then StartFresh(s, e)
    else s
  }

  predicate Changed(s: Runner, e: Entry) {
    e.name in s.applied && s.applied[e.name] != e.fingerprint
  }

  /** One registry entry; `running` is the set of agents when the pass began. */
  function EntryStep(strategies: Strategies, running: set<string>, s: Runner, e: Entry): Runner {
    if e.name in running && Changed(s, e) then
      if e.name !in s.agents then s else
      var stopped := Stop(s, e.name);
      Instantiate(strategies, stopped.(agents := stopped.agents - {e.name}), e)
    else if e.name in running then
      s.(agents := if e.name in s.agents then s.agents[e.name := s.agents[e.name].(shadowMode := e.shadow)] else s.agents,
         applied := s.applied[e.name := e.fingerprint])
    else Instantiate(strategies, s, e)
  }

  function Entries(strategies: Strategies, running: set<string>, s: Runner, entries: seq<Entry>): Runner
    decreases |entries|
  {
    if entries == [] then s else Entries(strategies, running, EntryStep(strategies, running, s, entries[0]), entries[1..])
  }

  function HotStop(s: Runner, name: string): Runner {
    Stop(s, name).(agents := s.agents - {name}, applied := s.applied - {name})
  }

  function HotStops(s: Runner, names: seq<string>): Runner
    decreases |names|
  {
    if names == [] then s else HotStops(HotStop(s, names[0]), names[1..])
  }

  function Names(entries: seq<Entry>): set<string> {
    set i | 0 <= i < |entries| :: entries[i].name
  }

  ghost predicate UniqueNames(entries: seq<Entry>) {
    forall i, j :: 0 <= i < j < |entries| ==> entries[i].name != entries[j].name
  }

  /** A whole pass that hot-stops in the given order. */
  function Reconciled(strategies: Strategies, s: Runner, entries: seq<Entry>, order: seq<string>): Runner {
    Entries(strategies, s.agents.Keys, HotStops(s, order), entries)
  }

  /** An order in which a pass may hot-stop: the agents that are not in the registry, once each. */
  ghost predicate StopOrder(s: Runner, entries: seq<Entry>, order: seq<string>) {
    multiset(order) == multiset(s.agents.Keys - Names(entries))
  }

  // ---------------------------------------------------------------- convergence

  /** The entry and the runner agree: its agent is managed with the registry's fingerprint and shadow
      mode, or none can be built and that has been noted. */
  predicate Settled(strategies: Strategies, s: Runner, e: Entry) {
    if e.name in s.agents then
      e.name in s.applied && s.applied[e.name] == e.fingerprint && s.agents[e.name].shadowMode == e.shadow
    else !Startable(strategies, e) && (Known(strategies, e) && MissingCron(e) ==> e.name in s.warned)
  }

  /** An entry's step settles the entry ... */
  lemma StepSettles(strategies: Strategies, running: set<string>, s: Runner, e: Entry)
    requires e.name in running <==> e.name in s.agents
    ensures Settled(strategies, EntryStep(strategies, running, s, e), e)
  {
  }

  /** ... and leaves every other name alone. */
  lemma StepLeavesOthers(strategies: Strategies, running: set<string>, s: Runner, e: Entry, name: string)
    requires name != e.name
    ensures var s' := EntryStep(strategies, running, s, e);
      (name in s'.agents <==> name in s.agents) && (name in s.agents ==> s'.agents[name] == s.agents[name]) &&
      (name in s'.applied <==> name in s.applied) && (name in s.applied ==> s'.applied[name] == s.applied[name]) &&
      (name in s'.warned <==> name in s.warned) && (name in s'.running <==> name in s.running)
  {
  }

  /** A settled entry is a fixed point. */
  lemma SettledIsFixed(strategies: Strategies, s: Runner, e: Entry)
    requires Settled(strategies, s, e)
    ensures EntryStep(strategies, s.agents.Keys, s, e) == s
  {
    if e.name in s.agents {
      assert s.agents[e.name].(shadowMode := e.shadow) == s.agents[e.name];
      assert s.agents[e.name := s.agents[e.name]] == s.agents;
      assert s.applied[e.name := e.fingerprint] == s.applied;
    } else if Known(strategies, e) && MissingCron(e) {
      assert s.warned + {e.name} == s.warned;
    }
  }

  lemma {:induction false} EntriesLeaveOthers(strategies: Strategies, running: set<string>, s: Runner, entries: seq<Entry>, name: string)
    requires forall i :: 0 <= i < |entries| ==> entries[i].name != name
    ensures var s' := Entries(strategies, running, s, entries);
      (name in s'.agents <==> name in s.agents) && (name in s.agents ==> s'.agents[name] == s.agents[name]) &&
      (name in s'.applied <==> name in s.applied) && (name in s.applied ==> s'.applied[name] == s.applied[name]) &&
      (name in s'.warned <==> name in s.warned) && (name in s'.running <==> name in s.running)
    decreases |entries|
  {
    if entries != [] {
      StepLeavesOthers(strategies, running, s, entries[0], name);
      EntriesLeaveOthers(strategies, running, EntryStep(strategies, running, s, entries[0]), entries[1..], name);
    }
  }

  lemma {:induction false} EntriesSettle(strategies: Strategies, running: set<string>, s: Runner, entries: seq<Entry>)
    requires UniqueNames(entries)
    requires forall i :: 0 <= i < |entries| ==> (entries[i].name in running <==> entries[i].name in s.agents)
    ensures forall i :: 0 <= i < |entries| ==> Settled(strategies, Entries(strategies, running, s, entries), entries[i])
    decreases |entries|
  {
    if entries != [] {
      var next := EntryStep(strategies, running, s, entries[0]);
      StepSettles(strategies, running, s, entries[0]);
      forall i | 0 <= i < |entries[1..]|
        ensures entries[1..][i].name in running <==> entries[1..][i].name in next.agents
      {
        StepLeavesOthers(strategies, running, s, entries[0], entries[i+1].name);
      }
      EntriesSettle(strategies, running, next, entries[1..]);
      EntriesLeaveOthers(strategies, running, next, entries[1..], entries[0].name);
      forall i | 0 <= i < |entries|
        ensures Settled(strategies, Entries(strategies, running, s, entries), entries[i])
      {
        if i > 0 { assert entries[i] == entries[1..][i-1]; }
      }
    }
  }

  lemma {:induction false} HotStopsRemove(s: Runner, names: seq<string>)
    ensures HotStops(s, names).agents == s.agents - (set n | n in names)
    decreases |names|
  {
    if names != [] {
      HotStopsRemove(HotStop(s, names[0]), names[1..]);
      assert (set n | n in names) == {names[0]} + (set n | n in names[1..]);
    } else {
      assert s.agents - {} == s.agents;
    }
  }

  /** After one pass every agent is in the registry, carries the registry's fingerprint and shadow mode,
      and every entry for which an agent can be built has one. */
  lemma PassConverges(strategies: Strategies, s: Runner, entries: seq<Entry>, order: seq<string>)
    requires UniqueNames(entries) && StopOrder(s, entries, order)
    ensures var after := Reconciled(strategies, s, entries, order);
      after.agents.Keys <= Names(entries) &&
      (forall i :: 0 <= i < |entries| ==> Settled(strategies, after, entries[i])) &&
      (forall i :: 0 <= i < |entries| && Startable(strategies, entries[i]) ==> entries[i].name in after.agents)
  {
    var cleared := HotStops(s, order);
    var after := Reconciled(strategies, s, entries, order);
    HotStopsRemove(s, order);
    forall n
      ensures n in order <==> n in s.agents && n !in Names(entries)
    {
      assert n in order <==> n in multiset(order);
    }
    forall i | 0 <= i < |entries|
      ensures entries[i].name in s.agents.Keys <==> entries[i].name in cleared.agents
    {
      assert entries[i].name in Names(entries);
    }
    EntriesSettle(strategies, s.agents.Keys, cleared, entries);
    forall n | n in after.agents
      ensures n in Names(entries)
    {
      if n !in Names(entries) { EntriesLeaveOthers(strategies, s.agents.Keys, cleared, entries, n); }
    }
  }

  lemma {:induction false} SettledEntriesAreFixed(strategies: Strategies, s: Runner, entries: seq<Entry>)
    requires forall i :: 0 <= i < |entries| ==> Settled(strategies, s, entries[i])
    ensures Entries(strategies, s.agents.Keys, s, entries) == s
    decreases |entries|
  {
    if entries != [] {
      SettledIsFixed(strategies, s, entries[0]);
      SettledEntriesAreFixed(strategies, s, entries[1..]);
    }
  }

  /** Reconciling is idempotent: a second pass over the same registry starts nothing, stops nothing and
      changes nothing at all. */
  lemma SecondPassIsIdle(strategies: Strategies, s: Runner, entries: seq<Entry>, order: seq<string>, order2: seq<string>)
    requires UniqueNames(entries) && StopOrder(s, entries, order)
    requires StopOrder(Reconciled(strategies, s, entries, order), entries, order2)
    ensures Reconciled(strategies, Reconciled(strategies, s, entries, order), entries, order2) == Reconciled(strategies, s, entries, order)
  {
    var after := Reconciled(strategies, s, entries, order);
    PassConverges(strategies, s, entries, order);
    assert after.agents.Keys - Names(entries) == {};
    assert |multiset(order2)| == 0;
    assert order2 == [];
    SettledEntriesAreFixed(strategies, after, entries);
  }

  // ---------------------------------------------------------------- the configuration agents end with

  /** The pass builds the entry's agent anew. */
  predicate Rebuilds(s: Runner, e: Entry) {
    e.name !in s.agents || Changed(s, e)
  }

  /** The configuration the entry's agent ends with, if there is one. */
  function EndsWith(s: Runner, e: Entry): AgentConfig {
    if Rebuilds(s, e) then ConfigOf(e) else s.agents[e.name].(shadowMode := e.shadow)
  }

  lemma StepConfigures(strategies: Strategies, running: set<string>, s: Runner, e: Entry)
    requires e.name in running <==> e.name in s.agents
    ensures var t := EntryStep(strategies, running, s, e); e.name in t.agents ==> t.agents[e.name] == EndsWith(s, e)
  {
  }

  lemma {:induction false} EntriesConfigure(strategies: Strategies, running: set<string>, s: Runner, entries: seq<Entry>, i: nat)
    requires UniqueNames(entries) && i < |entries|
    requires entries[i].name in running <==> entries[i].name in s.agents
    ensures var t, e := Entries(strategies, running, s, entries), entries[i];
      e.name in t.agents ==> t.agents[e.name] == EndsWith(s, e)
    decreases |entries|
  {
    var next := EntryStep(strategies, running, s, entries[0]);
    if i == 0 {
      StepConfigures(strategies, running, s, entries[0]);
      EntriesLeaveOthers(strategies, running, next, entries[1..], entries[0].name);
    } else {
      StepLeavesOthers(strategies, running, s, entries[0], entries[i].name);
      EntriesConfigure(strategies, running, next, entries[1..], i - 1);
    }
  }

  lemma {:induction false} HotStopsLeave(s: Runner, names: seq<string>, name: string)
    requires name !in names
    ensures var t := HotStops(s, names);
      (name in t.agents <==> name in s.agents) && (name in s.agents ==> t.agents[name] == s.agents[name]) &&
      (name in t.applied <==> name in s.applied) && (name in s.applied ==> t.applied[name] == s.applied[name])
    decreases |names|
  {
    if names != [] { HotStopsLeave(HotStop(s, names[0]), names[1..], name); }
  }

  /** An agent that is not built anew keeps its own configuration, whatever the registry says, and only takes over
      the shadow mode: so it runs as registered exactly if that is already what it is configured for. An agent that
      was registered without a recorded fingerprint is such an agent. */
  lemma PassConfigures(strategies: Strategies, s: Runner, entries: seq<Entry>, order: seq<string>, i: nat)
    requires UniqueNames(entries) && StopOrder(s, entries, order) && i < |entries|
    ensures var after, e := Reconciled(strategies, s, entries, order), entries[i];
      e.name in after.agents ==>
        after.agents[e.name] == EndsWith(s, e) &&
        (after.agents[e.name] == ConfigOf(e) <==> Rebuilds(s, e) || s.agents[e.name].(shadowMode := e.shadow) == ConfigOf(e))
  {
    var e := entries[i];
    assert e.name in Names(entries);
    assert e.name !in order by { assert e.name !in multiset(order); }
    HotStopsLeave(s, order, e.name);
    EntriesConfigure(strategies, s.agents.Keys, HotStops(s, order), entries, i);
  }

  // ---------------------------------------------------------------- what a pass starts and stops

  /** The registry's terms: the strategy is known, a cron schedule comes with a cron expression, and the factory, given
      the registry's configuration, builds an agent. */
  lemma StartablePlainly(strategies: Strategies, e: Entry)
    ensures var f := e.fingerprint;
      Startable(strategies, e) <==>
        f.strategy in strategies &&
        (f.schedule == "cron" ==> "cron" in f.parameters && f.parameters["cron"] != "") &&
        strategies[f.strategy](AgentConfig(e.name, f.strategy, f.schedule, if f.schedule == "continuous" then f.interval else 60,
          if f.schedule == "cron" && "cron" in f.parameters then Some(f.parameters["cron"]) else None,
          f.universe, f.parameters, f.trust, e.shadow))
  {
  }

  /** The agent of the entry is stopped, as it runs with another fingerprint. */
  predicate Restarts(s: Runner, e: Entry) {
    e.name in s.agents && e.name in s.applied && s.applied[e.name] != e.fingerprint
  }

  /** An agent is built anew for the entry on a schedule that runs on its own. */
  predicate Starts(strategies: Strategies, s: Runner, e: Entry) {
    (e.name !in s.agents || Restarts(s, e)) && Startable(strategies, e) &&
    (e.fingerprint.schedule == "continuous" || e.fingerprint.schedule == "cron")
  }

  function EventsOf(strategies: Strategies, s: Runner, e: Entry): seq<Event> {
    (if Restarts(s, e) then [Stopped(e.name)] else []) + (if Starts(strategies, s, e) then [Started(e.name)] else [])
  }

  function EventsOfAll(strategies: Strategies, s: Runner, entries: seq<Entry>): seq<Event> {
    if entries == [] then [] else EventsOf(strategies, s, entries[0]) + EventsOfAll(strategies, s, entries[1..])
  }

  function Stops(names: seq<string>): seq<Event> {
    if names == [] then [] else [Stopped(names[0])] + Stops(names[1..])
  }

  /** Whether the entry's agent runs afterwards: started, or kept as it was. */
  predicate RunsAfter(strategies: Strategies, s: Runner, e: Entry) {
    Starts(strategies, s, e) ||
    (e.name in s.running && !Restarts(s, e) && (e.name in s.agents || !Startable(strategies, e)))
  }

  /** A startable entry that is new or changed ends up running if and only if its schedule is continuous or cron, and an
      agent that is kept is left as it was. */
  lemma RunsPlainly(strategies: Strategies, s: Runner, e: Entry)
    ensures Startable(strategies, e) && e.name !in s.agents ==>
      (RunsAfter(strategies, s, e) <==> e.fingerprint.schedule == "continuous" || e.fingerprint.schedule == "cron")
    ensures Startable(strategies, e) && e.name in s.applied && s.applied[e.name] != e.fingerprint ==>
      (RunsAfter(strategies, s, e) <==> e.fingerprint.schedule == "continuous" || e.fingerprint.schedule == "cron")
    ensures e.name in s.agents && (e.name !in s.applied || s.applied[e.name] == e.fingerprint) ==>
      (RunsAfter(strategies, s, e) <==> e.name in s.running)
  {
  }

  lemma StepRuns(strategies: Strategies, running: set<string>, s: Runner, e: Entry)
    requires e.name in running <==> e.name in s.agents
    ensures var t := EntryStep(strategies, running, s, e);
      t.events == s.events + EventsOf(strategies, s, e) && (e.name in t.running <==> RunsAfter(strategies, s, e))
  {
  }

  /** s and t hold the same agent and fingerprint for the name. */
  predicate SameFor(s: Runner, t: Runner, name: string) {
    (name in s.agents <==> name in t.agents) && (name in s.applied <==> name in t.applied) &&
    (name in s.applied ==> s.applied[name] == t.applied[name]) && (name in s.running <==> name in t.running)
  }

  lemma {:induction false} SameEvents(strategies: Strategies, s: Runner, t: Runner, entries: seq<Entry>)
    requires forall i :: 0 <= i < |entries| ==> SameFor(s, t, entries[i].name)
    ensures EventsOfAll(strategies, s, entries) == EventsOfAll(strategies, t, entries)
  {
    if entries != [] {
      assert SameFor(s, t, entries[0].name);
      SameEvents(strategies, s, t, entries[1..]);
    }
  }

  lemma {:induction false} EntriesRun(strategies: Strategies, running: set<string>, s: Runner, entries: seq<Entry>)
    requires UniqueNames(entries)
    requires forall i :: 0 <= i < |entries| ==> (entries[i].name in running <==> entries[i].name in s.agents)
    ensures var t := Entries(strategies, running, s, entries);
      t.events == s.events + EventsOfAll(strategies, s, entries) &&
      forall i :: 0 <= i < |entries| ==> (entries[i].name in t.running <==> RunsAfter(strategies, s, entries[i]))
    decreases |entries|
  {
    if entries != [] {
      var next, rest := EntryStep(strategies, running, s, entries[0]), entries[1..];
      StepRuns(strategies, running, s, entries[0]);
      forall i | 0 <= i < |rest|
        ensures SameFor(s, next, rest[i].name)
        ensures rest[i].name in running <==> rest[i].name in next.agents
      {
        StepLeavesOthers(strategies, running, s, entries[0], entries[i+1].name);
      }
      SameEvents(strategies, s, next, rest);
      EntriesRun(strategies, running, next, rest);
      EntriesLeaveOthers(strategies, running, next, rest, entries[0].name);
      var t := Entries(strategies, running, s, entries);
      forall i | 0 <= i < |entries|
        ensures entries[i].name in t.running <==> RunsAfter(strategies, s, entries[i])
      {
        if i > 0 {
          assert entries[i] == rest[i-1];
          assert SameFor(s, next, rest[i-1].name);
        }
      }
    }
  }

  lemma {:induction false} HotStopsStop(s: Runner, names: seq<string>, name: string)
    ensures HotStops(s, names).events == s.events + Stops(names)
    ensures name in HotStops(s, names).running <==> name in s.running && name !in names
    decreases |names|
  {
    if names != [] { HotStopsStop(HotStop(s, names[0]), names[1..], name); }
  }

  /** What a pass starts and stops, with unique names: first one stop for each agent that is not in the registry; then,
      entry by entry, one stop if the agent runs with another fingerprint, and one start if one is built anew on a
      continuous or cron schedule. Which agents run afterwards is said by RunsAfter; an agent that is removed does not. */
  lemma PassRuns(strategies: Strategies, s: Runner, entries: seq<Entry>, order: seq<string>)
    requires UniqueNames(entries) && StopOrder(s, entries, order)
    ensures var after := Reconciled(strategies, s, entries, order);
      after.events == s.events + Stops(order) + EventsOfAll(strategies, s, entries) &&
      (forall i :: 0 <= i < |entries| ==> (entries[i].name in after.running <==> RunsAfter(strategies, s, entries[i]))) &&
      (forall n :: n in s.agents && n !in Names(entries) ==> n !in after.running)
  {
    var cleared := HotStops(s, order);
    HotStopsStop(s, order, "");
    forall n
      ensures n in order <==> n in s.agents && n !in Names(entries)
    {
      assert n in order <==> n in multiset(order);
    }
    forall i | 0 <= i < |entries|
      ensures SameFor(s, cleared, entries[i].name)
    {
      assert entries[i].name in Names(entries);
      HotStopsLeave(s, order, entries[i].name);
      HotStopsStop(s, order, entries[i].name);
    }
    EntriesRun(strategies, s.agents.Keys, cleared, entries);
    SameEvents(strategies, s, cleared, entries);
    forall i | 0 <= i < |entries|
      ensures RunsAfter(strategies, s, entries[i]) == RunsAfter(strategies, cleared, entries[i])
    {
      assert SameFor(s, cleared, entries[i].name);
    }
    forall n | n in s.agents && n !in Names(entries)
      ensures n !in Reconciled(strategies, s, entries, order).running
    {
      HotStopsStop(s, order, n);
      EntriesLeaveOthers(strategies, s.agents.Keys, cleared, entries, n);
    }
  }

  // ---------------------------------------------------------------- exactly when a pass is idle

  /** The entry and the runner agree but for the shadow mode. */
  predicate Quiet(strategies: Strategies, s: Runner, e: Entry) {
    if e.name in s.agents then e.name in s.applied && s.applied[e.name] == e.fingerprint
    else !Startable(strategies, e) && (Known(strategies, e) && MissingCron(e) ==> e.name in s.warned)
  }

  /** The shadow mode the entries leave a managed agent with: that of the last entry of its name. */
  function ShadowAfter(entries: seq<Entry>, name: string, shadow: bool): bool {
    if entries == [] then shadow
    else ShadowAfter(entries[1..], name, if entries[0].name == name then entries[0].shadow else shadow)
  }

  /** s and t differ at most in the shadow modes of their agents. */
  ghost predicate Alike(s: Runner, t: Runner) {
    s.agents.Keys == t.agents.Keys && s.running == t.running && s.applied == t.applied && s.warned == t.warned &&
    s.events == t.events && forall n :: n in s.agents ==> s.agents[n].(shadowMode := t.agents[n].shadowMode) == t.agents[n]
  }

  /** What a step can only add to: events, known fingerprints, warnings, and agents that were not there before. */
  ghost predicate Grown(running: set<string>, s: Runner, t: Runner) {
    |s.events| <= |t.events| && s.applied.Keys <= t.applied.Keys && s.warned <= t.warned &&
    s.agents.Keys - running <= t.agents.Keys - running
  }

  lemma StepGrows(strategies: Strategies, running: set<string>, s: Runner, e: Entry)
    ensures Grown(running, s, EntryStep(strategies, running, s, e))
  {
  }

  lemma {:induction false} EntriesGrow(strategies: Strategies, running: set<string>, s: Runner, entries: seq<Entry>)
    ensures Grown(running, s, Entries(strategies, running, s, entries))
    decreases |entries|
  {
    if entries != [] {
      StepGrows(strategies, running, s, entries[0]);
      EntriesGrow(strategies, running, EntryStep(strategies, running, s, entries[0]), entries[1..]);
    }
  }

  /** An entry that is not quiet leaves something that no later entry takes back. */
  lemma LoudStep(strategies: Strategies, s: Runner, e: Entry)
    requires !Quiet(strategies, s, e)
    ensures var t := EntryStep(strategies, s.agents.Keys, s, e);
      |t.events| > |s.events| || !(t.applied.Keys <= s.applied.Keys) || !(t.warned <= s.warned) ||
      !(t.agents.Keys <= s.agents.Keys)
  {
  }

  lemma QuietStep(strategies: Strategies, s: Runner, e: Entry)
    requires Quiet(strategies, s, e)
    ensures var t := EntryStep(strategies, s.agents.Keys, s, e);
      Alike(s, t) && forall n :: n in s.agents ==>
        t.agents[n].shadowMode == if n == e.name then e.shadow else s.agents[n].shadowMode
  {
    if e.name in s.agents {
      assert s.applied[e.name := e.fingerprint] == s.applied;
    } else if Known(strategies, e) && MissingCron(e) {
      assert s.warned + {e.name} == s.warned;
    }
  }

  lemma AlikeQuiet(strategies: Strategies, s: Runner, t: Runner, e: Entry)
    requires Alike(s, t)
    ensures Quiet(strategies, s, e) <==> Quiet(strategies, t, e)
  {
    assert e.name in s.agents <==> e.name in t.agents.Keys;
  }

  lemma AlikeTwice(s: Runner, t: Runner, u: Runner)
    requires Alike(s, t) && Alike(t, u)
    ensures Alike(s, u)
  {
    forall n | n in s.agents
      ensures s.agents[n].(shadowMode := u.agents[n].shadowMode) == u.agents[n]
    {
      assert n in t.agents.Keys;
    }
  }

  lemma {:induction false} QuietEntries(strategies: Strategies, s: Runner, entries: seq<Entry>)
    requires forall e :: e in entries ==> Quiet(strategies, s, e)
    ensures var t := Entries(strategies, s.agents.Keys, s, entries);
      Alike(s, t) && forall n :: n in s.agents ==> t.agents[n].shadowMode == ShadowAfter(entries, n, s.agents[n].shadowMode)
    decreases |entries|
  {
    if entries != [] {
      var next := EntryStep(strategies, s.agents.Keys, s, entries[0]);
      assert entries[0] in entries;
      QuietStep(strategies, s, entries[0]);
      forall e | e in entries[1..]
        ensures Quiet(strategies, next, e)
      {
        assert e in entries;
        AlikeQuiet(strategies, s, next, e);
      }
      QuietEntries(strategies, next, entries[1..]);
      AlikeTwice(s, next, Entries(strategies, s.agents.Keys, s, entries));
    }
  }

  lemma {:induction false} LoudEntries(strategies: Strategies, s: Runner, entries: seq<Entry>)
    requires exists e :: e in entries && !Quiet(strategies, s, e)
    ensures var t := Entries(strategies, s.agents.Keys, s, entries);
      |t.events| > |s.events| || !(t.applied.Keys <= s.applied.Keys) || !(t.warned <= s.warned) || !(t.agents.Keys <= s.agents.Keys)
    decreases |entries|
  {
    var next := EntryStep(strategies, s.agents.Keys, s, entries[0]);
    EntriesGrow(strategies, s.agents.Keys, next, entries[1..]);
    if Quiet(strategies, s, entries[0]) {
      QuietStep(strategies, s, entries[0]);
      var e :| e in entries && !Quiet(strategies, s, e);
      AlikeQuiet(strategies, s, next, e);
      assert e in entries[1..];
      LoudEntries(strategies, next, entries[1..]);
    } else {
      LoudStep(strategies, s, entries[0]);
      if n :| n in next.agents.Keys && n !in s.agents.Keys {
        assert n in next.agents.Keys - s.agents.Keys;
      }
    }
  }

  lemma {:induction false} HotStopsSay(s: Runner, names: seq<string>)
    ensures |HotStops(s, names).events| == |s.events| + |names|
    decreases |names|
  {
    if names != [] { HotStopsSay(HotStop(s, names[0]), names[1..]); }
  }

  ghost predicate ShadowsAgree(s: Runner, entries: seq<Entry>) {
    forall n :: n in s.agents ==> s.agents[n].shadowMode == ShadowAfter(entries, n, s.agents[n].shadowMode)
  }

  /** A pass changes nothing, whatever names repeat, if and only if every managed agent has an entry, every
      entry is quiet, and every agent has the shadow mode of the last entry of its name. */
  lemma IdleIff(strategies: Strategies, s: Runner, entries: seq<Entry>, order: seq<string>)
    requires StopOrder(s, entries, order)
    ensures Reconciled(strategies, s, entries, order) == s <==>
      s.agents.Keys <= Names(entries) && (forall e :: e in entries ==> Quiet(strategies, s, e)) && ShadowsAgree(s, entries)
  {
    var after := Reconciled(strategies, s, entries, order);
    if order != [] {
      HotStopsSay(s, order);
      EntriesGrow(strategies, s.agents.Keys, HotStops(s, order), entries);
      assert order[0] in multiset(s.agents.Keys - Names(entries));
    } else {
      NoneToStop(s, entries, order);
      if forall e :: e in entries ==> Quiet(strategies, s, e) {
        QuietEntries(strategies, s, entries);
        SameRunner(s, after, entries);
      } else {
        LoudEntries(strategies, s, entries);
      }
    }
  }

  lemma NoneToStop(s: Runner, entries: seq<Entry>, order: seq<string>)
    requires StopOrder(s, entries, order) && order == []
    ensures s.agents.Keys <= Names(entries)
  {
    forall n | n in s.agents.Keys
      ensures n in Names(entries)
    {
      assert n !in order;
      assert n !in multiset(order);
    }
  }

  lemma SameRunner(s: Runner, t: Runner, entries: seq<Entry>)
    requires Alike(s, t)
    requires forall n :: n in s.agents ==> t.agents[n].shadowMode == ShadowAfter(entries, n, s.agents[n].shadowMode)
    ensures t == s <==> ShadowsAgree(s, entries)
  {
    if ShadowsAgree(s, entries) {
      forall n | n in s.agents
        ensures t.agents[n] == s.agents[n]
      {
        assert s.agents[n].(shadowMode := s.agents[n].shadowMode) == s.agents[n];
      }
      assert t.agents == s.agents;
    }
  }

  /** So two entries of one name with different fingerprints would keep a runner busy for ever, from any state, as
      soon as an agent can be built for one of them. */
  lemma RepeatedNameNeverIdle(strategies: Strategies, s: Runner, entries: seq<Entry>, order: seq<string>, a: Entry, b: Entry)
    requires StopOrder(s, entries, order) && a in entries && b in entries
    requires a.name == b.name && a.fingerprint != b.fingerprint && Startable(strategies, a)
    ensures Reconciled(strategies, s, entries, order) != s
  {
    IdleIff(strategies, s, entries, order);
    assert !Quiet(strategies, s, a) || !Quiet(strategies, s, b);
  }

  // ---------------------------------------------------------------- the runner

  class AgentRunner {
    const strategies: Strategies
    var agents: map<string, AgentConfig>
    var running: set<string>
    var applied: map<string, Fingerprint>
    var warned: set<string>
    var events: seq<Event>

    function State(): Runner
      reads this
    {
      Runner(agents, running, applied, warned, events)
    }

    /** stop_agent; an unknown agent is an error and nothing happens. */
    method StopAgent(name: string) returns (ok: bool)
      modifies this`running, this`events
      ensures ok <==> name in agents
      ensures State() == if ok then Stop(old(State()), name) else old(State())
    {
      if name !in agents {
        return false;
      }
      ok := true;
      running := running - {name};
      events := events + [Stopped(name)];
    }

    method StartAgent(name: string)
      modifies this`running, this`events
      ensures name in old(running) ==> State() == old(State())
      ensures name !in old(running) ==> State() == old(State()).(running := old(running) + {name}, events := old(events) + [Started(name)])
    {
      if name in running {
        return;
      }
      running := running + {name};
      events := events + [Started(name)];
    }

    method InstantiateAgent(e: Entry)
      modifies this
      ensures State() == Instantiate(strategies, old(State()), e)
    {
      if e.fingerprint.strategy !in strategies {
        return;
      }
      if MissingCron(e) {
        warned := warned + {e.name};
        return;
      }
      var config := ConfigOf(e);
      if !strategies[e.fingerprint.strategy](config) {
        return;
      }
      agents := agents[e.name := config];
      running := running - {e.name};
      applied := applied[e.name := e.fingerprint];
      if e.fingerprint.schedule == "continuous" || e.fingerprint.schedule == "cron" {
        StartAgent(e.name);
      }
    }

    method ReconcileEntry(runningNames: set<string>, e: Entry)
      modifies this
      ensures State() == EntryStep(strategies, runningNames, old(State()), e)
    {
      if e.name in runningNames {
        if e.name in applied && applied[e.name] != e.fingerprint {
          var ok := StopAgent(e.name);
          if !ok { return; }
          agents := agents - {e.name};
        } else {
          if e.name in agents && agents[e.name].shadowMode != e.shadow {
            agents := agents[e.name := agents[e.name].(shadowMode := e.shadow)];
          } else if e.name in agents {
            assert agents[e.name := agents[e.name].(shadowMode := e.shadow)] == agents;
          }
          applied := applied[e.name := e.fingerprint];
          return;
        }
      }
      InstantiateAgent(e);
    }

    /** _reconcile_registry. The order of the hot stops is that of a Python set: any. */
    method Reconcile(entries: seq<Entry>) returns (ghost order: seq<string>)
      modifies this
      ensures StopOrder(old(State()), entries, order)
      ensures State() == Reconciled(strategies, old(State()), entries, order)
    {
      var runningNames := agents.Keys;
      var left := runningNames - Names(entries);
      order := [];
      while left != {}
        invariant left <= runningNames - Names(entries) && left <= agents.Keys
        invariant multiset(order) + multiset(left) == multiset(runningNames - Names(entries))
        invariant State() == HotStops(old(State()), order)
        decreases left
      {
        var name :| name in left;
        HotStopsSnoc(old(State()), order, name);
        var ok := StopAgent(name);
        agents := agents - {name};
        applied := applied - {name};
        left := left - {name};
        order := order + [name];
      }
      for i := 0 to |entries|
        invariant Entries(strategies, runningNames, State(), entries[i..])
               == Entries(strategies, runningNames, HotStops(old(State()), order), entries)
      {
        assert entries[i..][1..] == entries[i+1..];
        ReconcileEntry(runningNames, entries[i]);
      }
      assert entries[|entries|..] == [];
    }
  }

  lemma {:induction false} HotStopsSnoc(s: Runner, names: seq<string>, name: string)
    ensures HotStops(s, names + [name]) == HotStop(HotStops(s, names), name)
    decreases |names|
  {
    if names == [] {
      assert names + [name] == [name] && [name][1..] == [];
    } else {
      assert (names + [name])[1..] == names[1..] + [name];
      HotStopsSnoc(HotStop(s, names[0]), names[1..], name);
    }
  }
}
