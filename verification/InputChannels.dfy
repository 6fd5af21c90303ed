/** The table of input channels that all input agents share.

    Every agent changes its own state under its own lock; the table has a lock of its own, taken
    for one change at a time. So an agent that starts, stops or moves to another channel is for
    a while between two changes, and other agents' changes come in between. Starting does not
    look at the agent's status: two tasks that both found it stopped start it twice. */
module InputChannels {
  import opened Options
  import opened Sequences
  import Decimal

  type Table = map<string, seq<string>>

  /** An agent listens to a global channel, or to a variable of its preset. */
  datatype Scope = Global | Local(presetId: string)

  datatype Status = Init | Start | Stop

  /** What an agent is in the middle of. */
  datatype Phase = Idle | Starting | Stopping | Moving(next: Option<string>)

  /** `name` is the channel or variable name of the agent's configs. */
  datatype Agent = Agent(scope: Scope, name: Option<string>, status: Status, phase: Phase)

  datatype State = State(agents: map<string, Agent>, table: Table)

  datatype Action =
    | BeginStart(id: string)
    | EndStart(id: string)
    | BeginStop(id: string)
    | EndStop(id: string)
    | Configure(id: string, name: Option<string>)
    | EndMove(id: string)

  /** `channel_name_for_local`. */
  function LocalChannel(presetId: string, variable: string): string { "%" + presetId + "/" + variable }

  function ChannelOf(scope: Scope, name: string): string {
    match scope
    case Global => name
    case Local(presetId) => LocalChannel(presetId, name)
  }

  function Listed(t: Table, channel: string): seq<string> { if channel in t then t[channel] else [] }

  function Register(t: Table, channel: string, id: string): Table { t[channel := Listed(t, channel) + [id]] }

  function Without(ids: seq<string>, id: string): seq<string> {
    if ids == [] then [] else (if ids[0] == id then [] else [ids[0]]) + Without(ids[1..], id)
  }

  function Unregister(t: Table, channel: string, id: string): Table {
    if channel in t then t[channel := Without(t[channel], id)] else t
  }

  /** Registration under the agent's channel, if it has one. */
  function RegisterAs(t: Table, scope: Scope, name: Option<string>, id: string): Table {
    if name.Some? then Register(t, ChannelOf(scope, name.value), id) else t
  }

  function UnregisterAs(t: Table, scope: Scope, name: Option<string>, id: string): Table {
    if name.Some? then Unregister(t, ChannelOf(scope, name.value), id) else t
  }

  predicate InPhase(st: State, id: string, phase: Phase) { id in st.agents && st.agents[id].phase == phase }

  predicate Enabled(st: State, a: Action) {
    match a
    case BeginStart(id) => InPhase(st, id, Idle) && !st.agents[id].status.Stop?
    case EndStart(id) => InPhase(st, id, Starting)
    case BeginStop(id) => InPhase(st, id, Idle) && st.agents[id].status.Start?
    case EndStop(id) => InPhase(st, id, Stopping)
    case Configure(id, _) => InPhase(st, id, Idle)
    case EndMove(id) => id in st.agents && st.agents[id].phase.Moving?
  }

  function SetAgent(st: State, id: string, agent: Agent, table: Table): State {
    State(st.agents[id := agent], table)
  }

  function Apply(st: State, a: Action): State
    requires Enabled(st, a)
  {
    var g := st.agents[a.id];
    match a
    case BeginStart(id) => SetAgent(st, id, g.(status := Start, phase := Starting), st.table)
    case EndStart(id) => SetAgent(st, id, g.(phase := Idle), RegisterAs(st.table, g.scope, g.name, id))
    case BeginStop(id) => SetAgent(st, id, g.(status := Stop, phase := Stopping), st.table)
    case EndStop(id) => SetAgent(st, id, g.(status := Init, phase := Idle), UnregisterAs(st.table, g.scope, g.name, id))
    case Configure(id, name) =>
      if name == g.name then st
      else if g.status.Start? then
        SetAgent(st, id, g.(phase := Moving(name)), UnregisterAs(st.table, g.scope, g.name, id))
      else SetAgent(st, id, g.(name := name), st.table)
    case EndMove(id) =>
      SetAgent(st, id, g.(name := g.phase.next, phase := Idle), RegisterAs(st.table, g.scope, g.phase.next, id))
  }

  // ---------------------------------------------------------------- listings

  lemma {:induction false} CountWithout(ids: seq<string>, x: string, id: string)
    ensures Count(Without(ids, x), id) == if x == id then 0 else Count(ids, id)
  {
    if ids != [] {
      CountWithout(ids[1..], x, id);
      var rest := Without(ids[1..], x);
      if ids[0] == x {
        assert Without(ids, x) == rest;
      } else {
        assert ([ids[0]] + rest)[1..] == rest;
      }
    }
  }

  /** The channel is the one the agent's name stands for. */
  predicate OnChannel(st: State, channel: string, id: string) {
    id in st.agents && st.agents[id].name.Some? && channel == ChannelOf(st.agents[id].scope, st.agents[id].name.value)
  }

  /** The agent is listed n times under its own channel, and nowhere else. */
  ghost predicate ListedTimes(st: State, id: string, n: nat) {
    forall channel :: Count(Listed(st.table, channel), id) == if OnChannel(st, channel, id) then n else 0
  }

  /** A stopped or moving agent is not listed; one that runs on a channel is. */
  predicate PhaseOk(st: State, id: string, n: nat) {
    if id !in st.agents then n == 0
    else
      var g := st.agents[id];
      match g.phase
      case Idle => !g.status.Stop? && (g.status.Init? ==> n == 0) && (g.status.Start? && g.name.Some? ==> n >= 1)
      case Starting => g.status.Start?
      case Stopping => g.status.Stop?
      case Moving(_) => g.status.Start? && n == 0
  }

  ghost predicate Inv(st: State, id: string, n: nat) { ListedTimes(st, id, n) && PhaseOk(st, id, n) }

  /** The registrations of the agent since its last removal, after one more action. */
  function NextRegistrations(st: State, a: Action, id: string, n: nat): nat
    requires Enabled(st, a)
  {
    if a.id != id then n
    else
      var g := st.agents[id];
      match a
      case EndStart(_) => if g.name.Some? then n + 1 else n
      case EndStop(_) => 0
      case Configure(_, name) => if name != g.name && g.status.Start? then 0 else n
      case EndMove(_) => if g.phase.next.Some? then 1 else 0
      case _ => n
  }

  lemma RegisterCounts(t: Table, channel: string, x: string, c: string, id: string)
    ensures Count(Listed(Register(t, channel, x), c), id) ==
      Count(Listed(t, c), id) + if c == channel && id == x then 1 else 0
  {
    CountAppend(Listed(t, channel), x, id);
  }

  lemma UnregisterCounts(t: Table, channel: string, x: string, c: string, id: string)
    ensures Count(Listed(Unregister(t, channel, x), c), id) ==
      if c == channel && id == x then 0 else Count(Listed(t, c), id)
  {
    if channel in t { CountWithout(t[channel], x, id); }
  }

  lemma StepMovesListing(st: State, a: Action, id: string, n: nat, c: string)
    requires Enabled(st, a) && Inv(st, id, n)
    ensures var next := Apply(st, a);
      Count(Listed(next.table, c), id) == if OnChannel(next, c, id) then NextRegistrations(st, a, id, n) else 0
  {
    var g := st.agents[a.id];
    match a
    case EndStart(_) =>
      if g.name.Some? { RegisterCounts(st.table, ChannelOf(g.scope, g.name.value), a.id, c, id); }
    case EndStop(_) =>
      if g.name.Some? { UnregisterCounts(st.table, ChannelOf(g.scope, g.name.value), a.id, c, id); }
    case Configure(_, name) =>
      if g.name.Some? { UnregisterCounts(st.table, ChannelOf(g.scope, g.name.value), a.id, c, id); }
    case EndMove(_) =>
      if g.phase.next.Some? { RegisterCounts(st.table, ChannelOf(g.scope, g.phase.next.value), a.id, c, id); }
    case _ =>
  }

  lemma StepKeepsInv(st: State, a: Action, id: string, n: nat)
    requires Enabled(st, a) && Inv(st, id, n)
    ensures Inv(Apply(st, a), id, NextRegistrations(st, a, id, n))
  {
    var next, m := Apply(st, a), NextRegistrations(st, a, id, n);
    forall c ensures Count(Listed(next.table, c), id) == if OnChannel(next, c, id) then m else 0 {
      StepMovesListing(st, a, id, n, c);
    }
  }

  // ---------------------------------------------------------------- runs

  predicate StepAt(tr: seq<State>, acts: seq<Action>, i: nat)
    requires |tr| == |acts| + 1 && i < |acts|
  {
    Enabled(tr[i], acts[i]) && tr[i + 1] == Apply(tr[i], acts[i])
  }

  /** At first all agents are stopped and no channel lists any of them. */
  predicate Initial(st: State) {
    && (forall id | id in st.agents :: st.agents[id].status.Init? && st.agents[id].phase.Idle?)
    && (forall c | c in st.table :: st.table[c] == [])
  }

  ghost predicate Run(tr: seq<State>, acts: seq<Action>) {
    && |tr| == |acts| + 1
    && Initial(tr[0])
    && forall i | 0 <= i < |acts| :: StepAt(tr, acts, i)
  }

  /** How often the agent registered since it was last removed, read off the actions. */
  function Registrations(tr: seq<State>, acts: seq<Action>, i: nat, id: string): nat
    requires |tr| == |acts| + 1 && i <= |acts|
    requires forall j | 0 <= j < |acts| :: StepAt(tr, acts, j)
  {
    if i == 0 then 0
    else
      assert StepAt(tr, acts, i - 1);
      NextRegistrations(tr[i - 1], acts[i - 1], id, Registrations(tr, acts, i - 1, id))
  }

  lemma {:induction false} InvAlong(tr: seq<State>, acts: seq<Action>, i: nat, id: string)
    requires Run(tr, acts) && i < |tr|
    ensures Inv(tr[i], id, Registrations(tr, acts, i, id))
    decreases i
  {
    if i == 0 {
      forall c ensures Count(Listed(tr[0].table, c), id) == 0 { assert Listed(tr[0].table, c) == []; }
    } else {
      InvAlong(tr, acts, i - 1, id);
      assert StepAt(tr, acts, i - 1);
      StepKeepsInv(tr[i - 1], acts[i - 1], id, Registrations(tr, acts, i - 1, id));
    }
  }

  /** Whatever starts, stops and channel changes interleave: at every moment an agent is listed
      under its current channel as often as it registered since its last removal, and nowhere
      else. The channel of a global agent is its name, that of a local one has the preset's id
      in front. */
  lemma ListedAsRegistered(tr: seq<State>, acts: seq<Action>, i: nat, id: string, channel: string)
    requires Run(tr, acts) && i < |tr|
    ensures Count(Listed(tr[i].table, channel), id) ==
      if OnChannel(tr[i], channel, id) then Registrations(tr, acts, i, id) else 0
    ensures id in Listed(tr[i].table, channel) ==>
      && id in tr[i].agents && tr[i].agents[id].name.Some?
      && var (scope, name) := (tr[i].agents[id].scope, tr[i].agents[id].name.value);
        channel == match scope case Global => name case Local(p) => "%" + p + "/" + name
  {
    InvAlong(tr, acts, i, id);
    CountIsZeroIff(Listed(tr[i].table, channel), id);
  }

  /** Agents of different presets are never listed under one channel. */
  lemma PresetsAreNeverListedTogether(tr: seq<State>, acts: seq<Action>, i: nat, channel: string,
                                      a: string, m: nat, b: string, n: nat)
    requires Run(tr, acts) && i < |tr| && a in tr[i].agents && b in tr[i].agents
    requires tr[i].agents[a].scope == Local(Decimal.ToString(m)) && tr[i].agents[b].scope == Local(Decimal.ToString(n))
    requires a in Listed(tr[i].table, channel) && b in Listed(tr[i].table, channel)
    ensures m == n && tr[i].agents[a].name == tr[i].agents[b].name
  {
    ListedAsRegistered(tr, acts, i, a, channel);
    ListedAsRegistered(tr, acts, i, b, channel);
    LocalChannelsIff(Decimal.ToString(m), tr[i].agents[a].name.value, Decimal.ToString(n), tr[i].agents[b].name.value);
    Decimal.ToStringInjective(m, n);
  }

  /** Between i and j no action is the agent's. */
  predicate Undisturbed(acts: seq<Action>, i: nat, j: nat, id: string)
    requires j <= |acts|
  {
    forall m | i <= m < j :: acts[m].id != id
  }

  /** One start of an agent that has a channel, from its beginning to its registration. */
  predicate StartOf(tr: seq<State>, acts: seq<Action>, i: nat, j: nat, id: string)
    requires |tr| == |acts| + 1
  {
    && i < j < |acts| && acts[i] == BeginStart(id) && acts[j] == EndStart(id) && Undisturbed(acts, i + 1, j, id)
    && id in tr[i].agents && tr[i].agents[id].name.Some?
  }

  lemma {:induction false} UndisturbedStays(tr: seq<State>, acts: seq<Action>, i: nat, j: nat, id: string)
    requires Run(tr, acts) && i <= j < |tr| && Undisturbed(acts, i, j, id) && id in tr[i].agents
    ensures id in tr[j].agents && tr[j].agents[id] == tr[i].agents[id]
    ensures Registrations(tr, acts, j, id) == Registrations(tr, acts, i, id)
    decreases j
  {
    if i < j {
      UndisturbedStays(tr, acts, i, j - 1, id);
      assert StepAt(tr, acts, j - 1);
    }
  }

  /** A start lists the agent once more; so it is listed exactly once after a start if and only
      if it was stopped when the start began. */
  lemma ListedOnceAfterStartIff(tr: seq<State>, acts: seq<Action>, i: nat, j: nat, id: string, channel: string)
    requires Run(tr, acts) && StartOf(tr, acts, i, j, id) && OnChannel(tr[j + 1], channel, id)
    ensures Count(Listed(tr[j + 1].table, channel), id) == Count(Listed(tr[i].table, channel), id) + 1
    ensures Count(Listed(tr[j + 1].table, channel), id) == 1 <==> tr[i].agents[id].status.Init?
  {
    assert StepAt(tr, acts, i) && StepAt(tr, acts, j);
    UndisturbedStays(tr, acts, i + 1, j, id);
    ListedAsRegistered(tr, acts, i, id, channel);
    ListedAsRegistered(tr, acts, j + 1, id, channel);
    InvAlong(tr, acts, i, id);
  }

  /** Up to moment k every start of the agent on a channel began while it was stopped. */
  ghost predicate StartedFromStopped(tr: seq<State>, acts: seq<Action>, k: nat, id: string)
    requires |tr| == |acts| + 1
  {
    forall i: nat, j: nat | StartOf(tr, acts, i, j, id) && j < k :: tr[i].agents[id].status.Init?
  }

  lemma {:induction false} StartingBegan(tr: seq<State>, acts: seq<Action>, j: nat, id: string) returns (i: nat)
    requires Run(tr, acts) && j < |tr| && InPhase(tr[j], id, Starting)
    ensures i < j && acts[i] == BeginStart(id) && Undisturbed(acts, i + 1, j, id)
  {
    i := j - 1;
    assert StepAt(tr, acts, i);
    if acts[i].id != id { i := StartingBegan(tr, acts, i, id); }
  }

  lemma {:induction false} AtMostOneRegistration(tr: seq<State>, acts: seq<Action>, k: nat, id: string)
    requires Run(tr, acts) && k < |tr| && StartedFromStopped(tr, acts, k, id)
    ensures Registrations(tr, acts, k, id) <= 1
  {
    if k > 0 {
      AtMostOneRegistration(tr, acts, k - 1, id);
      assert StepAt(tr, acts, k - 1);
      if acts[k - 1] == EndStart(id) && tr[k - 1].agents[id].name.Some? {
        var i := StartingBegan(tr, acts, k - 1, id);
        assert StepAt(tr, acts, i);
        UndisturbedStays(tr, acts, i + 1, k - 1, id);
        assert StartOf(tr, acts, i, k - 1, id);
        InvAlong(tr, acts, i, id);
      }
    }
  }

  /** An agent is never listed twice, not even in the middle of a change, if and only if every
      one of its starts on a channel began while it was stopped. */
  lemma NeverListedTwiceIff(tr: seq<State>, acts: seq<Action>, k: nat, id: string)
    requires Run(tr, acts) && k < |tr|
    ensures (forall i, c | 0 <= i <= k :: Count(Listed(tr[i].table, c), id) <= 1) <==>
      StartedFromStopped(tr, acts, k, id)
  {
    if StartedFromStopped(tr, acts, k, id) {
      forall i, c | 0 <= i <= k ensures Count(Listed(tr[i].table, c), id) <= 1 {
        AtMostOneRegistration(tr, acts, i, id);
        ListedAsRegistered(tr, acts, i, id, c);
      }
    } else {
      var i: nat, j: nat :| StartOf(tr, acts, i, j, id) && j < k && !tr[i].agents[id].status.Init?;
      assert StepAt(tr, acts, i) && StepAt(tr, acts, j);
      UndisturbedStays(tr, acts, i + 1, j, id);
      var g := tr[j + 1].agents[id];
      var c := ChannelOf(g.scope, g.name.value);
      ListedOnceAfterStartIff(tr, acts, i, j, id, c);
      assert Count(Listed(tr[j + 1].table, c), id) >= 2;
    }
  }

  /** No agent is ever listed under two channels, restarted or not. */
  lemma NeverOnTwoChannels(tr: seq<State>, acts: seq<Action>, i: nat, id: string, c: string, d: string)
    requires Run(tr, acts) && i < |tr|
    requires id in Listed(tr[i].table, c) && id in Listed(tr[i].table, d)
    ensures c == d
  {
    ListedAsRegistered(tr, acts, i, id, c);
    ListedAsRegistered(tr, acts, i, id, d);
    CountIsZeroIff(Listed(tr[i].table, c), id);
    CountIsZeroIff(Listed(tr[i].table, d), id);
  }

  /** An agent whose starts began while it was stopped, and that is not in the middle of a
      change, is listed exactly once under its current channel if it runs and has one, and
      nowhere else. */
  lemma ListedOnceWhileRunning(tr: seq<State>, acts: seq<Action>, i: nat, id: string, channel: string)
    requires Run(tr, acts) && i < |tr| && InPhase(tr[i], id, Idle) && StartedFromStopped(tr, acts, i, id)
    ensures var g := tr[i].agents[id];
      Count(Listed(tr[i].table, channel), id) ==
      if g.status.Start? && g.name.Some? && channel == ChannelOf(g.scope, g.name.value) then 1 else 0
  {
    InvAlong(tr, acts, i, id);
    AtMostOneRegistration(tr, acts, i, id);
  }

  /** Two tasks that both found the agent stopped start it one after the other: it is listed
      twice, and every input of its channel will reach it twice. */
  lemma StartingAgainListsTwice(scope: Scope, name: string, id: string) returns (tr: seq<State>, acts: seq<Action>)
    ensures Run(tr, acts) && acts == [BeginStart(id), EndStart(id), BeginStart(id), EndStart(id)]
    ensures tr[0] == State(map[id := Agent(scope, Some(name), Init, Idle)], map[])
    ensures tr[4].table == map[ChannelOf(scope, name) := [id, id]]
  {
    var c, g := ChannelOf(scope, name), Agent(scope, Some(name), Start, Idle);
    var starting := g.(phase := Starting);
    var once, twice := map[c := [id]], map[c := [id, id]];
    acts := [BeginStart(id), EndStart(id), BeginStart(id), EndStart(id)];
    tr := [State(map[id := g.(status := Init)], map[]), State(map[id := starting], map[]), State(map[id := g], once),
           State(map[id := starting], once), State(map[id := g], twice)];
    assert [] + [id] == [id] && [id] + [id] == [id, id];
    assert Register(map[], c, id) == once && Register(once, c, id) == twice;
    forall i | 0 <= i < 4 ensures StepAt(tr, acts, i) {
      assert acts[i].id == id && map[id := tr[i].agents[id]] == tr[i].agents;
    }
  }

  // ---------------------------------------------------------------- local channels

  predicate NoSlash(s: string) { forall i | 0 <= i < |s| :: s[i] != '/' }

  /** Channels of preset variables differ unless preset and variable are the same. */
  lemma LocalChannelsIff(p: string, v: string, q: string, w: string)
    requires NoSlash(p) && NoSlash(q)
    ensures LocalChannel(p, v) == LocalChannel(q, w) <==> p == q && v == w
  {
    var x, y := LocalChannel(p, v), LocalChannel(q, w);
    if x == y {
      assert x[|p| + 1] == '/' && y[|q| + 1] == '/';
      assert forall i | 0 <= i < |p| :: x[i + 1] == p[i];
      assert forall i | 0 <= i < |q| :: y[i + 1] == q[i];
      assert |p| == |q|;
      assert p == x[1..|p| + 1] && q == y[1..|q| + 1];
      assert v == x[|p| + 2..] && w == y[|q| + 2..];
    }
  }

  /** Preset ids are decimal numbers, so variables of different presets never share a channel. */
  lemma PresetsAreIsolated(m: nat, v: string, n: nat, w: string)
    requires m != n
    ensures LocalChannel(Decimal.ToString(m), v) != LocalChannel(Decimal.ToString(n), w)
  {
    if Decimal.ToString(m) == Decimal.ToString(n) { Decimal.ToStringInjective(m, n); }
    LocalChannelsIff(Decimal.ToString(m), v, Decimal.ToString(n), w);
  }

  // ---------------------------------------------------------------- the agents

  class ChannelTable {
    var channels: Table

    constructor ()
      ensures channels == map[]
    {
      channels := map[];
    }

    method Push(channel: string, id: string)
      modifies this
      ensures channels == Register(old(channels), channel, id)
    {
      if channel in channels {
        channels := channels[channel := channels[channel] + [id]];
      } else {
        assert [] + [id] == [id];
        channels := channels[channel := [id]];
      }
    }

    method RetainOthers(channel: string, id: string)
      modifies this
      ensures channels == Unregister(old(channels), channel, id)
    {
      if channel !in channels { return; }
      var ids, kept, i := channels[channel], [], 0;
      assert ids[0..] == ids;
      while i < |ids|
        invariant 0 <= i <= |ids|
        invariant channels == old(channels)
        invariant Without(ids, id) == kept + Without(ids[i..], id)
      {
        assert ids[i..][1..] == ids[i + 1..];
        if ids[i] != id { kept := kept + [ids[i]]; }
        i := i + 1;
      }
      assert kept + [] == kept;
      channels := channels[channel := kept];
    }
  }

  /** An input agent of either kind. */
  class InputAgent {
    const id: string
    const scope: Scope
    const ma: ChannelTable
    var name: Option<string>
    var status: Status

    ghost function View(): Agent
      reads this
    {
      Agent(scope, name, status, Idle)
    }

    constructor (id: string, scope: Scope, ma: ChannelTable, name: Option<string>)
      ensures this.id == id && this.scope == scope && this.ma == ma
      ensures View() == Agent(scope, name, Init, Idle)
    {
      this.id, this.scope, this.ma := id, scope, ma;
      this.name, this.status := name, Init;
    }

    /** `start`, from whatever status. */
    method StartAgent()
      modifies this, ma
      ensures View() == old(View()).(status := Start)
      ensures ma.channels == RegisterAs(old(ma.channels), scope, name, id)
    {
      status := Start;
      if name.Some? { ma.Push(ChannelOf(scope, name.value), id); }
    }

    method StopAgent()
      requires status.Start?
      modifies this, ma
      ensures View() == old(View()).(status := Init)
      ensures ma.channels == UnregisterAs(old(ma.channels), scope, name, id)
    {
      status := Stop;
      if name.Some? { ma.RetainOthers(ChannelOf(scope, name.value), id); }
      status := Init;
    }

    /** The registration belongs to the running state: a stopped agent only takes the name over. */
    method ConfigsChanged(newName: Option<string>)
      modifies this, ma
      ensures View() == old(View()).(name := newName)
      ensures ma.channels ==
        if newName == old(name) || !status.Start? then old(ma.channels)
        else RegisterAs(UnregisterAs(old(ma.channels), scope, old(name), id), scope, newName, id)
    {
      if name != newName {
        if status == Start {
          if name.Some? { ma.RetainOthers(ChannelOf(scope, name.value), id); }
          if newName.Some? { ma.Push(ChannelOf(scope, newName.value), id); }
        }
        name := newName;
      }
    }
  }
}
