/** Batch edits: adding agents and connections to a preset as one transaction over the agents
    map, the routing table and the preset's spec.

    `add_agents_and_connections` renames the batch with new ids, then adds element after element
    to three structures and undoes its own additions, in the order it made them, when one fails. */
module BatchEdit {
  import opened Options
  import opened Sequences
  import Decimal

  /** `body` stands for every field of an agent spec besides the id. */
  datatype AgentSpec = AgentSpec(id: string, body: string)

  datatype Connection = Connection(source: string, sourceHandle: string, target: string, targetHandle: string)

  datatype Target = Target(agent: string, sourceHandle: string, targetHandle: string)

  datatype Instance = Instance(presetId: string, spec: AgentSpec)

  datatype Error =
    | PresetNotFound(id: string)
    | AgentAlreadyExists(id: string)
    | AgentDefinitionNotFound
    | ConnectionAlreadyExists

  type Routing = map<string, seq<Target>>

  function TargetOf(c: Connection): Target { Target(c.target, c.sourceHandle, c.targetHandle) }

  // ---------------------------------------------------------------- renaming

  /** The id map `update_ids` builds: of agents with the same id, the last one counts. */
  function IdMap(agents: seq<AgentSpec>, ids: seq<string>): map<string, string>
    requires |agents| == |ids|
  {
    if agents == [] then map[]
    else
      var n := |agents| - 1;
      IdMap(agents[..n], ids[..n])[agents[n].id := ids[n]]
  }

  function Rename(m: map<string, string>, id: string): string { if id in m then m[id] else id }

  function RenameConnection(m: map<string, string>, c: Connection): Connection {
    c.(source := Rename(m, c.source), target := Rename(m, c.target))
  }

  function RenamedAgents(agents: seq<AgentSpec>, ids: seq<string>): seq<AgentSpec>
    requires |agents| == |ids|
  {
    seq(|agents|, i requires 0 <= i < |agents| => agents[i].(id := ids[i]))
  }

  function RenamedConnections(agents: seq<AgentSpec>, ids: seq<string>, cs: seq<Connection>): seq<Connection>
    requires |agents| == |ids|
  {
    seq(|cs|, i requires 0 <= i < |cs| => RenameConnection(IdMap(agents, ids), cs[i]))
  }

  lemma RenamedSnoc(agents: seq<AgentSpec>, ids: seq<string>, agent: AgentSpec, id: string)
    requires |agents| == |ids|
    ensures RenamedAgents(agents + [agent], ids + [id]) == RenamedAgents(agents, ids) + [agent.(id := id)]
    ensures IdMap(agents + [agent], ids + [id]) == IdMap(agents, ids)[agent.id := id]
  {
    var n := |agents|;
    assert (agents + [agent])[..n] == agents && (ids + [id])[..n] == ids;
  }

  predicate DistinctIds(agents: seq<AgentSpec>) {
    forall i, j | 0 <= i < j < |agents| :: agents[i].id != agents[j].id
  }

  predicate Inside(agents: seq<AgentSpec>, id: string) { exists i :: 0 <= i < |agents| && agents[i].id == id }

  predicate EndpointsInside(agents: seq<AgentSpec>, cs: seq<Connection>) {
    forall k | 0 <= k < |cs| :: Inside(agents, cs[k].source) && Inside(agents, cs[k].target)
  }

  /** The counter gave this id between these two of its values. */
  ghost predicate Drawn(id: string, from: nat, to: nat) {
    exists k: nat :: from <= k < to && id == Decimal.ToString(k)
  }

  /** New ids: distinct, and taken from the counter between two of its values. */
  ghost predicate FreshIds(ids: seq<string>, from: nat, to: nat) {
    && from <= to
    && (forall i | 0 <= i < |ids| :: Drawn(ids[i], from, to))
    && (forall i, j | 0 <= i < j < |ids| :: ids[i] != ids[j])
  }

  lemma {:induction false} IdMapAt(agents: seq<AgentSpec>, ids: seq<string>, i: nat)
    requires |agents| == |ids| && i < |agents| && DistinctIds(agents)
    ensures agents[i].id in IdMap(agents, ids) && IdMap(agents, ids)[agents[i].id] == ids[i]
  {
    var n := |agents| - 1;
    if i < n { IdMapAt(agents[..n], ids[..n], i); }
  }

  lemma {:induction false} IdMapKeys(agents: seq<AgentSpec>, ids: seq<string>, id: string)
    requires |agents| == |ids| && id in IdMap(agents, ids)
    ensures Inside(agents, id)
  {
    var n := |agents| - 1;
    if id == agents[n].id {
    } else {
      IdMapKeys(agents[..n], ids[..n], id);
      var i :| 0 <= i < n && agents[..n][i].id == id;
      assert agents[i].id == id;
    }
  }

  /** b is a with every id replaced by a different new one, consistently in agents and in the
      endpoints of connections, and nothing else changed. */
  predicate IsomorphicCopy(a: seq<AgentSpec>, ac: seq<Connection>, b: seq<AgentSpec>, bc: seq<Connection>) {
    && |b| == |a| && |bc| == |ac|
    && DistinctIds(b) && EndpointsInside(b, bc)
    && (forall i | 0 <= i < |a| :: b[i].body == a[i].body)
    && (forall k | 0 <= k < |ac| ::
          bc[k].sourceHandle == ac[k].sourceHandle && bc[k].targetHandle == ac[k].targetHandle)
    && (forall k, i | 0 <= k < |ac| && 0 <= i < |a| ::
          && (bc[k].source == b[i].id <==> ac[k].source == a[i].id)
          && (bc[k].target == b[i].id <==> ac[k].target == a[i].id))
  }

  /** An id of the batch is renamed by position. */
  lemma {:induction false} RenameByPosition(agents: seq<AgentSpec>, ids: seq<string>, id: string) returns (j: nat)
    requires |agents| == |ids| && DistinctIds(agents) && Inside(agents, id)
    requires forall i, j | 0 <= i < j < |ids| :: ids[i] != ids[j]
    ensures j < |agents| && agents[j].id == id && Rename(IdMap(agents, ids), id) == ids[j]
    ensures forall i | 0 <= i < |agents| :: Rename(IdMap(agents, ids), id) == ids[i] <==> id == agents[i].id
  {
    j :| 0 <= j < |agents| && agents[j].id == id;
    IdMapAt(agents, ids, j);
  }

  /** The renaming of a batch is an isomorphic copy of it. */
  lemma RenamingIsIsomorphic(agents: seq<AgentSpec>, cs: seq<Connection>, ids: seq<string>)
    requires |agents| == |ids| && DistinctIds(agents) && EndpointsInside(agents, cs)
    requires forall i, j | 0 <= i < j < |ids| :: ids[i] != ids[j]
    ensures IsomorphicCopy(agents, cs, RenamedAgents(agents, ids), RenamedConnections(agents, ids, cs))
  {
    var b, bc := RenamedAgents(agents, ids), RenamedConnections(agents, ids, cs);
    forall k | 0 <= k < |cs|
      ensures Inside(b, bc[k].source) && Inside(b, bc[k].target)
      ensures forall i | 0 <= i < |agents| ::
        && (bc[k].source == b[i].id <==> cs[k].source == agents[i].id)
        && (bc[k].target == b[i].id <==> cs[k].target == agents[i].id)
    {
      var i := RenameByPosition(agents, ids, cs[k].source);
      var j := RenameByPosition(agents, ids, cs[k].target);
      assert b[i].id == bc[k].source && b[j].id == bc[k].target;
    }
  }

  // ---------------------------------------------------------------- the routing table

  predicate Routed(r: Routing, c: Connection) { c.source in r && TargetOf(c) in r[c.source] }

  function TargetsAt(r: Routing, source: string): seq<Target> { if source in r then r[source] else [] }

  /** The targets of the connections from one source, in order. */
  function TargetsOf(cs: seq<Connection>, source: string): seq<Target> {
    if cs == [] then []
    else (if cs[0].source == source then [TargetOf(cs[0])] else []) + TargetsOf(cs[1..], source)
  }

  predicate RoutedAt(r: Routing, was: Routing, cs: seq<Connection>, source: string) {
    && (source in r <==> source in was || TargetsOf(cs, source) != [])
    && TargetsAt(r, source) == TargetsAt(was, source) + TargetsOf(cs, source)
  }

  /** r is the old table with the connections added in order. */
  ghost predicate RoutedAfter(r: Routing, was: Routing, cs: seq<Connection>) {
    forall source :: RoutedAt(r, was, cs, source)
  }

  /** No connection repeats an earlier one or one of the old table. */
  predicate NoClash(was: Routing, cs: seq<Connection>) {
    && (forall k | 0 <= k < |cs| :: !Routed(was, cs[k]))
    && (forall j, k | 0 <= j < k < |cs| :: cs[j] != cs[k])
  }

  function Retain(ts: seq<Target>, t: Target): seq<Target> {
    if ts == [] then [] else (if ts[0] == t then [] else [ts[0]]) + Retain(ts[1..], t)
  }

  lemma {:induction false} RetainAbsent(ts: seq<Target>, t: Target)
    requires t !in ts
    ensures Retain(ts, t) == ts
  {
    if ts != [] { RetainAbsent(ts[1..], t); }
  }

  lemma {:induction false} InRetain(ts: seq<Target>, t: Target, x: Target)
    ensures x in Retain(ts, t) <==> x in ts && x != t
  {
    if ts != [] {
      InRetain(ts[1..], t, x);
      assert ts == [ts[0]] + ts[1..];
    }
  }

  lemma RetainCons(ts: seq<Target>, x: Target, rest: seq<Target>, t: Target)
    requires ts == [x] + rest
    ensures Retain(ts, t) == (if x == t then [] else [x]) + Retain(rest, t)
  {
    assert ts[1..] == rest;
  }

  lemma {:induction false} RetainConcat(a: seq<Target>, b: seq<Target>, t: Target)
    ensures Retain(a + b, t) == Retain(a, t) + Retain(b, t)
  {
    if a == [] {
      assert a + b == b;
    } else {
      RetainConcat(a[1..], b, t);
      RetainCons(a + b, a[0], a[1..] + b, t);
      Associate(if a[0] == t then [] else [a[0]], Retain(a[1..], t), Retain(b, t));
    }
  }

  lemma RetainSplit(a: seq<Target>, b: seq<Target>, t: Target)
    requires t !in a && t !in b
    ensures Retain(a + ([t] + b), t) == a + b
  {
    RetainConcat(a, [t] + b, t);
    RetainAbsent(a, t);
    RetainHead([t] + b, t, b);
  }

  lemma RetainHead(ts: seq<Target>, t: Target, b: seq<Target>)
    requires ts == [t] + b && t !in b
    ensures Retain(ts, t) == b
  {
    assert ts[1..] == b;
    RetainAbsent(b, t);
    assert [] + b == b;
  }

  lemma {:induction false} TargetsOfAppend(cs: seq<Connection>, c: Connection, source: string)
    ensures TargetsOf(cs + [c], source) == TargetsOf(cs, source) + (if c.source == source then [TargetOf(c)] else [])
  {
    if cs == [] {
      assert cs + [c] == [c] && [c][1..] == [];
    } else {
      TargetsOfAppend(cs[1..], c, source);
      assert (cs + [c])[1..] == cs[1..] + [c];
    }
  }

  /** A target is listed for a source exactly when its connection is in the list. */
  lemma {:induction false} InTargetsOf(cs: seq<Connection>, c: Connection)
    ensures TargetOf(c) in TargetsOf(cs, c.source) <==> c in cs
  {
    if cs != [] {
      InTargetsOf(cs[1..], c);
      assert cs == [cs[0]] + cs[1..];
      assert TargetsOf(cs, c.source) ==
        (if cs[0].source == c.source then [TargetOf(cs[0])] else []) + TargetsOf(cs[1..], c.source);
    }
  }

  lemma RoutedAfterIff(r: Routing, was: Routing, cs: seq<Connection>, c: Connection)
    requires RoutedAfter(r, was, cs)
    ensures Routed(r, c) <==> Routed(was, c) || c in cs
  {
    assert RoutedAt(r, was, cs, c.source);
    InTargetsOf(cs, c);
    assert Routed(r, c) <==> TargetOf(c) in TargetsAt(r, c.source);
    assert Routed(was, c) <==> TargetOf(c) in TargetsAt(was, c.source);
  }

  lemma NothingRouted(was: Routing)
    ensures RoutedAfter(was, was, [])
  {
    forall source ensures RoutedAt(was, was, [], source) {}
  }

  lemma RoutedNothingIsOld(r: Routing, was: Routing)
    requires RoutedAfter(r, was, [])
    ensures r == was
  {
    forall source ensures source in r <==> source in was
      ensures source in r ==> r[source] == was[source]
    {
      assert RoutedAt(r, was, [], source);
    }
  }

  /** Where a message on a port goes: the agents and handles of the entries with that handle. */
  function Receivers(ts: seq<Target>, port: string): seq<(string, string)> {
    if ts == [] then []
    else (if ts[0].sourceHandle == port then [(ts[0].agent, ts[0].targetHandle)] else []) + Receivers(ts[1..], port)
  }

  /** The other ends of the connections from one handle of one agent, in order. */
  function OtherEnds(cs: seq<Connection>, source: string, handle: string): seq<(string, string)> {
    if cs == [] then []
    else
      var c := cs[0];
      (if c.source == source && c.sourceHandle == handle then [(c.target, c.targetHandle)] else [])
      + OtherEnds(cs[1..], source, handle)
  }

  lemma ReceiversCons(ts: seq<Target>, x: Target, rest: seq<Target>, port: string)
    requires ts == [x] + rest
    ensures Receivers(ts, port) ==
      (if x.sourceHandle == port then [(x.agent, x.targetHandle)] else []) + Receivers(rest, port)
  {
    assert ts[1..] == rest;
  }

  lemma {:induction false} ReceiversConcat(a: seq<Target>, b: seq<Target>, port: string)
    ensures Receivers(a + b, port) == Receivers(a, port) + Receivers(b, port)
  {
    if a == [] {
      assert a + b == b;
    } else {
      var x := a[0];
      ReceiversConcat(a[1..], b, port);
      ReceiversCons(a + b, x, a[1..] + b, port);
      Associate(if x.sourceHandle == port then [(x.agent, x.targetHandle)] else [], Receivers(a[1..], port),
                Receivers(b, port));
    }
  }

  lemma {:induction false} ReceiversOfTargets(cs: seq<Connection>, source: string, port: string)
    ensures Receivers(TargetsOf(cs, source), port) == OtherEnds(cs, source, port)
  {
    if cs != [] {
      ReceiversOfTargets(cs[1..], source, port);
      var first := if cs[0].source == source then [TargetOf(cs[0])] else [];
      ReceiversConcat(first, TargetsOf(cs[1..], source), port);
      assert first != [] ==> first[1..] == [];
    }
  }

  /** After adding connections a message on a port reaches the receivers it had, then the other
      ends of the new connections from that port, in order, at their own handles. */
  lemma AddedAreReached(r: Routing, was: Routing, cs: seq<Connection>, source: string, port: string)
    requires RoutedAfter(r, was, cs)
    ensures Receivers(if source in r then r[source] else [], port) ==
      Receivers(if source in was then was[source] else [], port) + OtherEnds(cs, source, port)
  {
    assert RoutedAt(r, was, cs, source);
    ReceiversConcat(TargetsAt(was, source), TargetsOf(cs, source), port);
    ReceiversOfTargets(cs, source, port);
  }

  /** The table with one connection added. */
  function AddRoute(r: Routing, c: Connection): Routing {
    r[c.source := TargetsAt(r, c.source) + [TargetOf(c)]]
  }

  lemma AddedRoute(r: Routing, was: Routing, cs: seq<Connection>, c: Connection)
    requires RoutedAfter(r, was, cs)
    ensures RoutedAfter(AddRoute(r, c), was, cs + [c])
  {
    var r' := AddRoute(r, c);
    forall source ensures RoutedAt(r', was, cs + [c], source) {
      assert RoutedAt(r, was, cs, source);
      TargetsOfAppend(cs, c, source);
    }
  }

  /** What `remove_connection_internal` leaves. */
  function Unroute(r: Routing, c: Connection): Routing {
    if c.source !in r then r
    else
      var left := Retain(r[c.source], TargetOf(c));
      if left == [] then r - {c.source} else r[c.source := left]
  }

  /** A source whose target list is empty would vanish from the table with its last target. */
  predicate NoEmptyList(was: Routing, c: Connection) { c.source in was ==> was[c.source] != [] }

  /** What is left of the list of the removed connection's source. */
  lemma UnroutedList(r: Routing, was: Routing, c: Connection, rest: seq<Connection>)
    requires RoutedAt(r, was, [c] + rest, c.source) && !Routed(was, c) && c !in rest
    ensures c.source in r
    ensures Retain(r[c.source], TargetOf(c)) == TargetsAt(was, c.source) + TargetsOf(rest, c.source)
  {
    assert ([c] + rest)[1..] == rest;
    InTargetsOf(rest, c);
    RetainSplit(TargetsAt(was, c.source), TargetsOf(rest, c.source), TargetOf(c));
  }

  lemma UnroutedAt(r: Routing, was: Routing, c: Connection, rest: seq<Connection>, source: string)
    requires RoutedAt(r, was, [c] + rest, source) && source != c.source
    ensures RoutedAt(Unroute(r, c), was, rest, source)
  {
    assert ([c] + rest)[1..] == rest;
  }

  /** The old table without the sources that the connections take with them. */
  function Cleaned(was: Routing, cs: seq<Connection>): Routing {
    map source | source in was && (was[source] != [] || forall k | 0 <= k < |cs| :: cs[k].source != source) ::
      was[source]
  }

  lemma CleanedIff(was: Routing, cs: seq<Connection>)
    ensures Cleaned(was, cs) == was <==> forall k | 0 <= k < |cs| :: NoEmptyList(was, cs[k])
  {
    if k :| 0 <= k < |cs| && !NoEmptyList(was, cs[k]) { assert cs[k].source !in Cleaned(was, cs); }
  }

  /** Removing the first added connection leaves the table as if it had never been added, except
      that a source listed without targets is gone. */
  lemma UnroutedFirst(r: Routing, was: Routing, c: Connection, rest: seq<Connection>)
    requires RoutedAfter(r, was, [c] + rest) && !Routed(was, c) && c !in rest
    ensures RoutedAfter(Unroute(r, c), Cleaned(was, [c]), rest)
  {
    assert RoutedAt(r, was, [c] + rest, c.source);
    UnroutedList(r, was, c, rest);
    forall source ensures RoutedAt(Unroute(r, c), Cleaned(was, [c]), rest, source) {
      assert RoutedAt(r, was, [c] + rest, source);
      if source != c.source { UnroutedAt(r, was, c, rest, source); }
    }
  }

  lemma CleanedTwice(was: Routing, cs: seq<Connection>, c: Connection)
    ensures Cleaned(Cleaned(was, cs), [c]) == Cleaned(was, cs + [c])
    ensures !Routed(was, c) ==> !Routed(Cleaned(was, cs), c)
  {
    assert (cs + [c])[|cs|] == c;
    assert forall k | 0 <= k < |cs| :: (cs + [c])[k] == cs[k];
    assert [c][0] == c;
  }

  /** Removing a connection just added restores the table, unless its source was listed without
      targets before. */
  lemma UnrouteUndoesAddIff(r: Routing, c: Connection)
    requires !Routed(r, c)
    ensures Unroute(AddRoute(r, c), c) == r <==> NoEmptyList(r, c)
  {
    RetainSplit(TargetsAt(r, c.source), [], TargetOf(c));
    assert [TargetOf(c)] + [] == [TargetOf(c)] && TargetsAt(r, c.source) + [] == TargetsAt(r, c.source);
  }

  /** A source listed without targets is gone once a connection from it was added and removed. */
  lemma EmptyListIsLost(c: Connection)
    ensures Unroute(AddRoute(map[c.source := []], c), c) == map[]
  {
    var r: Routing := map[c.source := []];
    RetainSplit([], [], TargetOf(c));
    assert [] + ([TargetOf(c)] + []) == [TargetOf(c)] == TargetsAt(r, c.source) + [TargetOf(c)];
  }

  // ---------------------------------------------------------------- the preset's spec

  /** `remove_connection` of a spec: the first equal connection goes. */
  function RemoveFirst(cs: seq<Connection>, c: Connection): seq<Connection> {
    if cs == [] then [] else if cs[0] == c then cs[1..] else [cs[0]] + RemoveFirst(cs[1..], c)
  }

  lemma {:induction false} RemoveFirstBehind(a: seq<Connection>, c: Connection, rest: seq<Connection>)
    requires c !in a
    ensures RemoveFirst(a + ([c] + rest), c) == a + rest
  {
    if a == [] {
      assert a + ([c] + rest) == [c] + rest;
    } else {
      RemoveFirstBehind(a[1..], c, rest);
      assert (a + ([c] + rest))[1..] == a[1..] + ([c] + rest);
    }
  }

  lemma {:induction false} RemoveFirstAbsent(cs: seq<Connection>, c: Connection)
    requires c !in cs
    ensures RemoveFirst(cs, c) == cs
  {
    if cs != [] { RemoveFirstAbsent(cs[1..], c); }
  }

  lemma {:induction false} RemoveFirstInFront(a: seq<Connection>, c: Connection, b: seq<Connection>)
    requires c in a
    ensures RemoveFirst(a + b, c) == RemoveFirst(a, c) + b
  {
    if a[0] == c {
      assert (a + b)[1..] == a[1..] + b;
    } else {
      assert a == [a[0]] + a[1..] && (a + b)[1..] == a[1..] + b;
      RemoveFirstInFront(a[1..], c, b);
    }
  }

  lemma {:induction false} RemoveFirstKeepsOthers(cs: seq<Connection>, c: Connection, d: Connection)
    requires c != d
    ensures d in RemoveFirst(cs, c) <==> d in cs
  {
    if cs != [] {
      assert cs == [cs[0]] + cs[1..];
      RemoveFirstKeepsOthers(cs[1..], c, d);
    }
  }

  lemma {:induction false} RemoveFirstTakesOne(cs: seq<Connection>, c: Connection)
    ensures multiset(RemoveFirst(cs, c)) == multiset(cs) - multiset{c}
  {
    if cs != [] {
      assert cs == [cs[0]] + cs[1..];
      if cs[0] != c { RemoveFirstTakesOne(cs[1..], c); }
    }
  }

  /** Each of the connections removed once, in turn. */
  function Stripped(spec: seq<Connection>, cs: seq<Connection>): seq<Connection> {
    if cs == [] then spec else RemoveFirst(Stripped(spec, cs[..|cs| - 1]), cs[|cs| - 1])
  }

  /** Those of the connections that the spec lists, in order. */
  function Listed(cs: seq<Connection>, spec: seq<Connection>): seq<Connection> {
    if cs == [] then []
    else Listed(cs[..|cs| - 1], spec) + if cs[|cs| - 1] in spec then [cs[|cs| - 1]] else []
  }

  lemma StrippedSnoc(spec: seq<Connection>, cs: seq<Connection>, c: Connection)
    ensures Stripped(spec, cs + [c]) == RemoveFirst(Stripped(spec, cs), c)
  {
    assert (cs + [c])[..|cs|] == cs;
  }

  lemma {:induction false} StrippedKeepsOthers(spec: seq<Connection>, cs: seq<Connection>, d: Connection)
    requires d !in cs
    ensures d in Stripped(spec, cs) <==> d in spec
  {
    if cs != [] {
      StrippedKeepsOthers(spec, cs[..|cs| - 1], d);
      RemoveFirstKeepsOthers(Stripped(spec, cs[..|cs| - 1]), cs[|cs| - 1], d);
    }
  }

  lemma {:induction false} ListedAreSome(cs: seq<Connection>, spec: seq<Connection>, d: Connection)
    ensures d in Listed(cs, spec) <==> d in cs && d in spec
  {
    if cs != [] {
      ListedAreSome(cs[..|cs| - 1], spec, d);
      assert cs == cs[..|cs| - 1] + [cs[|cs| - 1]];
    }
  }

  /** Removing connections that were just added takes the spec's own ones first: those that it
      lists already end up behind the others. */
  lemma {:induction false} StrippedAdded(spec: seq<Connection>, cs: seq<Connection>, rest: seq<Connection>)
    requires Distinct(cs + rest)
    ensures Stripped(spec + (cs + rest), cs) == Stripped(spec, cs) + (Listed(cs, spec) + rest)
  {
    if cs == [] {
      assert cs + rest == rest && [] + rest == rest;
    } else {
      var before, c := cs[..|cs| - 1], cs[|cs| - 1];
      assert before + ([c] + rest) == cs + rest;
      StrippedAdded(spec, before, [c] + rest);
      assert c !in before by {
        assert forall i | 0 <= i < |before| :: before[i] == (cs + rest)[i] && c == (cs + rest)[|before|];
      }
      StrippedKeepsOthers(spec, before, c);
      StripOne(Stripped(spec, before), Listed(before, spec), c, rest, c in spec) by { ListedAreSome(before, spec, c); }
    }
  }

  lemma StripOne(front: seq<Connection>, listed: seq<Connection>, c: Connection, rest: seq<Connection>, inFront: bool)
    requires c !in listed && (inFront <==> c in front)
    ensures RemoveFirst(front + (listed + ([c] + rest)), c) ==
      RemoveFirst(front, c) + ((listed + if inFront then [c] else []) + rest)
  {
    if inFront {
      RemoveFirstInFront(front, c, listed + ([c] + rest));
      Associate(listed, [c], rest);
    } else {
      RemoveFirstAbsent(front, c);
      Associate(front, listed, [c] + rest);
      RemoveFirstBehind(front + listed, c, rest);
      Associate(front, listed, rest);
      assert listed + [] == listed;
    }
  }

  lemma {:induction false} StrippedTakesOnce(spec: seq<Connection>, cs: seq<Connection>)
    ensures multiset(Stripped(spec, cs)) == multiset(spec) - multiset(cs)
  {
    if cs != [] {
      var before, c := cs[..|cs| - 1], cs[|cs| - 1];
      StrippedTakesOnce(spec, before);
      RemoveFirstTakesOne(Stripped(spec, before), c);
      assert cs == before + [c];
      LessOneMore(multiset(spec), multiset(before), c);
    }
  }

  lemma LessOneMore(all: multiset<Connection>, taken: multiset<Connection>, c: Connection)
    ensures all - taken - multiset{c} == all - (taken + multiset{c})
  {}

  /** The spec lists its own copies of the connections where adding and removing them leaves
      them: at its end, in their order. */
  predicate ListedLast(spec: seq<Connection>, cs: seq<Connection>) { Stripped(spec, cs) + Listed(cs, spec) == spec }

  /** Adding connections to a spec and removing them again never loses one. It restores the spec
      exactly if the ones it listed already are its last. */
  lemma StripUndoesAddIff(spec: seq<Connection>, cs: seq<Connection>)
    requires Distinct(cs)
    ensures multiset(Stripped(spec + cs, cs)) == multiset(spec)
    ensures Stripped(spec + cs, cs) == spec <==> ListedLast(spec, cs)
  {
    StrippedTakesOnce(spec + cs, cs);
    assert cs + [] == cs && Listed(cs, spec) + [] == Listed(cs, spec);
    StrippedAdded(spec, cs, []);
  }

  /** A spec that lists a connection before another one gets the two back the other way round. */
  lemma ListedConnectionMovesBack(c: Connection, d: Connection)
    requires c != d
    ensures Stripped([c, d] + [c], [c]) == [d, c]
  {
    assert [c][..0] == [] && ([c, d] + [c])[1..] == [d, c];
  }

  lemma {:induction false} NoneListed(spec: seq<Connection>, cs: seq<Connection>)
    requires forall k | 0 <= k < |cs| :: cs[k] !in spec
    ensures ListedLast(spec, cs)
  {
    if cs != [] {
      var before := cs[..|cs| - 1];
      NoneListed(spec, before);
      ListedAreNone(before, spec);
      assert Stripped(spec, before) == Stripped(spec, before) + [];
      RemoveFirstAbsent(spec, cs[|cs| - 1]);
      ListedAreNone(cs, spec);
    }
  }

  lemma {:induction false} ListedAreNone(cs: seq<Connection>, spec: seq<Connection>)
    requires forall k | 0 <= k < |cs| :: cs[k] !in spec
    ensures Listed(cs, spec) == []
  {
    if cs != [] { ListedAreNone(cs[..|cs| - 1], spec); }
  }

  lemma {:induction false} StripsTail(front: seq<Connection>, cs: seq<Connection>, spec: seq<Connection>,
                                      rest: seq<Connection>)
    requires Distinct(cs) && (forall c | c in cs :: c !in front) && (forall c | c in cs && c !in spec :: c !in rest)
    ensures Stripped(front + (Listed(cs, spec) + rest), cs) == front + rest
  {
    if cs == [] {
      assert [] + rest == rest;
    } else {
      var before, c := cs[..|cs| - 1], cs[|cs| - 1];
      assert c in cs && c !in before;
      if c in spec {
        StripsTail(front, before, spec, [c] + rest);
        assert Listed(cs, spec) + rest == Listed(before, spec) + ([c] + rest);
        RemoveFirstBehind(front, c, rest);
      } else {
        StripsTail(front, before, spec, rest);
        assert Listed(cs, spec) == Listed(before, spec);
        RemoveFirstAbsent(front + rest, c);
      }
    }
  }

  predicate EndsWith(spec: seq<Connection>, tail: seq<Connection>) {
    |tail| <= |spec| && spec[|spec| - |tail|..] == tail
  }

  lemma NotInFront(front: seq<Connection>, tail: seq<Connection>, c: Connection)
    requires Distinct(front + tail) && c in tail
    ensures c !in front
  {
    var j :| 0 <= j < |tail| && tail[j] == c;
    forall i | 0 <= i < |front| ensures front[i] != c {
      assert (front + tail)[i] == front[i] && (front + tail)[|front| + j] == c;
    }
  }

  /** In a spec without repetitions: the connections it lists already are its last, in order. */
  lemma ListedLastIff(spec: seq<Connection>, cs: seq<Connection>)
    requires Distinct(cs) && Distinct(spec)
    ensures ListedLast(spec, cs) <==> EndsWith(spec, Listed(cs, spec))
  {
    var listed := Listed(cs, spec);
    if EndsWith(spec, listed) {
      var front := spec[..|spec| - |listed|];
      assert spec == front + listed && listed + [] == listed && front + [] == front;
      forall c | c in cs ensures c !in front {
        ListedAreSome(cs, spec, c);
        if c in listed { NotInFront(front, listed, c); }
      }
      StripsTail(front, cs, spec, []);
    }
  }

  /** `remove_agent` of a spec: every agent with that id goes. */
  function RemoveAgents(agents: seq<AgentSpec>, id: string): seq<AgentSpec> {
    if agents == [] then [] else (if agents[0].id == id then [] else [agents[0]]) + RemoveAgents(agents[1..], id)
  }

  predicate NoAgent(agents: seq<AgentSpec>, id: string) { forall i | 0 <= i < |agents| :: agents[i].id != id }

  lemma {:induction false} RemoveAbsentAgent(agents: seq<AgentSpec>, id: string)
    requires NoAgent(agents, id)
    ensures RemoveAgents(agents, id) == agents
  {
    if agents != [] {
      RemoveAbsentAgent(agents[1..], id);
    }
  }

  lemma RemoveAgentsCons(agents: seq<AgentSpec>, x: AgentSpec, rest: seq<AgentSpec>, id: string)
    requires agents == [x] + rest
    ensures RemoveAgents(agents, id) == (if x.id == id then [] else [x]) + RemoveAgents(rest, id)
  {
    assert agents[1..] == rest;
  }

  lemma {:induction false} RemoveAgentBehind(a: seq<AgentSpec>, x: AgentSpec, rest: seq<AgentSpec>)
    requires NoAgent(rest, x.id)
    ensures RemoveAgents(a + ([x] + rest), x.id) == RemoveAgents(a, x.id) + rest
  {
    var tail := [x] + rest;
    if a == [] {
      RemoveAbsentAgent(rest, x.id);
      RemoveAgentsCons(tail, x, rest, x.id);
      assert a + tail == tail && [] + rest == rest;
    } else {
      RemoveAgentBehind(a[1..], x, rest);
      RemoveAgentsCons(a + tail, a[0], a[1..] + tail, x.id);
      Associate(if a[0].id == x.id then [] else [a[0]], RemoveAgents(a[1..], x.id), rest);
    }
  }

  lemma {:induction false} RemoveAgentsShrinksIff(agents: seq<AgentSpec>, id: string)
    ensures |RemoveAgents(agents, id)| <= |agents|
    ensures |RemoveAgents(agents, id)| == |agents| <==> NoAgent(agents, id)
  {
    if agents != [] {
      RemoveAgentsShrinksIff(agents[1..], id);
      assert NoAgent(agents, id) <==> agents[0].id != id && NoAgent(agents[1..], id) by {
        assert forall i | 0 < i < |agents| :: agents[i] == agents[1..][i - 1];
      }
    }
  }

  /** The spec without any agent that has an id of the batch. */
  function Purged(spec: seq<AgentSpec>, batch: seq<AgentSpec>): seq<AgentSpec> {
    if batch == [] then spec else RemoveAgents(Purged(spec, batch[..|batch| - 1]), batch[|batch| - 1].id)
  }

  predicate NoneOf(spec: seq<AgentSpec>, batch: seq<AgentSpec>) {
    forall i | 0 <= i < |batch| :: NoAgent(spec, batch[i].id)
  }

  lemma {:induction false} PurgedIff(spec: seq<AgentSpec>, batch: seq<AgentSpec>)
    ensures |Purged(spec, batch)| <= |spec|
    ensures |Purged(spec, batch)| == |spec| ==> NoneOf(spec, batch)
    ensures NoneOf(spec, batch) ==> Purged(spec, batch) == spec
  {
    if batch != [] {
      var before, id := batch[..|batch| - 1], batch[|batch| - 1].id;
      PurgedIff(spec, before);
      RemoveAgentsShrinksIff(Purged(spec, before), id);
      if NoAgent(spec, id) { RemoveAbsentAgent(spec, id); }
      assert NoneOf(spec, batch) <==> NoneOf(spec, before) && NoAgent(spec, id);
    }
  }

  /** `position` of the first connection equal to c. */
  lemma {:induction false} RemoveAtPosition(cs: seq<Connection>, c: Connection, i: nat)
    requires i < |cs| && cs[i] == c && c !in cs[..i]
    ensures RemoveFirst(cs, c) == cs[..i] + cs[i + 1..]
  {
    RemoveFirstBehind(cs[..i], c, cs[i + 1..]);
    assert cs == cs[..i] + ([c] + cs[i + 1..]);
  }

  lemma RemoveAgentsStep(agents: seq<AgentSpec>, id: string, i: nat, kept: seq<AgentSpec>)
    requires i < |agents|
    ensures kept + RemoveAgents(agents[i..], id) ==
      (if agents[i].id == id then kept else kept + [agents[i]]) + RemoveAgents(agents[i + 1..], id)
  {
    assert agents[i..][1..] == agents[i + 1..];
  }

  /** The spec of a preset, updated in place. */
  class Preset {
    var agents: seq<AgentSpec>
    var connections: seq<Connection>

    method AddAgent(agent: AgentSpec)
      modifies this`agents
      ensures agents == old(agents) + [agent]
    {
      agents := agents + [agent];
    }

    method RemoveAgent(id: string)
      modifies this`agents
      ensures agents == RemoveAgents(old(agents), id)
    {
      var i, kept := 0, [];
      assert agents[0..] == agents;
      while i < |agents|
        invariant 0 <= i <= |agents|
        invariant agents == old(agents)
        invariant RemoveAgents(agents, id) == kept + RemoveAgents(agents[i..], id)
      {
        RemoveAgentsStep(agents, id, i, kept);
        if agents[i].id != id { kept := kept + [agents[i]]; }
        i := i + 1;
      }
      agents := kept;
    }

    method AddConnection(c: Connection)
      modifies this`connections
      ensures connections == old(connections) + [c]
    {
      connections := connections + [c];
    }

    method RemoveConnection(c: Connection) returns (found: bool)
      modifies this`connections
      ensures found <==> c in old(connections)
      ensures connections == RemoveFirst(old(connections), c)
    {
      var i := 0;
      while i < |connections| && connections[i] != c
        invariant 0 <= i <= |connections|
        invariant c !in connections[..i]
      {
        i := i + 1;
      }
      if i == |connections| {
        assert connections[..i] == connections;
        RemoveFirstAbsent(connections, c);
        return false;
      }
      RemoveAtPosition(connections, c, i);
      connections := connections[..i] + connections[i + 1..];
      found := true;
    }
  }

  // ---------------------------------------------------------------- the agents map

  type Instances = map<string, Instance>

  /** m is `was` with an instance for each of the specs. */
  predicate InstanceAt(m: Instances, was: Instances, presetId: string, specs: seq<AgentSpec>, id: string) {
    if NoAgent(specs, id) then
      (id in m <==> id in was) && (id in m ==> m[id] == was[id])
    else
      id in m && m[id].presetId == presetId && m[id].spec in specs && m[id].spec.id == id
  }

  ghost predicate InstancesAfter(m: Instances, was: Instances, presetId: string, specs: seq<AgentSpec>) {
    forall id :: InstanceAt(m, was, presetId, specs, id)
  }

  lemma AddedInstance(m: Instances, was: Instances, presetId: string, specs: seq<AgentSpec>, x: AgentSpec)
    requires InstancesAfter(m, was, presetId, specs)
    ensures InstancesAfter(m[x.id := Instance(presetId, x)], was, presetId, specs + [x])
  {
    var added := m[x.id := Instance(presetId, x)];
    forall id ensures InstanceAt(added, was, presetId, specs + [x], id) {
      assert InstanceAt(m, was, presetId, specs, id);
      assert (specs + [x])[|specs|] == x;
      if id != x.id && !NoAgent(specs, id) {
        var i :| 0 <= i < |specs| && specs[i].id == id;
        assert (specs + [x])[i].id == id;
      }
    }
  }

  lemma AgentsOfOneMore(x: AgentSpec, rest: seq<AgentSpec>, id: string)
    ensures NoAgent([x] + rest, id) <==> x.id != id && NoAgent(rest, id)
    ensures forall y :: y in [x] + rest <==> y == x || y in rest
  {
    assert ([x] + rest)[0] == x;
    assert forall i | 0 <= i < |rest| :: ([x] + rest)[i + 1] == rest[i];
  }

  lemma RemovedInstance(m: Instances, was: Instances, presetId: string, x: AgentSpec, rest: seq<AgentSpec>)
    requires InstancesAfter(m, was, presetId, [x] + rest) && x.id !in was && NoAgent(rest, x.id)
    ensures InstancesAfter(m - {x.id}, was, presetId, rest)
  {
    forall id ensures InstanceAt(m - {x.id}, was, presetId, rest, id) {
      assert InstanceAt(m, was, presetId, [x] + rest, id);
      AgentsOfOneMore(x, rest, id);
    }
  }

  lemma NoInstances(m: Instances, was: Instances, presetId: string)
    ensures InstancesAfter(m, was, presetId, []) <==> m == was
  {
    if InstancesAfter(m, was, presetId, []) {
      forall id ensures (id in m <==> id in was) && (id in m ==> m[id] == was[id]) {
        assert InstanceAt(m, was, presetId, [], id);
      }
    }
  }

  /** The first failure of the agents of a batch, in their order. `built[i]` is the outcome of
      constructing agent i: what its constructor makes of the spec, or none if there is no
      definition for it. */
  function FirstAgentError(was: Instances, agents: seq<AgentSpec>, built: seq<Option<string>>): Option<Error>
    requires |agents| == |built|
  {
    if agents == [] then None
    else if agents[0].id in was then Some(AgentAlreadyExists(agents[0].id))
    else if built[0].None? then Some(AgentDefinitionNotFound)
    else FirstAgentError(was, agents[1..], built[1..])
  }

  /** How many agents of a batch are added before the first failure. */
  function AgentsAdded(was: Instances, agents: seq<AgentSpec>, built: seq<Option<string>>): (n: nat)
    requires |agents| == |built|
    ensures n <= |agents|
    ensures n == |agents| <==> FirstAgentError(was, agents, built).None?
  {
    if agents == [] || agents[0].id in was || built[0].None? then 0 else 1 + AgentsAdded(was, agents[1..], built[1..])
  }

  /** How many connections of a batch are added before the first that clashes. */
  function ConnectionsAdded(was: Routing, cs: seq<Connection>): (n: nat)
    ensures n <= |cs| && NoClash(was, cs[..n])
    ensures n < |cs| ==> !NoClash(was, cs[..n + 1])
  {
    if NoClash(was, cs) then assert cs[..|cs|] == cs; |cs|
    else
      var n := ConnectionsAdded(was, cs[..|cs| - 1]);
      FrontSlices(cs, n);
      n
  }

  lemma FrontSlices(cs: seq<Connection>, n: nat)
    requires n < |cs|
    ensures cs[..|cs| - 1][..n] == cs[..n]
    ensures if n < |cs| - 1 then cs[..|cs| - 1][..n + 1] == cs[..n + 1] else cs[..n + 1] == cs
  {}

  lemma NoClashPrefix(was: Routing, cs: seq<Connection>, m: nat, n: nat)
    requires m <= n <= |cs|
    ensures NoClash(was, cs[..n]) ==> NoClash(was, cs[..m])
  {
    assert cs[..m] == cs[..n][..m];
  }

  lemma StopsAtClash(was: Routing, cs: seq<Connection>, n: nat)
    requires n <= |cs| && NoClash(was, cs[..n]) && (n < |cs| ==> !NoClash(was, cs[..n + 1]))
    ensures n == ConnectionsAdded(was, cs)
  {
    var m := ConnectionsAdded(was, cs);
    if m < n { NoClashPrefix(was, cs, m + 1, n); }
    if n < m { NoClashPrefix(was, cs, n + 1, m); }
  }

  /** The state before the batch lets these additions be undone: no agent of the spec has one of
      the new ids, no source of the connections is listed without targets, and those that the
      spec lists already are its last. */
  predicate Restorable(routing: Routing, specAgents: seq<AgentSpec>, specConnections: seq<Connection>,
                       agents: seq<AgentSpec>, cs: seq<Connection>)
  {
    && NoneOf(specAgents, agents)
    && (forall k | 0 <= k < |cs| :: NoEmptyList(routing, cs[k]))
    && ListedLast(specConnections, cs)
  }

  /** What a failing batch has added when it fails can be undone. */
  predicate Undoable(was: Instances, routing: Routing, specAgents: seq<AgentSpec>, specConnections: seq<Connection>,
                     agents: seq<AgentSpec>, cs: seq<Connection>, built: seq<Option<string>>)
    requires |agents| == |built|
  {
    var n := AgentsAdded(was, agents, built);
    var k := if n < |agents| then 0 else ConnectionsAdded(routing, cs);
    Restorable(routing, specAgents, specConnections, agents[..n], cs[..k])
  }

  /** No connection starts at this id. */
  predicate NoSource(routing: Routing, specConnections: seq<Connection>, id: string) {
    id !in routing && forall k | 0 <= k < |specConnections| :: specConnections[k].source != id
  }

  /** Nothing refers to this id yet. */
  predicate Unused(agents: Instances, routing: Routing, specAgents: seq<AgentSpec>, specConnections: seq<Connection>,
                   id: string) {
    id !in agents && NoAgent(specAgents, id) && NoSource(routing, specConnections, id)
  }

  predicate AllUnused(agents: Instances, routing: Routing, specAgents: seq<AgentSpec>, specConnections: seq<Connection>,
                      ids: seq<string>)
  {
    forall i | 0 <= i < |ids| :: Unused(agents, routing, specAgents, specConnections, ids[i])
  }

  /** None of the ids that a counter hands out from here on is used yet. */
  ghost predicate FutureUnused(agents: Instances, routing: Routing, specAgents: seq<AgentSpec>,
                               specConnections: seq<Connection>,
                               from: nat)
  {
    forall k: nat | k >= from :: Unused(agents, routing, specAgents, specConnections, Decimal.ToString(k))
  }

  predicate AllBuilt(built: seq<Option<string>>) { forall i | 0 <= i < |built| :: built[i].Some? }

  lemma {:induction false} NoAgentError(was: Instances, agents: seq<AgentSpec>, built: seq<Option<string>>)
    requires |agents| == |built| && forall i | 0 <= i < |agents| :: agents[i].id !in was
    ensures FirstAgentError(was, agents, built).None? <==> AllBuilt(built)
  {
    if agents != [] {
      NoAgentError(was, agents[1..], built[1..]);
      assert AllBuilt(built) <==> built[0].Some? && AllBuilt(built[1..]) by {
        assert forall i | 0 < i < |built| :: built[i] == built[1..][i - 1];
      }
    }
  }

  /** Renaming a batch keeps different connections different. */
  lemma {:induction false} RenamingIsInjective(batch: seq<AgentSpec>, ids: seq<string>, c: Connection, d: Connection)
    requires |ids| == |batch| && DistinctIds(batch)
    requires forall i, j | 0 <= i < j < |ids| :: ids[i] != ids[j]
    requires Inside(batch, c.source) && Inside(batch, c.target) && Inside(batch, d.source) && Inside(batch, d.target)
    ensures RenameConnection(IdMap(batch, ids), c) == RenameConnection(IdMap(batch, ids), d) <==> c == d
  {
    var i := RenameByPosition(batch, ids, c.source);
    var j := RenameByPosition(batch, ids, c.target);
    var i' := RenameByPosition(batch, ids, d.source);
    var j' := RenameByPosition(batch, ids, d.target);
  }

  /** The renamed connections of a batch start at its new ids. */
  lemma FreshConnections(routing: Routing, specConnections: seq<Connection>, batch: seq<AgentSpec>, cs: seq<Connection>,
                         ids: seq<string>)
    requires |ids| == |batch| && DistinctIds(batch) && EndpointsInside(batch, cs)
    requires forall i, j | 0 <= i < j < |ids| :: ids[i] != ids[j]
    requires forall i | 0 <= i < |ids| :: NoSource(routing, specConnections, ids[i])
    ensures var added := RenamedConnections(batch, ids, cs);
      && (forall k | 0 <= k < |cs| :: added[k].source !in routing && added[k] !in specConnections)
      && (NoClash(routing, added) <==> Distinct(cs))
  {
    var added := RenamedConnections(batch, ids, cs);
    forall k | 0 <= k < |cs| ensures added[k].source !in routing && added[k] !in specConnections {
      var i := RenameByPosition(batch, ids, cs[k].source);
      assert NoSource(routing, specConnections, ids[i]);
    }
    forall j, k | 0 <= j < k < |cs| ensures added[j] == added[k] <==> cs[j] == cs[k] {
      RenamingIsInjective(batch, ids, cs[j], cs[k]);
    }
  }

  /** A batch with its own endpoints and unused new ids can always be undone, and fails only on
      an agent that cannot be constructed or a connection that it repeats itself. */
  lemma FreshBatch(was: Instances, routing: Routing, specAgents: seq<AgentSpec>, specConnections: seq<Connection>,
                   batch: seq<AgentSpec>, cs: seq<Connection>, ids: seq<string>, built: seq<Option<string>>)
    requires |ids| == |batch| == |built| && DistinctIds(batch) && EndpointsInside(batch, cs)
    requires forall i, j | 0 <= i < j < |ids| :: ids[i] != ids[j]
    requires AllUnused(was, routing, specAgents, specConnections, ids)
    ensures Undoable(was, routing, specAgents, specConnections,
                     RenamedAgents(batch, ids), RenamedConnections(batch, ids, cs), built)
    ensures FirstAgentError(was, RenamedAgents(batch, ids), built).None? <==> AllBuilt(built)
    ensures NoClash(routing, RenamedConnections(batch, ids, cs)) <==> Distinct(cs)
  {
    var agents, added := RenamedAgents(batch, ids), RenamedConnections(batch, ids, cs);
    forall i | 0 <= i < |ids|
      ensures agents[i].id !in was && NoAgent(specAgents, ids[i]) && NoSource(routing, specConnections, ids[i])
    {
      assert Unused(was, routing, specAgents, specConnections, ids[i]);
    }
    NoAgentError(was, agents, built);
    FreshConnections(routing, specConnections, batch, cs, ids);
    FreshIsRestorable(routing, specAgents, specConnections, agents, added,
                      AgentsAdded(was, agents, built), ConnectionsAdded(routing, added));
    FreshIsRestorable(routing, specAgents, specConnections, agents, added, AgentsAdded(was, agents, built), 0);
  }

  lemma FreshIsRestorable(routing: Routing, specAgents: seq<AgentSpec>, specConnections: seq<Connection>,
                          agents: seq<AgentSpec>, cs: seq<Connection>, n: nat, k: nat)
    requires n <= |agents| && k <= |cs| && NoneOf(specAgents, agents)
    requires forall j | 0 <= j < |cs| :: cs[j].source !in routing && cs[j] !in specConnections
    ensures Restorable(routing, specAgents, specConnections, agents[..n], cs[..k])
  {
    NoneListed(specConnections, cs[..k]);
  }

  /** Those inputs whose agent exists. */
  function Existing(inputs: seq<(string, string)>, agents: set<string>): seq<(string, string)> {
    if inputs == [] then [] else (if inputs[0].0 in agents then [inputs[0]] else []) + Existing(inputs[1..], agents)
  }

  lemma {:induction false} ExistingIff(inputs: seq<(string, string)>, agents: set<string>)
    ensures forall input :: input in Existing(inputs, agents) <==> input in inputs && input.0 in agents
    ensures (forall input | input in inputs :: input.0 in agents) ==> Existing(inputs, agents) == inputs
  {
    if inputs != [] {
      ExistingIff(inputs[1..], agents);
      assert inputs == [inputs[0]] + inputs[1..];
    }
  }

  lemma ReceiversStep(t: Target, rest: seq<Target>, all: seq<Target>, port: string, agents: set<string>)
    requires all == [t] + rest
    ensures Existing(Receivers(all, port), agents) ==
      (if t.sourceHandle == port && t.agent in agents then [(t.agent, t.targetHandle)] else [])
      + Existing(Receivers(rest, port), agents)
  {
    assert all[1..] == rest;
    if t.sourceHandle == port {
      var input := (t.agent, t.targetHandle);
      assert Receivers(all, port) == [input] + Receivers(rest, port);
      assert ([input] + Receivers(rest, port))[1..] == Receivers(rest, port);
    } else {
      assert Receivers(all, port) == Receivers(rest, port);
    }
  }

  /** The agents of the copy have these ids, and its connections connect them. */
  predicate CopyHasIds(copy: (seq<AgentSpec>, seq<Connection>), ids: seq<string>) {
    && |copy.0| == |ids| && EndpointsInside(copy.0, copy.1)
    && forall i | 0 <= i < |ids| :: copy.0[i].id == ids[i]
  }

  class Runtime {
    var agents: Instances
    var routing: Routing
    var presets: map<string, Preset>
    var nextId: nat

    /** `update_ids`. Other tasks may take ids from the counter in between. */
    method UpdateIds(batch: seq<AgentSpec>, cs: seq<Connection>)
      returns (newAgents: seq<AgentSpec>, newConnections: seq<Connection>, ghost ids: seq<string>)
      modifies this`nextId
      ensures |ids| == |batch| && FreshIds(ids, old(nextId), nextId)
      ensures newAgents == RenamedAgents(batch, ids)
      ensures newConnections == RenamedConnections(batch, ids, cs)
    {
      newAgents, ids := [], [];
      var idMap: map<string, string> := map[];
      var i := 0;
      while i < |batch|
        invariant 0 <= i <= |batch| && |ids| == i && FreshIds(ids, old(nextId), nextId)
        invariant newAgents == RenamedAgents(batch[..i], ids)
        invariant idMap == IdMap(batch[..i], ids)
      {
        var n: nat :| nextId <= n;
        var id := Decimal.ToString(n);
        NewIdIsFresh(ids, old(nextId), nextId, n);
        nextId := n + 1;
        RenamedSnoc(batch[..i], ids, batch[i], id);
        assert batch[..i + 1] == batch[..i] + [batch[i]];
        idMap := idMap[batch[i].id := id];
        newAgents := newAgents + [batch[i].(id := id)];
        ids := ids + [id];
        i := i + 1;
      }
      assert batch[..i] == batch;
      newConnections := RenameAll(idMap, cs);
    }

    static method RenameAll(idMap: map<string, string>, cs: seq<Connection>) returns (renamed: seq<Connection>)
      ensures renamed == seq(|cs|, i requires 0 <= i < |cs| => RenameConnection(idMap, cs[i]))
    {
      renamed := [];
      var i := 0;
      while i < |cs|
        invariant 0 <= i <= |cs|
        invariant renamed == seq(i, j requires 0 <= j < i => RenameConnection(idMap, cs[j]))
      {
        renamed := renamed + [RenameConnection(idMap, cs[i])];
        i := i + 1;
      }
    }

    method AddAgentInternal(presetId: string, spec: AgentSpec, built: Option<string>)
      returns (r: Result<AgentSpec, Error>)
      modifies this`agents
      ensures r ==
        if spec.id in old(agents) then Err(AgentAlreadyExists(spec.id))
        else if built.None? then Err(AgentDefinitionNotFound)
        else Ok(spec.(body := built.value))
      ensures agents == if r.Ok? then old(agents)[spec.id := Instance(presetId, r.value)] else old(agents)
    {
      if spec.id in agents { return Err(AgentAlreadyExists(spec.id)); }
      if built.None? { return Err(AgentDefinitionNotFound); }
      var constructed := spec.(body := built.value);
      agents := agents[spec.id := Instance(presetId, constructed)];
      r := Ok(constructed);
    }

    method AddConnectionInternal(c: Connection) returns (ok: bool)
      modifies this`routing
      ensures ok <==> !Routed(old(routing), c)
      ensures routing == if ok then AddRoute(old(routing), c) else old(routing)
      ensures var entry := Target(c.target, c.sourceHandle, c.targetHandle);
        var listed := if c.source in old(routing) then old(routing)[c.source] else [];
        && (ok <==> entry !in listed)
        && routing == if ok then old(routing)[c.source := listed + [entry]] else old(routing)
    {
      if c.source in routing {
        if TargetOf(c) in routing[c.source] { return false; }
        routing := routing[c.source := routing[c.source] + [TargetOf(c)]];
      } else {
        assert [] + [TargetOf(c)] == [TargetOf(c)];
        routing := routing[c.source := [TargetOf(c)]];
      }
      ok := true;
    }

    /** The routing of `agent_out`: the inputs a message on the port is sent to, in order, leaving
        out agents that do not exist. */
    method AgentOut(source: string, port: string) returns (inputs: seq<(string, string)>)
      ensures var receivers := Receivers(if source in routing then routing[source] else [], port);
        && (forall input :: input in inputs <==> input in receivers && input.0 in agents)
        && ((forall input | input in receivers :: input.0 in agents) ==> inputs == receivers)
    {
      if source !in routing { return []; }
      inputs := Inputs(routing[source], port, agents.Keys);
      ExistingIff(Receivers(routing[source], port), agents.Keys);
    }

    static method Inputs(targets: seq<Target>, port: string, agents: set<string>)
      returns (inputs: seq<(string, string)>)
      ensures inputs == Existing(Receivers(targets, port), agents)
    {
      inputs := [];
      var i := 0;
      assert targets[0..] == targets;
      while i < |targets|
        invariant 0 <= i <= |targets|
        invariant Existing(Receivers(targets, port), agents) == inputs + Existing(Receivers(targets[i..], port), agents)
      {
        var target := targets[i];
        ReceiversStep(target, targets[i + 1..], targets[i..], port, agents);
        var reached := target.sourceHandle == port && target.agent in agents;
        var sent := if reached then [(target.agent, target.targetHandle)] else [];
        Associate(inputs, sent, Existing(Receivers(targets[i + 1..], port), agents));
        inputs := inputs + sent;
        i := i + 1;
      }
      assert inputs + [] == inputs;
    }

    static method RetainOthers(targets: seq<Target>, t: Target) returns (kept: seq<Target>)
      ensures kept == Retain(targets, t)
    {
      kept := [];
      var rest := targets;
      assert kept + Retain(targets, t) == Retain(targets, t);
      while rest != []
        invariant Retain(targets, t) == kept + Retain(rest, t)
        decreases |rest|
      {
        var head := if rest[0] == t then [] else [rest[0]];
        Associate(kept, head, Retain(rest[1..], t));
        kept, rest := kept + head, rest[1..];
      }
      assert kept + [] == kept;
    }

    method RemoveConnectionInternal(c: Connection)
      modifies this`routing
      ensures routing == Unroute(old(routing), c)
      ensures c.source !in routing || Target(c.target, c.sourceHandle, c.targetHandle) !in routing[c.source]
      ensures forall source | source != c.source ::
        && (source in routing <==> source in old(routing))
        && (source in routing ==> routing[source] == old(routing)[source])
    {
      if c.source in routing {
        InRetain(routing[c.source], TargetOf(c), TargetOf(c));
        var targets := RetainOthers(routing[c.source], TargetOf(c));
        routing := if targets == [] then routing - {c.source} else routing[c.source := targets];
      }
    }

    /** The agents of a batch, up to the first that fails. */
    method AddAgents(presetId: string, preset: Preset, batch: seq<AgentSpec>, built: seq<Option<string>>)
      returns (constructed: seq<AgentSpec>, error: Option<Error>)
      requires |built| == |batch| && DistinctIds(batch)
      modifies this`agents, preset`agents
      ensures error == FirstAgentError(old(agents), batch, built)
      ensures |constructed| == AgentsAdded(old(agents), batch, built)
      ensures forall i | 0 <= i < |constructed| ::
        batch[i].id !in old(agents) && built[i].Some? && constructed[i] == batch[i].(body := built[i].value)
      ensures InstancesAfter(agents, old(agents), presetId, constructed)
      ensures preset.agents == old(preset.agents) + constructed
    {
      constructed, error := [], None;
      NoInstances(agents, agents, presetId);
      assert batch[0..] == batch && built[0..] == built;
      var added := 0;
      while added < |batch|
        invariant 0 <= added <= |batch| && |constructed| == added
        invariant forall i | 0 <= i < added ::
          batch[i].id !in old(agents) && built[i].Some? && constructed[i] == batch[i].(body := built[i].value)
        invariant FirstAgentError(old(agents), batch, built) ==
          FirstAgentError(old(agents), batch[added..], built[added..])
        invariant AgentsAdded(old(agents), batch, built) ==
          added + AgentsAdded(old(agents), batch[added..], built[added..])
        invariant InstancesAfter(agents, old(agents), presetId, constructed)
        invariant preset.agents == old(preset.agents) + constructed
      {
        assert batch[added..][1..] == batch[added + 1..] && built[added..][1..] == built[added + 1..];
        assert InstanceAt(agents, old(agents), presetId, constructed, batch[added].id);
        ghost var m := agents;
        var r := AddAgentInternal(presetId, batch[added], built[added]);
        match r
        case Err(e) =>
          return constructed, Some(e);
        case Ok(x) =>
          AddedInstance(m, old(agents), presetId, constructed, x);
          preset.AddAgent(x);
          constructed := constructed + [x];
          added := added + 1;
      }
    }

    /** The connections of a batch, up to the first that fails. */
    method AddConnections(preset: Preset, cs: seq<Connection>) returns (added: nat, ok: bool)
      modifies this`routing, preset`connections
      ensures ok <==> NoClash(old(routing), cs)
      ensures added == ConnectionsAdded(old(routing), cs)
      ensures RoutedAfter(routing, old(routing), cs[..added])
      ensures preset.connections == old(preset.connections) + cs[..added]
    {
      added := 0;
      NothingRouted(routing);
      while added < |cs|
        invariant added <= |cs|
        invariant NoClash(old(routing), cs[..added])
        invariant RoutedAfter(routing, old(routing), cs[..added])
        invariant preset.connections == old(preset.connections) + cs[..added]
      {
        var c := cs[added];
        RoutedAfterIff(routing, old(routing), cs[..added], c);
        AddedRoute(routing, old(routing), cs[..added], c);
        ok := AddConnectionInternal(c);
        if !ok {
          StopsAtClash(old(routing), cs, added);
          return;
        }
        preset.AddConnection(c);
        assert cs[..added + 1] == cs[..added] + [c];
        added := added + 1;
      }
      assert cs[..added] == cs;
      StopsAtClash(old(routing), cs, added);
      ok := true;
    }

    /** Undoes the connections that were added, in the order they were added. */
    method RollBackConnections(preset: Preset, cs: seq<Connection>, ghost wasRouting: Routing)
      requires NoClash(wasRouting, cs)
      requires RoutedAfter(routing, wasRouting, cs)
      modifies this`routing, preset`connections
      ensures routing == Cleaned(wasRouting, cs)
      ensures preset.connections == Stripped(old(preset.connections), cs)
    {
      var j := 0;
      assert cs[0..] == cs && Cleaned(wasRouting, []) == wasRouting;
      while j < |cs|
        invariant 0 <= j <= |cs|
        invariant RoutedAfter(routing, Cleaned(wasRouting, cs[..j]), cs[j..])
        invariant preset.connections == Stripped(old(preset.connections), cs[..j])
      {
        var c := cs[j];
        assert cs[j..] == [c] + cs[j + 1..] && cs[..j + 1] == cs[..j] + [c];
        UnroutedFirst(routing, Cleaned(wasRouting, cs[..j]), c, cs[j + 1..]);
        CleanedTwice(wasRouting, cs[..j], c);
        StrippedSnoc(old(preset.connections), cs[..j], c);
        var _ := preset.RemoveConnection(c);
        RemoveConnectionInternal(c);
        j := j + 1;
      }
      assert cs[..j] == cs && cs[j..] == [];
      RoutedNothingIsOld(routing, Cleaned(wasRouting, cs));
    }

    /** Undoes the agents that were added. */
    method RollBackAgents(presetId: string, preset: Preset, batch: seq<AgentSpec>,
                          ghost wasAgents: Instances, ghost was: seq<AgentSpec>, ghost constructed: seq<AgentSpec>)
      requires |batch| == |constructed| && DistinctIds(batch)
      requires forall i | 0 <= i < |batch| :: constructed[i].id == batch[i].id && batch[i].id !in wasAgents
      requires InstancesAfter(agents, wasAgents, presetId, constructed)
      requires preset.agents == was + constructed
      modifies this`agents, preset`agents
      ensures agents == wasAgents
      ensures preset.agents == Purged(was, batch)
    {
      var i := 0;
      assert constructed[0..] == constructed;
      while i < |batch|
        invariant 0 <= i <= |batch|
        invariant InstancesAfter(agents, wasAgents, presetId, constructed[i..])
        invariant preset.agents == Purged(was, batch[..i]) + constructed[i..]
      {
        ghost var x := constructed[i];
        assert constructed[i..] == [x] + constructed[i + 1..] && batch[..i + 1][..i] == batch[..i];
        RemoveAgentBehind(Purged(was, batch[..i]), x, constructed[i + 1..]);
        RemovedInstance(agents, wasAgents, presetId, x, constructed[i + 1..]);
        preset.RemoveAgent(batch[i].id);
        agents := agents - {batch[i].id};
        i := i + 1;
      }
      assert batch[..i] == batch && Purged(was, batch) + [] == Purged(was, batch);
      NoInstances(agents, wasAgents, presetId);
    }

    /** Undoes what a failed batch has added so far. The agents map is restored in any case, and
        the spec loses no connection; the rest is restored exactly if it was `Restorable`. */
    method RollBack(presetId: string, preset: Preset, newAgents: seq<AgentSpec>, addedAgents: nat,
                    newConnections: seq<Connection>, addedConnections: nat,
                    ghost wasAgents: Instances, ghost wasRouting: Routing, ghost wasSpec: seq<AgentSpec>,
                    ghost wasConnections: seq<Connection>, ghost constructed: seq<AgentSpec>)
      requires |constructed| == addedAgents <= |newAgents| && addedConnections <= |newConnections|
      requires DistinctIds(newAgents) && NoClash(wasRouting, newConnections[..addedConnections])
      requires forall i | 0 <= i < addedAgents :: constructed[i].id == newAgents[i].id && newAgents[i].id !in wasAgents
      requires InstancesAfter(agents, wasAgents, presetId, constructed)
      requires RoutedAfter(routing, wasRouting, newConnections[..addedConnections])
      requires preset.agents == wasSpec + constructed
      requires preset.connections == wasConnections + newConnections[..addedConnections]
      modifies this`agents, this`routing, preset
      ensures agents == wasAgents && multiset(preset.connections) == multiset(wasConnections)
      ensures (routing == wasRouting && preset.agents == wasSpec && preset.connections == wasConnections) <==>
        Restorable(wasRouting, wasSpec, wasConnections, newAgents[..addedAgents], newConnections[..addedConnections])
    {
      RollBackConnections(preset, newConnections[..addedConnections], wasRouting);
      RollBackAgents(presetId, preset, newAgents[..addedAgents], wasAgents, wasSpec, constructed);
      CleanedIff(wasRouting, newConnections[..addedConnections]);
      StripUndoesAddIff(wasConnections, newConnections[..addedConnections]);
      PurgedIff(wasSpec, newAgents[..addedAgents]);
    }

    /** No id that the counter can still hand out occurs anywhere. */
    ghost predicate FutureIdsUnused()
      reads this, presets.Values
    {
      forall p: Preset | p in presets.Values :: FutureUnused(agents, routing, p.agents, p.connections, nextId)
    }

    /** `add_agents_and_connections`. */
    method AddAgentsAndConnections(presetId: string, batch: seq<AgentSpec>, cs: seq<Connection>,
                                   built: seq<Option<string>>)
      returns (r: Result<(seq<AgentSpec>, seq<Connection>), Error>, ghost ids: seq<string>)
      requires |built| == |batch|
      modifies this`agents, this`routing, this`nextId, if presetId in presets then {presets[presetId]} else {}
      // the batch is renamed with new ids
      ensures |ids| == |batch| && FreshIds(ids, old(nextId), nextId)
      // when it succeeds
      ensures r.Ok? <==>
        && presetId in presets
        && FirstAgentError(old(agents), RenamedAgents(batch, ids), built).None?
        && NoClash(old(routing), RenamedConnections(batch, ids, cs))
      // what it adds
      ensures r.Ok? ==>
        var p, (constructed, added) := presets[presetId], r.value;
        && |constructed| == |batch|
        && (forall i | 0 <= i < |batch| :: built[i].Some? && constructed[i] == AgentSpec(ids[i], built[i].value))
        && added == RenamedConnections(batch, ids, cs)
        && InstancesAfter(agents, old(agents), presetId, constructed)
        && RoutedAfter(routing, old(routing), added)
        && (forall source, port :: Receivers(if source in routing then routing[source] else [], port) ==
              Receivers(if source in old(routing) then old(routing)[source] else [], port)
              + OtherEnds(added, source, port))
        && p.agents == old(p.agents) + constructed && p.connections == old(p.connections) + added
      // which failure it reports
      ensures r.Err? ==>
        var agentError := FirstAgentError(old(agents), RenamedAgents(batch, ids), built);
        r.error ==
          if presetId !in presets then PresetNotFound(presetId)
          else if agentError.Some? then agentError.value
          else ConnectionAlreadyExists
      // what a failure leaves behind
      ensures r.Err? ==> agents == old(agents)
      ensures r.Err? && presetId !in presets ==> routing == old(routing)
      ensures r.Err? && presetId in presets ==>
        var p := presets[presetId];
        && multiset(p.connections) == multiset(old(p.connections))
        && ((routing == old(routing) && p.agents == old(p.agents) && p.connections == old(p.connections)) <==>
            old(Undoable(agents, routing, p.agents, p.connections,
                         RenamedAgents(batch, ids), RenamedConnections(batch, ids, cs), built)))
    {
      var newAgents, newConnections;
      newAgents, newConnections, ids := UpdateIds(batch, cs);
      if presetId !in presets { return Err(PresetNotFound(presetId)), ids; }
      var preset := presets[presetId];
      ghost var wasAgents, wasRouting, wasSpec, wasConnections := agents, routing, preset.agents, preset.connections;
      var constructed, error := AddAgents(presetId, preset, newAgents, built);
      var addedAgents, addedConnections := |constructed|, 0;
      if error.None? {
        var ok;
        addedConnections, ok := AddConnections(preset, newConnections);
        if ok {
          assert newConnections[..addedConnections] == newConnections;
          forall source, port { AddedAreReached(routing, wasRouting, newConnections, source, port); }
          return Ok((constructed, newConnections)), ids;
        }
        error := Some(ConnectionAlreadyExists);
      } else {
        NothingRouted(routing);
        assert preset.connections == wasConnections + newConnections[..0];
      }
      RollBack(presetId, preset, newAgents, addedAgents, newConnections, addedConnections,
               wasAgents, wasRouting, wasSpec, wasConnections, constructed);
      r := Err(error.value);
    }

    /** The guarantee for a batch with distinct agent ids and its endpoints inside the batch, if
        the ids it draws are unused: it is added as an isomorphic copy with new ids, or nothing
        at all is changed; it fails only for a missing preset, an agent that cannot be
        constructed, or a repeated connection. */
    method AddOwnBatch(presetId: string, batch: seq<AgentSpec>, cs: seq<Connection>, built: seq<Option<string>>)
      returns (r: Result<(seq<AgentSpec>, seq<Connection>), Error>, ghost ids: seq<string>)
      requires |built| == |batch|
      requires DistinctIds(batch) && EndpointsInside(batch, cs)
      modifies this`agents, this`routing, this`nextId, if presetId in presets then {presets[presetId]} else {}
      ensures |ids| == |batch| && FreshIds(ids, old(nextId), nextId)
      ensures r.Err? ==> agents == old(agents)
      ensures presetId !in presets ==> r.Err? && routing == old(routing)
      ensures r.Ok? ==> CopyHasIds(r.value, ids)
      ensures presetId in presets ==>
        var p := presets[presetId];
        old(AllUnused(agents, routing, p.agents, p.connections, ids)) ==>
          && (r.Ok? <==> AllBuilt(built) && Distinct(cs))
          && (r.Ok? ==>
            var (constructed, added) := r.value;
            && IsomorphicCopy(Constructed(batch, built), cs, constructed, added)
            && InstancesAfter(agents, old(agents), presetId, constructed)
            && RoutedAfter(routing, old(routing), added)
            && p.agents == old(p.agents) + constructed && p.connections == old(p.connections) + added)
          && (r.Err? ==> routing == old(routing) && p.agents == old(p.agents) && p.connections == old(p.connections))
    {
      ghost var was, wasRouting := agents, routing;
      r, ids := AddAgentsAndConnections(presetId, batch, cs, built);
      if r.Ok? { ConstructedCopy(batch, cs, ids, built, r.value.0); }
      if presetId in presets {
        ghost var p := presets[presetId];
        if AllUnused(was, wasRouting, old(p.agents), old(p.connections), ids) {
          FreshBatch(was, wasRouting, old(p.agents), old(p.connections), batch, cs, ids, built);
        }
      }
    }

    /** As long as no id that the counter can still hand out is in use, the ids of every such
        batch are unused, and no later id is used by it. */
    method AddNextBatch(presetId: string, batch: seq<AgentSpec>, cs: seq<Connection>, built: seq<Option<string>>)
      returns (r: Result<(seq<AgentSpec>, seq<Connection>), Error>, ghost ids: seq<string>)
      requires |built| == |batch|
      requires DistinctIds(batch) && EndpointsInside(batch, cs) && FutureIdsUnused()
      modifies this`agents, this`routing, this`nextId, if presetId in presets then {presets[presetId]} else {}
      ensures FutureIdsUnused()
      ensures presetId in presets ==>
        old(AllUnused(agents, routing, presets[presetId].agents, presets[presetId].connections, ids))
      ensures r.Ok? <==> presetId in presets && AllBuilt(built) && Distinct(cs)
    {
      ghost var from, was, wasRouting := nextId, agents, routing;
      r, ids := AddOwnBatch(presetId, batch, cs, built);
      if presetId in presets {
        ghost var p := presets[presetId];
        DrawnAreUnused(was, wasRouting, old(p.agents), old(p.connections), ids, from, nextId);
      }
      ghost var (constructed, added) := if r.Ok? then r.value else ([], []);
      NoInstances(was, was, presetId);
      NothingRouted(wasRouting);
      forall q: Preset | q in presets.Values ensures FutureUnused(agents, routing, q.agents, q.connections, nextId) {
        StillFuture(was, agents, wasRouting, routing, presetId, constructed, added, old(q.agents), old(q.connections),
                    q.agents, q.connections, ids, from, nextId);
      }
    }
  }

  lemma DrawnAreUnused(agents: Instances, routing: Routing, specAgents: seq<AgentSpec>,
                       specConnections: seq<Connection>,
                       ids: seq<string>, from: nat, to: nat)
    requires FutureUnused(agents, routing, specAgents, specConnections, from) && FreshIds(ids, from, to)
    ensures AllUnused(agents, routing, specAgents, specConnections, ids)
  {
    forall i | 0 <= i < |ids| ensures Unused(agents, routing, specAgents, specConnections, ids[i]) {
      assert Drawn(ids[i], from, to);
    }
  }

  lemma StillFuture(was: Instances, now: Instances, wasRouting: Routing, routing: Routing, presetId: string,
                    constructed: seq<AgentSpec>, added: seq<Connection>,
                    wasAgents: seq<AgentSpec>, wasConnections: seq<Connection>,
                    specAgents: seq<AgentSpec>, specConnections: seq<Connection>, ids: seq<string>, from: nat, to: nat)
    requires FutureUnused(was, wasRouting, wasAgents, wasConnections, from) && FreshIds(ids, from, to) && from <= to
    requires InstancesAfter(now, was, presetId, constructed) && RoutedAfter(routing, wasRouting, added)
    requires |constructed| <= |ids| && EndpointsInside(constructed, added)
    requires forall i | 0 <= i < |constructed| :: constructed[i].id == ids[i]
    requires (specAgents == wasAgents && specConnections == wasConnections)
             || (specAgents == wasAgents + constructed && specConnections == wasConnections + added)
    ensures FutureUnused(now, routing, specAgents, specConnections, to)
  {
    forall k: nat | k >= to ensures Unused(now, routing, specAgents, specConnections, Decimal.ToString(k)) {
      LaterIdIsOther(ids, from, to, k);
      OtherSources(constructed, added, ids, Decimal.ToString(k));
      StillUnused(was, now, wasRouting, routing, presetId, constructed, added, wasAgents, wasConnections,
                  Decimal.ToString(k));
    }
  }

  lemma OtherSources(constructed: seq<AgentSpec>, added: seq<Connection>, ids: seq<string>, id: string)
    requires |constructed| <= |ids| && id !in ids && EndpointsInside(constructed, added)
    requires forall i | 0 <= i < |constructed| :: constructed[i].id == ids[i]
    ensures NoAgent(constructed, id) && forall k | 0 <= k < |added| :: added[k].source != id
  {
    forall k | 0 <= k < |added| ensures added[k].source != id {
      var i :| 0 <= i < |constructed| && constructed[i].id == added[k].source;
      assert ids[i] in ids;
    }
  }

  lemma {:induction false} NoTargets(cs: seq<Connection>, source: string)
    requires forall k | 0 <= k < |cs| :: cs[k].source != source
    ensures TargetsOf(cs, source) == []
  {
    if cs != [] { NoTargets(cs[1..], source); }
  }

  /** An id that the added elements do not use stays unused. */
  lemma StillUnused(was: Instances, now: Instances, wasRouting: Routing, routing: Routing, presetId: string,
                    constructed: seq<AgentSpec>, added: seq<Connection>,
                    specAgents: seq<AgentSpec>, specConnections: seq<Connection>, id: string)
    requires Unused(was, wasRouting, specAgents, specConnections, id)
    requires InstancesAfter(now, was, presetId, constructed) && RoutedAfter(routing, wasRouting, added)
    requires NoAgent(constructed, id) && forall k | 0 <= k < |added| :: added[k].source != id
    ensures Unused(now, routing, specAgents, specConnections, id)
    ensures Unused(now, routing, specAgents + constructed, specConnections + added, id)
  {
    assert InstanceAt(now, was, presetId, constructed, id);
    assert RoutedAt(routing, wasRouting, added, id);
    NoTargets(added, id);
  }

  lemma LaterIdIsOther(ids: seq<string>, from: nat, to: nat, k: nat)
    requires FreshIds(ids, from, to) && k >= to
    ensures Decimal.ToString(k) !in ids
  {
    if Decimal.ToString(k) in ids {
      var i :| 0 <= i < |ids| && ids[i] == Decimal.ToString(k);
      var n: nat :| from <= n < to && ids[i] == Decimal.ToString(n);
      Decimal.ToStringInjective(n, k);
    }
  }

  /** The specs that constructing a batch gives. */
  function Constructed(batch: seq<AgentSpec>, built: seq<Option<string>>): seq<AgentSpec>
    requires |batch| == |built| && AllBuilt(built)
  {
    seq(|batch|, i requires 0 <= i < |batch| => batch[i].(body := built[i].value))
  }

  lemma {:induction false} ConstructedCopy(batch: seq<AgentSpec>, cs: seq<Connection>, ids: seq<string>,
                                           built: seq<Option<string>>,
                                           constructed: seq<AgentSpec>)
    requires |ids| == |batch| == |built| == |constructed| && AllBuilt(built)
    requires DistinctIds(batch) && EndpointsInside(batch, cs)
    requires forall i, j | 0 <= i < j < |ids| :: ids[i] != ids[j]
    requires forall i | 0 <= i < |batch| :: constructed[i] == AgentSpec(ids[i], built[i].value)
    ensures IsomorphicCopy(Constructed(batch, built), cs, constructed, RenamedConnections(batch, ids, cs))
    ensures EndpointsInside(constructed, RenamedConnections(batch, ids, cs))
  {
    RenamingIsIsomorphic(batch, cs, ids);
    var b, bc := RenamedAgents(batch, ids), RenamedConnections(batch, ids, cs);
    forall k | 0 <= k < |cs| ensures Inside(constructed, bc[k].source) && Inside(constructed, bc[k].target) {
      assert Inside(b, bc[k].source) && Inside(b, bc[k].target);
      var i :| 0 <= i < |b| && b[i].id == bc[k].source;
      var j :| 0 <= j < |b| && b[j].id == bc[k].target;
      assert constructed[i].id == b[i].id && constructed[j].id == b[j].id;
    }
  }

  lemma NewIdIsFresh(ids: seq<string>, from: nat, to: nat, n: nat)
    requires FreshIds(ids, from, to) && to <= n
    ensures FreshIds(ids + [Decimal.ToString(n)], from, n + 1)
  {
    forall i | 0 <= i < |ids| ensures ids[i] != Decimal.ToString(n) {
      if ids[i] == Decimal.ToString(n) {
        var k: nat :| from <= k < to && ids[i] == Decimal.ToString(k);
        Decimal.ToStringInjective(k, n);
      }
    }
    var all := ids + [Decimal.ToString(n)];
    forall i | 0 <= i < |all| ensures Drawn(all[i], from, n + 1) {
      if i < |ids| {
        assert ids[i] == all[i];
        var k: nat :| from <= k < to && ids[i] == Decimal.ToString(k);
      }
    }
  }
}
