/** The MCP connection pool: who owns each service process that was ever spawned.

    An entry is a connection slot shared by the pool, the calls that use it, background tasks
    that will cancel it, and running shutdowns. Every critical section is one step; calls,
    cancellations and shutdowns interleave freely. */
module McpPool {
  import opened Options
  import opened Sequences

  /** A pooled connection. Entry number k holds, while it holds one, the k-th service spawned. */
  datatype Entry = Entry(server: string, hasService: bool, dead: bool)

  /** Where one tool call is: using its first connection, failed there, using the second, done. */
  datatype Call =
    | First(server: string, entry: nat)
    | Failed(server: string, entry: nat)
    | Second(server: string, entry: nat, retry: nat)
    | Finished(attempts: nat, ok: bool)

  /** `tasks` are the pending cancellations in the background, `draining` the entries that
      running shutdowns have taken from the pool and not dealt with yet, `cancelled` the
      services that were cancelled. */
  datatype State = State(
    entries: seq<Entry>,
    pool: map<string, nat>,
    tasks: multiset<nat>,
    draining: multiset<nat>,
    cancelled: multiset<nat>,
    calls: map<nat, Call>)

  /** `busy`: the connection lock is held when the pool tries it. `spawned`: whether starting a
      new process succeeds. */
  datatype Action =
    | Get(server: string, busy: bool, spawned: bool)
    | Begin(call: nat, server: string, busy: bool, spawned: bool)
    | FirstOk(call: nat)
    | FirstFails(call: nat)
    | Reconnect(call: nat, busy: bool, spawned: bool)
    | SecondOk(call: nat)
    | SecondFails(call: nat)
    | RunCancelTask(entry: nat)
    | TakeAll
    | ShutdownMark(entry: nat)
    | ShutdownCancel(entry: nat)
    | ShutdownTimeout(entry: nat)

  // ---------------------------------------------------------------- the pool's operations

  function MarkDead(st: State, e: nat): State {
    if e < |st.entries| then st.(entries := st.entries[e := st.entries[e].(dead := true)]) else st
  }

  function CancelInBackground(st: State, e: nat): State {
    MarkDead(st, e).(tasks := st.tasks + multiset{e})
  }

  /** Takes the service out of the entry, if it is still there, and cancels it. */
  function TakeService(st: State, e: nat): State {
    if e < |st.entries| && st.entries[e].hasService then
      st.(entries := st.entries[e := st.entries[e].(hasService := false)], cancelled := st.cancelled + multiset{e})
    else st
  }

  function Evict(st: State, server: string): State
    requires server in st.pool
  {
    CancelInBackground(st.(pool := st.pool - {server}), st.pool[server])
  }

  predicate IsDead(st: State, e: nat) { e < |st.entries| && st.entries[e].dead }

  predicate ServiceGone(st: State, e: nat, busy: bool) {
    !busy && e < |st.entries| && !st.entries[e].hasService
  }

  predicate Reusable(st: State, server: string, busy: bool) {
    server in st.pool && !IsDead(st, st.pool[server]) && !ServiceGone(st, st.pool[server], busy)
  }

  function Discard(st: State, server: string): State {
    if server in st.pool then Evict(st, server) else st
  }

  function Spawn(st: State, server: string): State {
    st.(entries := st.entries + [Entry(server, true, false)], pool := st.pool[server := |st.entries|])
  }

  /** `get_or_create`: the entry to use, or none if no process could be started. */
  function GetOrCreate(st: State, server: string, busy: bool, spawned: bool): (State, Option<nat>) {
    if Reusable(st, server, busy) then (st, Some(st.pool[server]))
    else
      var cleared := Discard(st, server);
      if spawned then (Spawn(cleared, server), Some(|cleared.entries|)) else (cleared, None)
  }

  function Invalidate(st: State, server: string): State {
    if server in st.pool && IsDead(st, st.pool[server]) then Evict(st, server) else st
  }

  function Drain(st: State): State {
    st.(pool := map[], draining := st.draining + multiset(st.pool.Values))
  }

  // ---------------------------------------------------------------- steps

  predicate IsFirst(st: State, c: nat) { c in st.calls && st.calls[c].First? }
  predicate IsFailed(st: State, c: nat) { c in st.calls && st.calls[c].Failed? }
  predicate IsSecond(st: State, c: nat) { c in st.calls && st.calls[c].Second? }

  predicate HasService(st: State, e: nat) { e < |st.entries| && st.entries[e].hasService }

  /** A call on a connection whose service is gone fails. */
  predicate Enabled(st: State, a: Action) {
    match a
    case Get(_, _, _) => true
    case Begin(c, _, _, _) => c !in st.calls
    case FirstOk(c) => IsFirst(st, c) && HasService(st, st.calls[c].entry)
    case FirstFails(c) => IsFirst(st, c)
    case Reconnect(c, _, _) => IsFailed(st, c)
    case SecondOk(c) => IsSecond(st, c) && HasService(st, st.calls[c].retry)
    case SecondFails(c) => IsSecond(st, c)
    case RunCancelTask(e) => e in st.tasks
    case TakeAll => true
    case ShutdownMark(e) => e in st.draining
    case ShutdownCancel(e) => e in st.draining && IsDead(st, e)
    case ShutdownTimeout(e) => e in st.draining
  }

  function SetCall(st: State, c: nat, call: Call): State { st.(calls := st.calls[c := call]) }

  function Apply(st: State, a: Action): State
    requires Enabled(st, a)
  {
    match a
    case Get(server, busy, spawned) => GetOrCreate(st, server, busy, spawned).0
    case Begin(c, server, busy, spawned) =>
      var (next, r) := GetOrCreate(st, server, busy, spawned);
      SetCall(next, c, if r.Some? then First(server, r.value) else Finished(0, false))
    case FirstOk(c) => SetCall(st, c, Finished(1, true))
    case FirstFails(c) =>
      SetCall(MarkDead(st, st.calls[c].entry), c, Failed(st.calls[c].server, st.calls[c].entry))
    case Reconnect(c, busy, spawned) =>
      var call := st.calls[c];
      var (next, r) := GetOrCreate(Invalidate(st, call.server), call.server, busy, spawned);
      SetCall(next, c, if r.Some? then Second(call.server, call.entry, r.value) else Finished(1, false))
    case SecondOk(c) => SetCall(st, c, Finished(2, true))
    case SecondFails(c) => SetCall(MarkDead(st, st.calls[c].retry), c, Finished(2, false))
    case RunCancelTask(e) => TakeService(st.(tasks := st.tasks - multiset{e}), e)
    case TakeAll => Drain(st)
    case ShutdownMark(e) => MarkDead(st, e)
    case ShutdownCancel(e) => TakeService(st.(draining := st.draining - multiset{e}), e)
    case ShutdownTimeout(e) => CancelInBackground(st.(draining := st.draining - multiset{e}), e)
  }

  function Init(): State { State([], map[], multiset{}, multiset{}, multiset{}, map[]) }

  // ---------------------------------------------------------------- ownership

  function InPool(st: State, e: nat): nat {
    if e < |st.entries| && st.entries[e].server in st.pool && st.pool[st.entries[e].server] == e then 1 else 0
  }

  /** How many places own the service spawned with entry e. */
  function Owners(st: State, e: nat): nat {
    InPool(st, e) + st.tasks[e] + st.draining[e] + st.cancelled[e]
  }

  predicate EntryOk(st: State, e: nat) {
    if e < |st.entries| then
      && Owners(st, e) == 1
      && (st.entries[e].hasService <==> st.cancelled[e] == 0)
      && (!st.entries[e].hasService ==> st.entries[e].dead)
      && (st.tasks[e] > 0 ==> st.entries[e].dead)
    else
      st.tasks[e] == 0 && st.draining[e] == 0 && st.cancelled[e] == 0
  }

  predicate SlotOk(st: State, server: string) {
    server in st.pool ==> st.pool[server] < |st.entries| && st.entries[st.pool[server]].server == server
  }

  /** A call that failed has marked its connection dead; its second connection is another one. */
  predicate CallOk(st: State, c: nat) {
    c in st.calls ==>
      match st.calls[c]
      case First(server, e) => e < |st.entries| && st.entries[e].server == server
      case Failed(server, e) => IsDead(st, e) && st.entries[e].server == server
      case Second(server, e, e2) =>
        && IsDead(st, e) && st.entries[e].server == server && InPool(st, e) == 0
        && e2 < |st.entries| && st.entries[e2].server == server && e2 != e
      case Finished(n, _) => n <= 2
  }

  ghost predicate EntriesOk(st: State) { forall e: nat :: EntryOk(st, e) }
  ghost predicate SlotsOk(st: State) { forall server :: SlotOk(st, server) }
  ghost predicate CallsOk(st: State) { forall c: nat :: CallOk(st, c) }
  ghost predicate Inv(st: State) { EntriesOk(st) && SlotsOk(st) && CallsOk(st) }

  // ---- what never goes back

  /** Entries stay, dead ones stay dead, taken services stay taken, and an entry out of the pool
      never returns to it. */
  predicate AgesAt(st: State, next: State, e: nat) {
    e < |st.entries| ==>
      && e < |next.entries|
      && next.entries[e].server == st.entries[e].server
      && (st.entries[e].dead ==> next.entries[e].dead)
      && InPool(next, e) <= InPool(st, e)
      && st.cancelled[e] <= next.cancelled[e]
  }

  ghost predicate Ages(st: State, next: State) { forall e: nat :: AgesAt(st, next, e) }

  lemma AgesTwice(a: State, b: State, c: State)
    requires Ages(a, b) && Ages(b, c)
    ensures Ages(a, c)
  {
    forall e: nat ensures AgesAt(a, c, e) { assert AgesAt(a, b, e) && AgesAt(b, c, e); }
  }

  /** What every operation of the pool keeps. */
  ghost predicate Sound(st: State, next: State) {
    EntriesOk(next) && SlotsOk(next) && Ages(st, next)
  }

  // ---- what each operation of the pool keeps

  lemma MarkDeadKeeps(st: State, e: nat)
    requires EntriesOk(st) && SlotsOk(st)
    ensures Sound(st, MarkDead(st, e))
  {
    var next := MarkDead(st, e);
    forall f: nat ensures EntryOk(next, f) && AgesAt(st, next, f) { assert EntryOk(st, f); }
    forall s ensures SlotOk(next, s) { assert SlotOk(st, s); }
  }

  lemma EvictKeeps(st: State, server: string)
    requires EntriesOk(st) && SlotsOk(st) && server in st.pool
    ensures Sound(st, Evict(st, server))
  {
    var next := Evict(st, server);
    assert SlotOk(st, server);
    assert EntryOk(st, st.pool[server]);
    forall f: nat ensures EntryOk(next, f) && AgesAt(st, next, f) { assert EntryOk(st, f); }
    forall s ensures SlotOk(next, s) { assert SlotOk(st, s); }
  }

  lemma SpawnKeeps(st: State, server: string)
    requires EntriesOk(st) && SlotsOk(st) && server !in st.pool
    ensures Sound(st, Spawn(st, server))
  {
    var next := Spawn(st, server);
    forall f: nat ensures EntryOk(next, f) && AgesAt(st, next, f) { assert EntryOk(st, f); }
    forall s ensures SlotOk(next, s) { assert SlotOk(st, s); }
  }

  lemma DiscardKeeps(st: State, server: string)
    requires EntriesOk(st) && SlotsOk(st)
    ensures Sound(st, Discard(st, server)) && Sound(st, Invalidate(st, server)) && Sound(st, st)
  {
    Unchanged(st, st);
    if server in st.pool { EvictKeeps(st, server); }
  }

  lemma GetKeeps(st: State, server: string, busy: bool, spawned: bool)
    requires EntriesOk(st) && SlotsOk(st)
    ensures Sound(st, GetOrCreate(st, server, busy, spawned).0)
  {
    DiscardKeeps(st, server);
    if !Reusable(st, server, busy) && spawned {
      SpawnKeeps(Discard(st, server), server);
      AgesTwice(st, Discard(st, server), Spawn(Discard(st, server), server));
    }
  }

  lemma ReconnectKeeps(st: State, server: string, busy: bool, spawned: bool)
    requires EntriesOk(st) && SlotsOk(st)
    ensures Sound(st, GetOrCreate(Invalidate(st, server), server, busy, spawned).0)
  {
    DiscardKeeps(st, server);
    GetKeeps(Invalidate(st, server), server, busy, spawned);
    AgesTwice(st, Invalidate(st, server), GetOrCreate(Invalidate(st, server), server, busy, spawned).0);
  }

  /** A change of the calls only. */
  lemma Unchanged(st: State, next: State)
    requires EntriesOk(st) && SlotsOk(st)
    requires next == st.(calls := next.calls)
    ensures Sound(st, next)
  {
    forall e: nat ensures EntryOk(next, e) && AgesAt(st, next, e) { assert EntryOk(st, e); }
    forall s ensures SlotOk(next, s) { assert SlotOk(st, s); }
  }

  lemma TaskKeeps(st: State, e: nat)
    requires EntriesOk(st) && SlotsOk(st) && e in st.tasks
    ensures var next := TakeService(st.(tasks := st.tasks - multiset{e}), e); Sound(st, next)
  {
    var next := TakeService(st.(tasks := st.tasks - multiset{e}), e);
    assert EntryOk(st, e);
    forall f: nat ensures EntryOk(next, f) && AgesAt(st, next, f) { assert EntryOk(st, f); }
    forall s ensures SlotOk(next, s) { assert SlotOk(st, s); }
  }

  lemma ShutdownCancelKeeps(st: State, e: nat)
    requires EntriesOk(st) && SlotsOk(st) && e in st.draining && IsDead(st, e)
    ensures var next := TakeService(st.(draining := st.draining - multiset{e}), e); Sound(st, next)
  {
    var next := TakeService(st.(draining := st.draining - multiset{e}), e);
    assert EntryOk(st, e);
    forall f: nat ensures EntryOk(next, f) && AgesAt(st, next, f) { assert EntryOk(st, f); }
    forall s ensures SlotOk(next, s) { assert SlotOk(st, s); }
  }

  lemma TimeoutKeeps(st: State, e: nat)
    requires EntriesOk(st) && SlotsOk(st) && e in st.draining
    ensures var next := CancelInBackground(st.(draining := st.draining - multiset{e}), e); Sound(st, next)
  {
    var next := CancelInBackground(st.(draining := st.draining - multiset{e}), e);
    assert EntryOk(st, e);
    forall f: nat ensures EntryOk(next, f) && AgesAt(st, next, f) { assert EntryOk(st, f); }
    forall s ensures SlotOk(next, s) { assert SlotOk(st, s); }
  }

  /** The drained list holds the pool's entries, each once. */
  lemma DrainedOnce(st: State, e: nat)
    requires SlotsOk(st)
    ensures multiset(st.pool.Values)[e] == InPool(st, e)
  {
    if exists s :: s in st.pool && st.pool[s] == e {
      var s :| s in st.pool && st.pool[s] == e;
      assert SlotOk(st, s);
    }
  }

  lemma DrainKeeps(st: State)
    requires EntriesOk(st) && SlotsOk(st)
    ensures Sound(st, Drain(st))
  {
    forall e: nat ensures EntryOk(Drain(st), e) && AgesAt(st, Drain(st), e) {
      assert EntryOk(st, e);
      DrainedOnce(st, e);
    }
    forall s ensures SlotOk(Drain(st), s) {}
  }

  /** What an action does to the entries, the pool and the lists, whoever performs it. */
  function PoolEffect(st: State, a: Action): State
    requires Enabled(st, a)
  {
    match a
    case Get(server, busy, spawned) => GetOrCreate(st, server, busy, spawned).0
    case Begin(_, server, busy, spawned) => GetOrCreate(st, server, busy, spawned).0
    case FirstFails(c) => MarkDead(st, st.calls[c].entry)
    case Reconnect(c, busy, spawned) =>
      GetOrCreate(Invalidate(st, st.calls[c].server), st.calls[c].server, busy, spawned).0
    case SecondFails(c) => MarkDead(st, st.calls[c].retry)
    case FirstOk(_) => st
    case SecondOk(_) => st
    case _ => Apply(st, a)
  }

  lemma {:induction false} PoolEffectKeeps(st: State, a: Action)
    requires EntriesOk(st) && SlotsOk(st) && Enabled(st, a)
    ensures Sound(st, PoolEffect(st, a))
  {
    match a
    case Get(server, busy, spawned) => GetKeeps(st, server, busy, spawned);
    case Begin(_, server, busy, spawned) => GetKeeps(st, server, busy, spawned);
    case FirstFails(c) => MarkDeadKeeps(st, st.calls[c].entry);
    case Reconnect(c, busy, spawned) => ReconnectKeeps(st, st.calls[c].server, busy, spawned);
    case SecondFails(c) => MarkDeadKeeps(st, st.calls[c].retry);
    case RunCancelTask(e) => TaskKeeps(st, e);
    case TakeAll => DrainKeeps(st);
    case ShutdownMark(e) => MarkDeadKeeps(st, e);
    case ShutdownCancel(e) => ShutdownCancelKeeps(st, e);
    case ShutdownTimeout(e) => TimeoutKeeps(st, e);
    case _ => Unchanged(st, st);
  }

  lemma {:induction false} StepIsSound(st: State, a: Action)
    requires EntriesOk(st) && SlotsOk(st) && Enabled(st, a)
    ensures Sound(st, Apply(st, a))
  {
    var mid := PoolEffect(st, a);
    PoolEffectKeeps(st, a);
    Unchanged(mid, Apply(st, a));
    AgesTwice(st, mid, Apply(st, a));
  }

  /** What a call gets from the pool: a connection for its server that is not dead. */
  lemma GotConnection(st: State, server: string, busy: bool, spawned: bool)
    requires EntriesOk(st) && SlotsOk(st)
    ensures var (next, r) := GetOrCreate(st, server, busy, spawned);
      r.Some? ==>
        && r.value < |next.entries| && next.entries[r.value] == Entry(server, true, false)
        && server in next.pool && next.pool[server] == r.value
  {
    if Reusable(st, server, busy) {
      assert SlotOk(st, server);
      assert EntryOk(st, st.pool[server]);
    }
  }

  lemma OtherCallKept(st: State, next: State, c: nat)
    requires CallOk(st, c) && Ages(st, next)
    requires c in next.calls ==> c in st.calls && next.calls[c] == st.calls[c]
    ensures CallOk(next, c)
  {
    if c in next.calls {
      match st.calls[c]
      case First(_, e) => assert AgesAt(st, next, e);
      case Failed(_, e) => assert AgesAt(st, next, e);
      case Second(_, e, e2) => assert AgesAt(st, next, e) && AgesAt(st, next, e2);
      case Finished(_, _) =>
    }
  }

  lemma BeginKeepsCall(st: State, c: nat, server: string, busy: bool, spawned: bool)
    requires Inv(st) && c !in st.calls
    ensures CallOk(Apply(st, Begin(c, server, busy, spawned)), c)
  {
    GotConnection(st, server, busy, spawned);
  }

  lemma FailureKeepsCall(st: State, a: Action)
    requires Inv(st) && Enabled(st, a) && (a.FirstFails? || a.SecondFails?)
    ensures CallOk(Apply(st, a), a.call)
  {
    assert CallOk(st, a.call);
  }

  /** What a call gets after its connection failed: another one. */
  lemma ReplacementIsOther(st: State, server: string, e: nat, busy: bool, spawned: bool)
    requires EntriesOk(st) && SlotsOk(st) && IsDead(st, e) && st.entries[e].server == server
    ensures var (next, r) := GetOrCreate(Invalidate(st, server), server, busy, spawned);
      r.Some? ==> r.value != e && InPool(next, e) == 0
  {
    var mid := Invalidate(st, server);
    DiscardKeeps(st, server);
    assert AgesAt(st, mid, e);
    GetKeeps(mid, server, busy, spawned);
    GotConnection(mid, server, busy, spawned);
    assert AgesAt(mid, GetOrCreate(mid, server, busy, spawned).0, e);
  }

  lemma {:induction false} ReconnectKeepsCall(st: State, c: nat, busy: bool, spawned: bool)
    requires Inv(st) && IsFailed(st, c)
    ensures CallOk(Apply(st, Reconnect(c, busy, spawned)), c)
  {
    var server, e := st.calls[c].server, st.calls[c].entry;
    assert CallOk(st, c);
    ReplacementIsOther(st, server, e, busy, spawned);
    DiscardKeeps(st, server);
    GotConnection(Invalidate(st, server), server, busy, spawned);
    ReconnectKeeps(st, server, busy, spawned);
    assert AgesAt(st, GetOrCreate(Invalidate(st, server), server, busy, spawned).0, e);
  }

  lemma SuccessKeepsCall(st: State, a: Action)
    requires Enabled(st, a) && (a.FirstOk? || a.SecondOk?)
    ensures CallOk(Apply(st, a), a.call)
  {}

  /** The call whose record an action changes. */
  predicate Concerns(a: Action, c: nat) {
    (a.Begin? || a.FirstOk? || a.FirstFails? || a.Reconnect? || a.SecondOk? || a.SecondFails?) && a.call == c
  }

  lemma PoolKeepsCalls(st: State, server: string, busy: bool, spawned: bool)
    ensures GetOrCreate(st, server, busy, spawned).0.calls == st.calls
    ensures Invalidate(st, server).calls == st.calls
  {}

  lemma {:induction false} OtherRecordKept(st: State, a: Action, c: nat)
    requires Enabled(st, a) && !Concerns(a, c)
    ensures var next := Apply(st, a); c in next.calls ==> c in st.calls && next.calls[c] == st.calls[c]
  {
    match a
    case Get(server, busy, spawned) => PoolKeepsCalls(st, server, busy, spawned);
    case Begin(_, server, busy, spawned) => PoolKeepsCalls(st, server, busy, spawned);
    case Reconnect(c', busy, spawned) =>
      var server := st.calls[c'].server;
      PoolKeepsCalls(st, server, busy, spawned);
      PoolKeepsCalls(Invalidate(st, server), server, busy, spawned);
    case FirstOk(_) =>
    case FirstFails(_) =>
    case SecondOk(_) =>
    case SecondFails(_) =>
    case RunCancelTask(_) =>
    case TakeAll =>
    case ShutdownMark(_) =>
    case ShutdownCancel(_) =>
    case ShutdownTimeout(_) =>
  }

  lemma {:induction false} CallKept(st: State, a: Action, c: nat)
    requires Inv(st) && Enabled(st, a)
    ensures CallOk(Apply(st, a), c)
  {
    if !Concerns(a, c) {
      assert CallOk(st, c);
      StepIsSound(st, a);
      OtherRecordKept(st, a, c);
      OtherCallKept(st, Apply(st, a), c);
    } else if a.Begin? {
      BeginKeepsCall(st, c, a.server, a.busy, a.spawned);
    } else if a.Reconnect? {
      ReconnectKeepsCall(st, c, a.busy, a.spawned);
    } else if a.FirstFails? || a.SecondFails? {
      FailureKeepsCall(st, a);
    } else {
      SuccessKeepsCall(st, a);
    }
  }

  /** Every step keeps the invariant. */
  lemma {:induction false} StepKeepsInv(st: State, a: Action)
    requires Inv(st) && Enabled(st, a)
    ensures Inv(Apply(st, a)) && Ages(st, Apply(st, a))
  {
    StepIsSound(st, a);
    forall c: nat ensures CallOk(Apply(st, a), c) { CallKept(st, a, c); }
  }

  // ---------------------------------------------------------------- runs

  predicate StepAt(tr: seq<State>, acts: seq<Action>, i: nat)
    requires |tr| == |acts| + 1 && i < |acts|
  {
    Enabled(tr[i], acts[i]) && tr[i + 1] == Apply(tr[i], acts[i])
  }

  ghost predicate Run(tr: seq<State>, acts: seq<Action>) {
    && |tr| == |acts| + 1
    && tr[0] == Init()
    && forall i | 0 <= i < |acts| :: StepAt(tr, acts, i)
  }

  lemma {:induction false} InvAlong(tr: seq<State>, acts: seq<Action>, i: nat)
    requires Run(tr, acts) && i < |tr|
    ensures Inv(tr[i])
    decreases i
  {
    if i == 0 {
      forall e: nat ensures EntryOk(Init(), e) {}
      forall s ensures SlotOk(Init(), s) {}
      forall c: nat ensures CallOk(Init(), c) {}
    } else {
      InvAlong(tr, acts, i - 1);
      assert StepAt(tr, acts, i - 1);
      StepKeepsInv(tr[i - 1], acts[i - 1]);
    }
  }

  /** At every moment of every run, each service ever spawned has exactly one owner: its pool
      slot, one background task, one running shutdown, or it has been cancelled once; an entry
      whose service is gone is marked dead; and the pool's entries still have their services. */
  lemma ServicesAreOwnedOnce(tr: seq<State>, acts: seq<Action>, i: nat, e: nat)
    requires Run(tr, acts) && i < |tr| && e < |tr[i].entries|
    ensures Owners(tr[i], e) == 1
    ensures !tr[i].entries[e].hasService <==> tr[i].cancelled[e] == 1
    ensures !tr[i].entries[e].hasService ==> tr[i].entries[e].dead && InPool(tr[i], e) == 0
  {
    InvAlong(tr, acts, i);
    assert EntryOk(tr[i], e);
  }

  /** So the pool never finds a connection without its service, whether or not it can look. */
  lemma PooledServiceIsNeverGone(tr: seq<State>, acts: seq<Action>, i: nat, server: string, spawned: bool)
    requires Run(tr, acts) && i < |tr|
    ensures GetOrCreate(tr[i], server, false, spawned) == GetOrCreate(tr[i], server, true, spawned)
  {
    InvAlong(tr, acts, i);
    if server in tr[i].pool {
      assert SlotOk(tr[i], server);
      assert EntryOk(tr[i], tr[i].pool[server]);
    }
  }

  /** A retry uses another connection than the one that failed; the failed one is dead and out
      of the pool for good. */
  lemma RetryUsesAnotherConnection(tr: seq<State>, acts: seq<Action>, i: nat, j: nat, c: nat)
    requires Run(tr, acts) && i <= j < |tr| && IsSecond(tr[i], c)
    ensures var (e, e2) := (tr[i].calls[c].entry, tr[i].calls[c].retry);
      && e2 != e && e < |tr[j].entries| && e2 < |tr[j].entries|
      && tr[j].entries[e].server == tr[j].entries[e2].server == tr[i].calls[c].server
      && tr[j].entries[e].dead && InPool(tr[j], e) == 0
  {
    InvAlong(tr, acts, i);
    assert CallOk(tr[i], c);
    AgesAlong(tr, acts, i, j, tr[i].calls[c].entry);
    AgesAlong(tr, acts, i, j, tr[i].calls[c].retry);
  }

  lemma {:induction false} AgesAlong(tr: seq<State>, acts: seq<Action>, i: nat, j: nat, e: nat)
    requires Run(tr, acts) && i <= j < |tr|
    ensures AgesAt(tr[i], tr[j], e)
    decreases j
  {
    if i < j {
      AgesAlong(tr, acts, i, j - 1, e);
      InvAlong(tr, acts, j - 1);
      assert StepAt(tr, acts, j - 1);
      StepKeepsInv(tr[j - 1], acts[j - 1]);
      assert AgesAt(tr[j - 1], tr[j], e);
    }
  }

  /** The connection is the pool's and no call on it has failed. */
  predicate LiveInPool(st: State, server: string, e: nat) {
    server in st.pool && st.pool[server] == e && e < |st.entries| && !st.entries[e].dead
  }

  /** The action is a failure of a call on this connection. */
  predicate FailsOn(st: State, a: Action, e: nat) {
    || (a.FirstFails? && IsFirst(st, a.call) && st.calls[a.call].entry == e)
    || (a.SecondFails? && IsSecond(st, a.call) && st.calls[a.call].retry == e)
  }

  /** The effects on the pool that do not concern this connection. */
  lemma PoolKeepsLive(st: State, s: string, server: string, e: nat, busy: bool, spawned: bool)
    requires EntriesOk(st) && SlotsOk(st) && LiveInPool(st, server, e)
    ensures LiveInPool(GetOrCreate(st, s, busy, spawned).0, server, e)
    ensures LiveInPool(Invalidate(st, s), server, e)
  {
    assert SlotOk(st, server) && SlotOk(st, s) && EntryOk(st, e);
  }

  lemma ReconnectKeepsLive(st: State, s: string, server: string, e: nat, busy: bool, spawned: bool)
    requires EntriesOk(st) && SlotsOk(st) && LiveInPool(st, server, e)
    ensures LiveInPool(GetOrCreate(Invalidate(st, s), s, busy, spawned).0, server, e)
  {
    DiscardKeeps(st, s);
    PoolKeepsLive(st, s, server, e, busy, spawned);
    PoolKeepsLive(Invalidate(st, s), s, server, e, busy, spawned);
  }

  lemma StepKeepsLive(st: State, a: Action, server: string, e: nat)
    requires Inv(st) && Enabled(st, a) && LiveInPool(st, server, e)
    ensures LiveInPool(Apply(st, a), server, e) <==> !FailsOn(st, a, e) && a != TakeAll
  {
    match a
    case Get(s, busy, spawned) => PoolKeepsLive(st, s, server, e, busy, spawned);
    case Begin(_, s, busy, spawned) => PoolKeepsLive(st, s, server, e, busy, spawned);
    case Reconnect(c, busy, spawned) => ReconnectKeepsLive(st, st.calls[c].server, server, e, busy, spawned);
    case _ => OtherKeepsLive(st, a, server, e);
  }

  lemma OtherKeepsLive(st: State, a: Action, server: string, e: nat)
    requires EntriesOk(st) && SlotsOk(st) && Enabled(st, a) && LiveInPool(st, server, e)
    requires !a.Get? && !a.Begin? && !a.Reconnect?
    ensures LiveInPool(Apply(st, a), server, e) <==> !FailsOn(st, a, e) && a != TakeAll
  {
    assert SlotOk(st, server) && EntryOk(st, e);
  }

  /** Step k neither fails on the connection nor drains the pool. */
  predicate Undisturbed(tr: seq<State>, acts: seq<Action>, k: nat, e: nat)
    requires |tr| == |acts| + 1 && k < |acts|
  {
    !FailsOn(tr[k], acts[k], e) && acts[k] != TakeAll
  }

  lemma LiveStep(tr: seq<State>, acts: seq<Action>, i: nat, j: nat, server: string, e: nat)
    requires Run(tr, acts) && i <= j < |acts| && LiveInPool(tr[i], server, e)
    ensures LiveInPool(tr[j + 1], server, e) <==> LiveInPool(tr[j], server, e) && Undisturbed(tr, acts, j, e)
  {
    if LiveInPool(tr[j], server, e) {
      InvAlong(tr, acts, j);
      assert StepAt(tr, acts, j);
      StepKeepsLive(tr[j], acts[j], server, e);
    } else {
      InvAlong(tr, acts, i);
      assert SlotOk(tr[i], server);
      AgesAlong(tr, acts, i, j, e);
      AgesAlong(tr, acts, j, j + 1, e);
    }
  }

  /** A late invalidation never evicts a healthy replacement: a pooled connection stays in the
      pool, whatever other calls, reconnects and cancellations do, exactly until a call on it
      fails or a shutdown drains the pool. */
  lemma {:induction false} HealthyConnectionStaysIff(tr: seq<State>, acts: seq<Action>, i: nat, j: nat,
                                                     server: string, e: nat)
    requires Run(tr, acts) && i <= j < |tr| && LiveInPool(tr[i], server, e)
    ensures LiveInPool(tr[j], server, e) <==> forall k | i <= k < j :: Undisturbed(tr, acts, k, e)
    decreases j
  {
    if i < j {
      HealthyConnectionStaysIff(tr, acts, i, j - 1, server, e);
      LiveStep(tr, acts, i, j - 1, server, e);
    }
  }

  /** Once nothing is pooled, pending or draining, every service ever spawned was cancelled,
      each exactly once. */
  lemma {:induction false} QuietMeansAllCancelled(tr: seq<State>, acts: seq<Action>, i: nat, e: nat)
    requires Run(tr, acts) && i < |tr| && e < |tr[i].entries|
    requires tr[i].pool == map[] && tr[i].tasks == multiset{} && tr[i].draining == multiset{}
    ensures tr[i].cancelled[e] == 1 && !tr[i].entries[e].hasService
  {
    InvAlong(tr, acts, i);
    assert EntryOk(tr[i], e);
  }

  predicate Spawns(st: State, next: State) { |next.entries| > |st.entries| }

  lemma {:induction false} PoolStaysEmpty(tr: seq<State>, acts: seq<Action>, i: nat, j: nat)
    requires Run(tr, acts) && i < j < |tr| && acts[i] == TakeAll
    requires forall k | i < k < j :: !Spawns(tr[k], tr[k + 1])
    ensures tr[j].pool == map[]
    decreases j
  {
    assert StepAt(tr, acts, j - 1);
    if i + 1 < j {
      PoolStaysEmpty(tr, acts, i, j - 1);
      EmptyStays(tr[j - 1], acts[j - 1]);
    }
  }

  lemma EmptyStays(st: State, a: Action)
    requires Enabled(st, a) && st.pool == map[] && !Spawns(st, Apply(st, a))
    ensures Apply(st, a).pool == map[]
  {}

  /** After a shutdown drains the pool, and until some call spawns a process again, the pool
      stays empty; so when the shutdown and the background tasks are through, every service has
      been cancelled. */
  lemma {:induction false} ShutdownCancelsEverything(tr: seq<State>, acts: seq<Action>, i: nat, j: nat)
    requires Run(tr, acts) && i < j < |tr| && acts[i] == TakeAll
    requires forall k | i < k < j :: !Spawns(tr[k], tr[k + 1])
    ensures tr[j].pool == map[]
    ensures tr[j].tasks == multiset{} && tr[j].draining == multiset{} ==>
      forall e: nat | e < |tr[j].entries| :: tr[j].cancelled[e] == 1
  {
    PoolStaysEmpty(tr, acts, i, j);
    if tr[j].tasks == multiset{} && tr[j].draining == multiset{} {
      forall e: nat | e < |tr[j].entries| ensures tr[j].cancelled[e] == 1 { QuietMeansAllCancelled(tr, acts, j, e); }
    }
  }

  // ---------------------------------------------------------------- the pool object

  /** What happens outside during one tool call. */
  datatype Outcomes = Outcomes(busy: bool, spawned: bool, ok: bool, busyAgain: bool, spawnedAgain: bool, okAgain: bool)

  function Next(st: State, a: Action): Option<State> { if Enabled(st, a) then Some(Apply(st, a)) else None }

  /** The actions lead from one state to the other, for whatever an action does. */
  ghost predicate Leads(next: (State, Action) -> Option<State>, from: State, acts: seq<Action>, to: State)
    decreases |acts|
  {
    if acts == [] then from == to
    else next(from, acts[0]).Some? && Leads(next, next(from, acts[0]).value, acts[1..], to)
  }

  lemma {:induction false} LeadsAppend(next: (State, Action) -> Option<State>, from: State, acts: seq<Action>,
                                       mid: State, a: Action, to: State)
    requires Leads(next, from, acts, mid) && next(mid, a) == Some(to)
    ensures Leads(next, from, acts + [a], to)
    decreases |acts|
  {
    if acts == [] {
      assert [a][1..] == [];
    } else {
      LeadsAppend(next, next(from, acts[0]).value, acts[1..], mid, a, to);
      assert (acts + [a])[1..] == acts[1..] + [a];
    }
  }

  /** The actions, each enabled in its turn, lead from one state to the other. */
  ghost predicate Steps(from: State, acts: seq<Action>, to: State) { Leads(Next, from, acts, to) }

  lemma StepsAppend(from: State, acts: seq<Action>, mid: State, a: Action)
    requires Steps(from, acts, mid) && Enabled(mid, a)
    ensures Steps(from, acts + [a], Apply(mid, a))
  {
    LeadsAppend(Next, from, acts, mid, a, Apply(mid, a));
  }

  /** Every slot of the pool holds an entry of its own server. */
  predicate OwnSlots(entries: seq<Entry>, pool: map<string, nat>) {
    forall s | s in pool :: pool[s] < |entries| && entries[pool[s]].server == s
  }

  /** Different servers have different entries, so taking one server out takes one entry out. */
  lemma TakeOne(entries: seq<Entry>, pool: map<string, nat>, server: string)
    requires server in pool && OwnSlots(entries, pool)
    ensures OwnSlots(entries, pool - {server}) && |pool - {server}| < |pool|
    ensures multiset(pool.Values) == multiset{pool[server]} + multiset((pool - {server}).Values)
  {
    var left := pool - {server};
    forall e ensures e in left.Values <==> e in pool.Values && e != pool[server] {
      if e in pool.Values && e != pool[server] {
        var s :| s in pool && pool[s] == e;
        assert s in left && left[s] == e;
      }
    }
  }

  /** What a shutdown leaves of an entry it took: dead, and its service cancelled or, if the
      connection stayed busy, about to be cancelled in the background. */
  predicate ShutDown(st: State, e: nat, busy: bool) {
    IsDead(st, e) && if busy then st.tasks[e] == 1 else st.cancelled[e] == 1 && !st.entries[e].hasService
  }

  predicate AllShutDown(st: State, done: seq<nat>, busy: set<nat>) {
    forall j | 0 <= j < |done| :: ShutDown(st, done[j], done[j] in busy)
  }

  lemma AllShutDownStep(st: State, e: nat, done: seq<nat>, busy: set<nat>)
    requires Inv(st) && e in st.draining && AllShutDown(st, done, busy)
    ensures AllShutDown(AfterShutdown(st, e, e in busy), done + [e], busy)
  {
    ShutdownDeals(st, e, e in busy);
    forall j | 0 <= j < |done| ensures ShutDown(AfterShutdown(st, e, e in busy), done[j], done[j] in busy) {
      ShutdownKeepsOthers(st, e, e in busy, done[j], done[j] in busy);
    }
  }

  /** The two actions that deal with one entry of a shutdown. */
  function ShutdownActions(e: nat, busy: bool): seq<Action> {
    [ShutdownMark(e), if busy then ShutdownTimeout(e) else ShutdownCancel(e)]
  }

  function AfterShutdown(st: State, e: nat, busy: bool): State {
    var marked := MarkDead(st, e);
    var given := marked.(draining := st.draining - multiset{e});
    if busy then CancelInBackground(given, e) else TakeService(given, e)
  }

  lemma TwoSteps(from: State, before: seq<Action>, st: State, a: Action, b: Action)
    requires Steps(from, before, st) && Inv(st) && Enabled(st, a) && Enabled(Apply(st, a), b)
    ensures Inv(Apply(Apply(st, a), b)) && Steps(from, before + [a, b], Apply(Apply(st, a), b))
  {
    StepKeepsInv(st, a);
    StepsAppend(from, before, st, a);
    StepKeepsInv(Apply(st, a), b);
    StepsAppend(from, before + [a], Apply(st, a), b);
    assert before + [a] + [b] == before + [a, b];
  }

  lemma ShutdownIsTwoSteps(st: State, e: nat, busy: bool)
    requires EntryOk(st, e) && e in st.draining
    ensures var acts := ShutdownActions(e, busy);
      && Enabled(st, acts[0]) && Enabled(Apply(st, acts[0]), acts[1])
      && AfterShutdown(st, e, busy) == Apply(Apply(st, acts[0]), acts[1])
  {}

  lemma ShutdownSteps(from: State, before: seq<Action>, st: State, e: nat, busy: bool)
    requires Steps(from, before, st) && Inv(st) && e in st.draining
    ensures Inv(AfterShutdown(st, e, busy))
    ensures Steps(from, before + ShutdownActions(e, busy), AfterShutdown(st, e, busy))
  {
    assert EntryOk(st, e);
    ShutdownIsTwoSteps(st, e, busy);
    var acts := ShutdownActions(e, busy);
    TwoSteps(from, before, st, acts[0], acts[1]);
    assert acts == [acts[0], acts[1]];
  }

  lemma ShutdownDeals(st: State, e: nat, busy: bool)
    requires Inv(st) && e in st.draining
    ensures ShutDown(AfterShutdown(st, e, busy), e, busy)
  {
    assert EntryOk(st, e);
  }

  lemma ShutdownKeepsOthers(st: State, e: nat, busy: bool, f: nat, b: bool)
    requires Inv(st) && e in st.draining && ShutDown(st, f, b)
    ensures ShutDown(AfterShutdown(st, e, busy), f, b)
  {
    assert EntryOk(st, e) && EntryOk(st, f);
  }

  /** A shutdown under way: it still has to deal with `rest`, and has dealt with `done`. */
  ghost predicate ShuttingDown(from: State, acts: seq<Action>, st: State, rest: seq<nat>, done: seq<nat>,
                               busy: set<nat>) {
    && Inv(st) && Steps(from, acts, st)
    && st.pool == map[] && st.draining == from.draining + multiset(rest)
    && AllShutDown(st, done, busy)
  }

  lemma ShutdownStarts(st: State, taken: seq<nat>, busy: set<nat>)
    requires Inv(st) && multiset(taken) == multiset(st.pool.Values)
    ensures ShuttingDown(st, [TakeAll], Drain(st), taken, [], busy)
  {
    StepKeepsInv(st, TakeAll);
    assert [TakeAll][1..] == [];
  }

  lemma ShutdownStep(from: State, acts: seq<Action>, st: State, e: nat, rest: seq<nat>, done: seq<nat>, busy: set<nat>)
    requires ShuttingDown(from, acts, st, [e] + rest, done, busy)
    ensures e in st.draining
    ensures ShuttingDown(from, acts + ShutdownActions(e, e in busy), AfterShutdown(st, e, e in busy),
                         rest, done + [e], busy)
  {
    ShutdownSteps(from, acts, st, e, e in busy);
    AllShutDownStep(st, e, done, busy);
  }

  /** A shutdown that has dealt with everything it took. */
  lemma ShutdownEnds(from: State, acts: seq<Action>, st: State, taken: seq<nat>, busy: set<nat>)
    requires ShuttingDown(from, acts, st, [], taken, busy) && multiset(taken) == multiset(from.pool.Values)
    ensures st.draining == from.draining
    ensures forall s | s in from.pool :: ShutDown(st, from.pool[s], from.pool[s] in busy)
  {
    forall s | s in from.pool ensures ShutDown(st, from.pool[s], from.pool[s] in busy) {
      assert from.pool[s] in multiset(taken);
    }
  }

  class MCPConnectionPool {
    var entries: seq<Entry>
    var connections: map<string, nat>
    var tasks: multiset<nat>
    var draining: multiset<nat>
    var cancelled: multiset<nat>
    var calls: map<nat, Call>

    ghost function View(): State
      reads this
    {
      State(entries, connections, tasks, draining, cancelled, calls)
    }

    constructor ()
      ensures View() == Init()
    {
      entries, connections := [], map[];
      tasks, draining, cancelled := multiset{}, multiset{}, multiset{};
      calls := map[];
    }

    method Mark(e: nat)
      modifies this`entries
      ensures View() == MarkDead(old(View()), e)
    {
      if e < |entries| { entries := entries[e := entries[e].(dead := true)]; }
    }

    method SpawnCancelTask(e: nat)
      modifies this
      ensures View() == CancelInBackground(old(View()), e)
    {
      Mark(e);
      tasks := tasks + multiset{e};
    }

    method CancelService(e: nat)
      modifies this
      ensures View() == TakeService(old(View()), e)
    {
      if e < |entries| && entries[e].hasService {
        entries := entries[e := entries[e].(hasService := false)];
        cancelled := cancelled + multiset{e};
      }
    }

    method Acquire(server: string, busy: bool, spawned: bool) returns (r: Option<nat>)
      requires SlotsOk(View())
      modifies this
      ensures (View(), r) == GetOrCreate(old(View()), server, busy, spawned)
    {
      if server in connections {
        var e := connections[server];
        assert SlotOk(View(), server);
        var serviceGone := !busy && !entries[e].hasService;
        if !entries[e].dead && !serviceGone { return Some(e); }
        connections := connections - {server};
        SpawnCancelTask(e);
      }
      if !spawned { return None; }
      var created := |entries|;
      entries := entries + [Entry(server, true, false)];
      connections := connections[server := created];
      r := Some(created);
    }

    method Evict(server: string)
      requires SlotsOk(View())
      modifies this
      ensures View() == Invalidate(old(View()), server)
    {
      assert SlotOk(View(), server);
      if server in connections && entries[connections[server]].dead {
        var e := connections[server];
        connections := connections - {server};
        SpawnCancelTask(e);
      }
    }

    /** The entries of a pool, in any order. */
    static method Collect(ghost entries: seq<Entry>, pool: map<string, nat>) returns (taken: seq<nat>)
      requires OwnSlots(entries, pool)
      ensures multiset(taken) == multiset(pool.Values)
    {
      taken := [];
      var left := pool;
      while left != map[]
        invariant OwnSlots(entries, left)
        invariant multiset(taken) + multiset(left.Values) == multiset(pool.Values)
        decreases |left|
      {
        var s :| s in left;
        TakeOne(entries, left, s);
        taken := taken + [left[s]];
        left := left - {s};
      }
      assert left.Values == {};
    }

    /** `take_all`. */
    method TakeAll() returns (taken: seq<nat>)
      requires SlotsOk(View())
      modifies this`connections, this`draining
      ensures View() == Drain(old(View()))
      ensures multiset(taken) == multiset(old(connections).Values)
    {
      forall s | s in connections ensures connections[s] < |entries| && entries[connections[s]].server == s {
        assert SlotOk(View(), s);
      }
      taken := Collect(entries, connections);
      connections := map[];
      draining := draining + multiset(taken);
    }

    /** One background task: waits for the connection and cancels what it still holds. */
    method RunTask(e: nat)
      requires Inv(View()) && e in tasks
      modifies this
      ensures View() == Apply(old(View()), Action.RunCancelTask(e)) && Inv(View())
    {
      StepKeepsInv(View(), Action.RunCancelTask(e));
      tasks := tasks - multiset{e};
      CancelService(e);
    }

    /** What a shutdown does with one entry it took; `busy` if waiting for it times out. */
    method ShutdownEntry(e: nat, busy: set<nat>, ghost from: State, ghost before: seq<Action>,
                         ghost rest: seq<nat>, ghost done: seq<nat>)
      returns (ghost acts: seq<Action>)
      requires ShuttingDown(from, before, View(), [e] + rest, done, busy)
      modifies this
      ensures View() == AfterShutdown(old(View()), e, e in busy)
      ensures ShuttingDown(from, acts, View(), rest, done + [e], busy)
    {
      ShutdownStep(from, before, View(), e, rest, done, busy);
      acts := before + ShutdownActions(e, e in busy);
      Mark(e);
      draining := draining - multiset{e};
      if e in busy { SpawnCancelTask(e); } else { CancelService(e); }
    }

    /** `shutdown_all_mcp_connections`, run by itself: the pool is empty, and every connection it
        held is shut down. `busy` are those whose lock is not released within the bounded wait. */
    method Shutdown(busy: set<nat>) returns (ghost acts: seq<Action>)
      requires Inv(View())
      modifies this
      ensures Inv(View()) && Steps(old(View()), acts, View())
      ensures connections == map[] && draining == old(draining)
      ensures forall s | s in old(connections) :: ShutDown(View(), old(connections[s]), old(connections[s]) in busy)
    {
      ghost var from := View();
      var taken := TakeAll();
      ShutdownStarts(from, taken, busy);
      acts := [Action.TakeAll];
      ghost var done := [];
      var rest := taken;
      assert [] + taken == taken;
      while rest != []
        invariant done + rest == taken
        invariant ShuttingDown(from, acts, View(), rest, done, busy)
        decreases |rest|
      {
        var e := rest[0];
        assert rest == [e] + rest[1..];
        Associate(done, [e], rest[1..]);
        acts := ShutdownEntry(e, busy, from, acts, rest[1..], done);
        done, rest := done + [e], rest[1..];
      }
      assert done + [] == done;
      ShutdownEnds(from, acts, View(), taken, busy);
    }

    method BeginCall(c: nat, server: string, busy: bool, spawned: bool) returns (r: Option<nat>)
      requires Inv(View()) && c !in calls
      modifies this
      ensures View() == Apply(old(View()), Begin(c, server, busy, spawned)) && Inv(View())
      ensures c in calls && calls[c] == if r.Some? then First(server, r.value) else Finished(0, false)
      ensures r.Some? ==> HasService(View(), r.value)
      ensures r == GetOrCreate(old(View()), server, busy, spawned).1
    {
      StepKeepsInv(View(), Begin(c, server, busy, spawned));
      GotConnection(View(), server, busy, spawned);
      r := Acquire(server, busy, spawned);
      calls := calls[c := if r.Some? then First(server, r.value) else Finished(0, false)];
    }

    method FinishFirst(c: nat)
      requires Inv(View()) && Enabled(View(), FirstOk(c))
      modifies this`calls
      ensures View() == Apply(old(View()), FirstOk(c)) && Inv(View())
    {
      StepKeepsInv(View(), FirstOk(c));
      calls := calls[c := Finished(1, true)];
    }

    method FailFirst(c: nat)
      requires Inv(View()) && IsFirst(View(), c)
      modifies this
      ensures View() == Apply(old(View()), FirstFails(c)) && Inv(View())
    {
      StepKeepsInv(View(), FirstFails(c));
      var call := calls[c];
      Mark(call.entry);
      calls := calls[c := Failed(call.server, call.entry)];
    }

    /** Invalidates the failed connection and gets another one under one pool lock. */
    method Retry(c: nat, busy: bool, spawned: bool) returns (r: Option<nat>)
      requires Inv(View()) && IsFailed(View(), c)
      modifies this
      ensures View() == Apply(old(View()), Reconnect(c, busy, spawned)) && Inv(View())
      ensures c in calls && calls[c] ==
        if r.Some? then Second(old(calls[c].server), old(calls[c].entry), r.value) else Finished(1, false)
      ensures r.Some? ==> HasService(View(), r.value) && r.value != old(calls[c].entry)
      ensures r.None? ==> !spawned
      ensures old(calls[c].server in connections ==> IsDead(View(), connections[calls[c].server])) ==>
        (r.Some? <==> spawned)
    {
      StepKeepsInv(View(), Reconnect(c, busy, spawned));
      var call := calls[c];
      assert CallOk(View(), c);
      DiscardKeeps(View(), call.server);
      ReplacementIsOther(View(), call.server, call.entry, busy, spawned);
      GotConnection(Invalidate(View(), call.server), call.server, busy, spawned);
      Evict(call.server);
      r := Acquire(call.server, busy, spawned);
      calls := calls[c := if r.Some? then Second(call.server, call.entry, r.value) else Finished(1, false)];
    }

    method FinishSecond(c: nat, ok: bool)
      requires Inv(View()) && IsSecond(View(), c) && HasService(View(), calls[c].retry)
      modifies this
      ensures View() == Apply(old(View()), if ok then SecondOk(c) else SecondFails(c)) && Inv(View())
    {
      StepKeepsInv(View(), if ok then SecondOk(c) else SecondFails(c));
      if !ok { Mark(calls[c].retry); }
      calls := calls[c := Finished(2, ok)];
    }

    /** `tool_call`, run by itself: no attempt only if no connection could be had; one attempt if
        it succeeds, or if it fails and no new connection can be had; otherwise exactly two, the
        second on another connection, and its outcome counts. */
    method ToolCall(c: nat, server: string, o: Outcomes) returns (ok: bool, ghost acts: seq<Action>)
      requires Inv(View()) && c !in calls
      modifies this
      ensures Inv(View()) && Steps(old(View()), acts, View())
      ensures c in calls && calls[c].Finished? && calls[c].ok == ok
      ensures var pooled := server in old(connections)
          && old(connections[server]) < |old(entries)| && !old(entries)[old(connections[server])].dead;
        if !o.spawned && !pooled then
          calls[c].attempts == 0 && !ok && acts == [Begin(c, server, o.busy, o.spawned)]
        else if o.ok then
          calls[c].attempts == 1 && ok && acts == [Begin(c, server, o.busy, o.spawned), FirstOk(c)]
        else if !o.spawnedAgain then
          && calls[c].attempts == 1 && !ok
          && acts == [Begin(c, server, o.busy, o.spawned), FirstFails(c), Reconnect(c, o.busyAgain, o.spawnedAgain)]
        else
          && calls[c].attempts == 2 && ok == o.okAgain
          && acts == [Begin(c, server, o.busy, o.spawned), FirstFails(c), Reconnect(c, o.busyAgain, o.spawnedAgain),
                      if o.okAgain then SecondOk(c) else SecondFails(c)]
    {
      FirstConnectionIff(View(), server, o.busy, o.spawned);
      var first := BeginCall(c, server, o.busy, o.spawned);
      acts := [Begin(c, server, o.busy, o.spawned)];
      assert acts[1..] == [];
      ok := false;
      if first.Some? { ok, acts := Attempt(c, o, old(View()), acts); }
    }

    /** The first attempt of `tool_call`, on the pool's connection, and what follows from it. */
    method Attempt(c: nat, o: Outcomes, ghost from: State, ghost before: seq<Action>)
      returns (ok: bool, ghost acts: seq<Action>)
      requires Inv(View()) && IsFirst(View(), c) && HasService(View(), calls[c].entry) && Steps(from, before, View())
      requires calls[c].server in connections && connections[calls[c].server] == calls[c].entry
      modifies this
      ensures Inv(View()) && Steps(from, acts, View())
      ensures c in calls && calls[c] ==
        if o.ok then Finished(1, true) else if o.spawnedAgain then Finished(2, o.okAgain) else Finished(1, false)
      ensures ok <==> o.ok || (o.spawnedAgain && o.okAgain)
      ensures o.ok ==> acts == before + [FirstOk(c)]
      ensures !o.ok ==>
        acts == before + [FirstFails(c), Reconnect(c, o.busyAgain, o.spawnedAgain)] +
          (if o.spawnedAgain then [if o.okAgain then SecondOk(c) else SecondFails(c)] else [])
    {
      if o.ok {
        StepsAppend(from, before, View(), FirstOk(c));
        FinishFirst(c);
        return true, before + [FirstOk(c)];
      }
      StepsAppend(from, before, View(), FirstFails(c));
      FailFirst(c);
      ok, acts := CallAgain(c, o, from, before + [FirstFails(c)]);
    }

    /** The second half of `tool_call`, where nobody else has replaced the failed connection. */
    method CallAgain(c: nat, o: Outcomes, ghost from: State, ghost before: seq<Action>)
      returns (ok: bool, ghost acts: seq<Action>)
      requires Inv(View()) && IsFailed(View(), c) && Steps(from, before, View())
      requires calls[c].server in connections ==> IsDead(View(), connections[calls[c].server])
      modifies this
      ensures Inv(View()) && Steps(from, acts, View())
      ensures c in calls && calls[c] == if o.spawnedAgain then Finished(2, o.okAgain) else Finished(1, false)
      ensures ok <==> o.spawnedAgain && o.okAgain
      ensures acts == before + [Reconnect(c, o.busyAgain, o.spawnedAgain)] +
        (if o.spawnedAgain then [if o.okAgain then SecondOk(c) else SecondFails(c)] else [])
    {
      acts := before;
      var a := Reconnect(c, o.busyAgain, o.spawnedAgain);
      StepsAppend(from, acts, View(), a);
      acts := acts + [a];
      assert acts + [] == acts;
      var second := Retry(c, o.busyAgain, o.spawnedAgain);
      if second.None? { return false, acts; }
      a := if o.okAgain then SecondOk(c) else SecondFails(c);
      StepsAppend(from, acts, View(), a);
      acts := acts + [a];
      FinishSecond(c, o.okAgain);
      ok := o.okAgain;
    }
  }

  /** A connection can be had exactly if a process can be started or the pool holds a connection
      that no call has failed on. */
  lemma FirstConnectionIff(st: State, server: string, busy: bool, spawned: bool)
    requires EntriesOk(st) && SlotsOk(st)
    ensures var pooled := server in st.pool && st.pool[server] < |st.entries| && !st.entries[st.pool[server]].dead;
      var (next, r) := GetOrCreate(st, server, busy, spawned);
      && (r.Some? <==> spawned || pooled)
      && (r.Some? ==> server in next.pool && next.pool[server] == r.value)
  {
    if server in st.pool {
      assert SlotOk(st, server);
      assert EntryOk(st, st.pool[server]);
    }
  }
}
