/** Bounded memory per flow: the ids a flow has executed, and the iterations it has used.

    Both agents keep one table keyed by the flow's key, and the keys in order of insertion; a
    new key beyond the capacity evicts the oldest one. */
module FlowMemory {
  import opened Options
  import opened Sequences

  const MAX_TRACKED_CTX_KEYS: nat := 1024

  /** `inserted` lists every insertion of a key since the last stop; the agents do not store it. */
  datatype Tracked<V> = Tracked(table: map<string, V>, order: seq<string>, inserted: seq<string>)

  function Blank<V>(): Tracked<V> { Tracked(map[], [], []) }

  predicate Full(order: seq<string>) { |order| >= MAX_TRACKED_CTX_KEYS }

  /** The order after inserting a new key. */
  function NextOrder(order: seq<string>, key: string): seq<string> {
    (if Full(order) then order[1..] else order) + [key]
  }

  function Put<V>(t: Tracked<V>, key: string, value: V): Tracked<V> {
    if key in t.table then t.(table := t.table[key := value])
    else
      Tracked((if Full(t.order) then t.table - {t.order[0]} else t.table)[key := value],
              NextOrder(t.order, key), t.inserted + [key])
  }

  function Least(a: nat, b: nat): nat { if a < b then a else b }

  /** The order is the newest insertions, at most as many as the capacity. */
  predicate Window(order: seq<string>, inserted: seq<string>) {
    && |order| == Least(|inserted|, MAX_TRACKED_CTX_KEYS)
    && order == inserted[|inserted| - |order|..]
  }

  ghost predicate SameKeys<V>(t: Tracked<V>) { forall k :: k in t.order <==> k in t.table }

  /** The order lists exactly the keys of the table, once each, in insertion order. */
  ghost predicate Fifo<V>(t: Tracked<V>) {
    Distinct(t.order) && SameKeys(t) && Window(t.order, t.inserted)
  }

  lemma NextWindow(order: seq<string>, inserted: seq<string>, key: string)
    requires Distinct(order) && Window(order, inserted) && key !in order
    ensures Distinct(NextOrder(order, key)) && Window(NextOrder(order, key), inserted + [key])
  {}

  lemma InNextOrder(order: seq<string>, key: string, k: string)
    requires Distinct(order)
    ensures k in NextOrder(order, key) <==> k == key || (k in order && !(Full(order) && k == order[0]))
  {
    if Full(order) { assert order == [order[0]] + order[1..]; }
  }

  lemma PutKeepsFifo<V>(t: Tracked<V>, key: string, value: V)
    requires Fifo(t)
    ensures Fifo(Put(t, key, value))
  {
    var next := Put(t, key, value);
    if key !in t.table {
      NextWindow(t.order, t.inserted, key);
      forall k ensures k in next.order <==> k in next.table { InNextOrder(t.order, key, k); }
    }
  }

  /** The latest insertion of a key. */
  function SlotOf(inserted: seq<string>, key: string): (p: nat)
    requires key in inserted
    ensures p < |inserted| && inserted[p] == key && forall q | p < q < |inserted| :: inserted[q] != key
  {
    var n := |inserted| - 1;
    if inserted[n] == key then n
    else
      assert inserted == inserted[..n] + [inserted[n]];
      SlotOf(inserted[..n], key)
  }

  /** The insertion at p is among the newest, as many as the capacity. */
  predicate Live<V>(t: Tracked<V>, p: nat) {
    p < |t.inserted| && |t.inserted| - p <= MAX_TRACKED_CTX_KEYS
  }

  /** A key is in the table exactly while fewer than 1024 newer keys have been inserted. */
  lemma TrackedIffLive<V>(t: Tracked<V>, key: string)
    requires Fifo(t)
    ensures key in t.table <==> key in t.inserted && Live(t, SlotOf(t.inserted, key))
    ensures key in t.table <==> key in t.inserted && |t.inserted| - 1 - SlotOf(t.inserted, key) < 1024
  {
    WindowIsLive(t.order, t.inserted, key);
  }

  lemma WindowIsLive(order: seq<string>, inserted: seq<string>, key: string)
    requires Window(order, inserted)
    ensures key in order <==> key in inserted && |inserted| - SlotOf(inserted, key) <= MAX_TRACKED_CTX_KEYS
  {
    var from := |inserted| - |order|;
    if key in order {
      var i :| 0 <= i < |order| && order[i] == key;
      assert inserted[from + i] == key;
    }
    if key in inserted && |inserted| - SlotOf(inserted, key) <= MAX_TRACKED_CTX_KEYS {
      assert order[SlotOf(inserted, key) - from] == key;
    }
  }

  /** What inserting a new key does to a key whose insertion at p is live. */
  lemma PutNew<V>(t: Tracked<V>, k: string, value: V, key: string, p: nat)
    requires Fifo(t) && k !in t.table && Live(t, p) && t.inserted[p] == key
    ensures k != key
    ensures var next := Put(t, k, value);
      if Live(next, p) then key in next.table && next.table[key] == t.table[key] else key !in next.table
  {
    LiveIsListed(t.order, t.inserted, p);
    assert key in t.order;
  }

  lemma LiveIsListed(order: seq<string>, inserted: seq<string>, p: nat)
    requires Window(order, inserted) && Distinct(order) && p < |inserted| && |inserted| - p <= MAX_TRACKED_CTX_KEYS
    ensures inserted[p] in order
    ensures Full(order) ==> (inserted[p] == order[0] <==> |inserted| - p == MAX_TRACKED_CTX_KEYS)
  {
    var i := p - (|inserted| - |order|);
    assert order[i] == inserted[p];
  }

  // ---------------------------------------------------------------- executed calls

  /** Which calls of a message have an id, in order. */
  type Calls = seq<Option<string>>

  type Executed = Tracked<set<string>>

  /** A final message of a flow, with the calls its tool filter left; or the agent stops. */
  datatype Event = Deliver(key: string, calls: Calls) | Stop

  predicate IsExecuted(t: Executed, key: string, id: string) { key in t.table && id in t.table[key] }

  predicate Skipped(t: Executed, key: string, call: Option<string>) { call.Some? && IsExecuted(t, key, call.value) }

  /** The calls of a message that run. */
  function Runs(t: Executed, key: string, calls: Calls): Calls {
    if calls == [] then []
    else (if Skipped(t, key, calls[0]) then [] else [calls[0]]) + Runs(t, key, calls[1..])
  }

  /** `mark_executed`. */
  function Mark(t: Executed, key: string, id: string): Executed {
    Put(t, key, (if key in t.table then t.table[key] else {}) + {id})
  }

  function MarkAll(t: Executed, key: string, calls: Calls): Executed
    decreases |calls|
  {
    if calls == [] then t
    else MarkAll(if calls[0].Some? then Mark(t, key, calls[0].value) else t, key, calls[1..])
  }

  function Apply(t: Executed, e: Event): Executed {
    match e
    case Deliver(key, calls) => MarkAll(t, key, Runs(t, key, calls))
    case Stop => Blank()
  }

  function After(evs: seq<Event>): Executed {
    if evs == [] then Blank() else Apply(After(evs[..|evs| - 1]), evs[|evs| - 1])
  }

  /** The call with this id runs in event m of the history. */
  predicate RunsAt(evs: seq<Event>, m: nat, key: string, id: string)
    requires m < |evs|
  {
    evs[m].Deliver? && evs[m].key == key && Some(id) in Runs(After(evs[..m]), key, evs[m].calls)
  }

  lemma {:induction false} InRuns(t: Executed, key: string, calls: Calls, call: Option<string>)
    ensures call in Runs(t, key, calls) <==> call in calls && !Skipped(t, key, call)
  {
    if calls != [] {
      InRuns(t, key, calls[1..], call);
      assert calls == [calls[0]] + calls[1..];
    }
  }

  lemma {:induction false} MarkAllKeepsFifo(t: Executed, key: string, calls: Calls)
    requires Fifo(t)
    ensures Fifo(MarkAll(t, key, calls))
    decreases |calls|
  {
    if calls != [] {
      if calls[0].Some? {
        var id := calls[0].value;
        PutKeepsFifo(t, key, (if key in t.table then t.table[key] else {}) + {id});
        MarkAllKeepsFifo(Mark(t, key, id), key, calls[1..]);
      } else {
        MarkAllKeepsFifo(t, key, calls[1..]);
      }
    }
  }

  /** In every history the order lists exactly the remembered flows, without repetition, in
      insertion order, at most 1024 of them. */
  lemma {:induction false} MemoryIsFifo(evs: seq<Event>)
    ensures Fifo(After(evs)) && |After(evs).order| <= 1024
  {
    if evs != [] {
      var before := evs[..|evs| - 1];
      MemoryIsFifo(before);
      var e := evs[|evs| - 1];
      if e.Deliver? { MarkAllKeepsFifo(After(before), e.key, Runs(After(before), e.key, e.calls)); }
    }
  }

  /** The id was marked under the insertion p of its key: it is remembered exactly while that
      insertion is live. */
  predicate Remembers(t: Executed, key: string, id: string, p: nat) {
    && p < |t.inserted| && t.inserted[p] == key
    && (IsExecuted(t, key, id) <==> Live(t, p))
  }

  lemma MarkKeepsRemembering(t: Executed, key: string, id: string, p: nat, k: string, x: string)
    requires Fifo(t) && Remembers(t, key, id, p)
    requires k == key && x == id ==> Live(t, p)
    ensures Remembers(Mark(t, k, x), key, id, p)
  {
    if k !in t.table && Live(t, p) { PutNew(t, k, {x}, key, p); }
    if k !in t.table { assert {} + {x} == {x}; }
  }

  lemma {:induction false} MarkAllKeepsRemembering(t: Executed, key: string, id: string, p: nat, k: string,
                                                   calls: Calls)
    requires Fifo(t) && Remembers(t, key, id, p)
    requires k == key && Some(id) in calls ==> Live(t, p)
    ensures Remembers(MarkAll(t, k, calls), key, id, p)
    decreases |calls|
  {
    if calls != [] {
      assert calls == [calls[0]] + calls[1..];
      if calls[0].Some? {
        var x := calls[0].value;
        MarkKeepsRemembering(t, key, id, p, k, x);
        PutKeepsFifo(t, k, (if k in t.table then t.table[k] else {}) + {x});
        if k == key && Some(id) in calls { StaysTracked(t, key, id, p, x); }
        MarkAllKeepsRemembering(Mark(t, k, x), key, id, p, k, calls[1..]);
      } else {
        MarkAllKeepsRemembering(t, key, id, p, k, calls[1..]);
      }
    }
  }

  /** Marking another id of a remembered flow inserts nothing. */
  lemma StaysTracked(t: Executed, key: string, id: string, p: nat, x: string)
    requires Remembers(t, key, id, p) && Live(t, p)
    ensures Live(Mark(t, key, x), p)
  {}

  /** The id is remembered under the latest insertion of its key. */
  predicate Marked(t: Executed, key: string, id: string) {
    key in t.inserted && Live(t, SlotOf(t.inserted, key)) && IsExecuted(t, key, id)
  }

  lemma MarkOne(t: Executed, key: string, id: string)
    requires Fifo(t)
    ensures Fifo(Mark(t, key, id)) && Marked(Mark(t, key, id), key, id)
  {
    PutKeepsFifo(t, key, (if key in t.table then t.table[key] else {}) + {id});
    TrackedIffLive(Mark(t, key, id), key);
  }

  lemma MarkKeepsMarked(t: Executed, key: string, id: string, x: string)
    requires Fifo(t) && Marked(t, key, id)
    ensures Marked(Mark(t, key, x), key, id)
  {}

  lemma {:induction false} MarkAllKeepsMarked(t: Executed, key: string, calls: Calls, id: string)
    requires Fifo(t) && Marked(t, key, id)
    ensures Marked(MarkAll(t, key, calls), key, id)
    decreases |calls|
  {
    if calls != [] {
      if calls[0].Some? {
        MarkOne(t, key, calls[0].value);
        MarkKeepsMarked(t, key, id, calls[0].value);
        MarkAllKeepsMarked(Mark(t, key, calls[0].value), key, calls[1..], id);
      } else {
        MarkAllKeepsMarked(t, key, calls[1..], id);
      }
    }
  }

  lemma {:induction false} MarkAllMarks(t: Executed, key: string, calls: Calls, id: string)
    requires Fifo(t) && Some(id) in calls
    ensures Marked(MarkAll(t, key, calls), key, id)
    decreases |calls|
  {
    assert calls == [calls[0]] + calls[1..];
    if calls[0] == Some(id) {
      MarkOne(t, key, id);
      MarkAllKeepsMarked(Mark(t, key, id), key, calls[1..], id);
    } else if calls[0].Some? {
      MarkOne(t, key, calls[0].value);
      MarkAllMarks(Mark(t, key, calls[0].value), key, calls[1..], id);
    } else {
      MarkAllMarks(t, key, calls[1..], id);
    }
  }

  predicate NoStop(evs: seq<Event>, i: nat, j: nat)
    requires j <= |evs|
  {
    forall m | i <= m < j :: !evs[m].Stop?
  }

  /** Along the history after event i, until the id runs again. */
  ghost predicate Trail(evs: seq<Event>, i: nat, j: nat, key: string, id: string, p: nat)
    requires i < j <= |evs|
  {
    var t := After(evs[..j]);
    if NoStop(evs, i + 1, j) then Remembers(t, key, id, p) else !IsExecuted(t, key, id)
  }

  lemma {:induction false} NotMarked(t: Executed, key: string, calls: Calls, k: string, id: string)
    requires !IsExecuted(t, key, id) && (k == key ==> Some(id) !in calls)
    ensures !IsExecuted(MarkAll(t, k, calls), key, id)
    decreases |calls|
  {
    if calls != [] {
      assert calls == [calls[0]] + calls[1..];
      NotMarked(if calls[0].Some? then Mark(t, k, calls[0].value) else t, key, calls[1..], k, id);
    }
  }

  lemma TrailStep(evs: seq<Event>, i: nat, j: nat, key: string, id: string, p: nat)
    requires i < j < |evs| && Trail(evs, i, j, key, id, p) && !RunsAt(evs, j, key, id)
    ensures Trail(evs, i, j + 1, key, id, p)
  {
    var t, e := After(evs[..j]), evs[j];
    assert evs[..j + 1][..j] == evs[..j] && evs[..j + 1][j] == e;
    MemoryIsFifo(evs[..j]);
    if e.Deliver? {
      var runs := Runs(t, e.key, e.calls);
      InRuns(t, e.key, e.calls, Some(id));
      if NoStop(evs, i + 1, j) {
        MarkAllKeepsRemembering(t, key, id, p, e.key, runs);
      } else {
        NotMarked(t, key, runs, e.key, id);
      }
    }
  }

  lemma TrailStarts(evs: seq<Event>, i: nat, key: string, id: string)
    requires i < |evs| && RunsAt(evs, i, key, id)
    ensures Marked(After(evs[..i + 1]), key, id)
    ensures Trail(evs, i, i + 1, key, id, SlotOf(After(evs[..i + 1]).inserted, key))
  {
    var t := After(evs[..i]);
    assert evs[..i + 1][..i] == evs[..i] && evs[..i + 1][i] == evs[i];
    MemoryIsFifo(evs[..i]);
    MarkAllMarks(t, key, Runs(t, key, evs[i].calls), id);
  }

  lemma {:induction false} TrailAlong(evs: seq<Event>, i: nat, j: nat, key: string, id: string)
    requires i < j <= |evs| && RunsAt(evs, i, key, id)
    requires forall m | i < m < j :: !RunsAt(evs, m, key, id)
    ensures Marked(After(evs[..i + 1]), key, id)
    ensures Trail(evs, i, j, key, id, SlotOf(After(evs[..i + 1]).inserted, key))
    decreases j
  {
    TrailStarts(evs, i, key, id);
    if i + 1 < j {
      TrailAlong(evs, i, j - 1, key, id);
      TrailStep(evs, i, j - 1, key, id, SlotOf(After(evs[..i + 1]).inserted, key));
    }
  }

  /** An id that ran for a flow is skipped in a later message of the flow exactly if the agent
      did not stop in between and fewer than 1024 newer keys were inserted since the flow's. */
  lemma SkippedAgainIff(evs: seq<Event>, i: nat, j: nat, key: string, id: string)
    requires i < j < |evs| && RunsAt(evs, i, key, id)
    requires evs[j].Deliver? && evs[j].key == key && Some(id) in evs[j].calls
    requires forall m | i < m < j :: !RunsAt(evs, m, key, id)
    ensures key in After(evs[..i + 1]).inserted
    ensures !RunsAt(evs, j, key, id) <==>
      && NoStop(evs, i + 1, j)
      && |After(evs[..j]).inserted| - 1 - SlotOf(After(evs[..i + 1]).inserted, key) < MAX_TRACKED_CTX_KEYS
  {
    TrailAlong(evs, i, j, key, id);
    InRuns(After(evs[..j]), key, evs[j].calls, Some(id));
  }

  // ------------------------------------------------------------ how often an id runs

  /** Deduplication looks at earlier messages only: an id that is not executed yet runs as
      often as the message lists it. */
  lemma {:induction false} RunsAsOftenAsListed(t: Executed, key: string, calls: Calls, id: string)
    ensures Count(Runs(t, key, calls), Some(id)) == if IsExecuted(t, key, id) then 0 else Count(calls, Some(id))
  {
    if calls != [] {
      RunsAsOftenAsListed(t, key, calls[1..], id);
      var rest := Runs(t, key, calls[1..]);
      if Skipped(t, key, calls[0]) { assert [] + rest == rest; } else { assert ([calls[0]] + rest)[1..] == rest; }
    }
  }

  /** So at most one call of a message runs under an id exactly if the id is executed already
      or the message lists it at most once. */
  lemma RunsOnceIff(t: Executed, key: string, calls: Calls, id: string)
    ensures Count(Runs(t, key, calls), Some(id)) <= 1 <==> IsExecuted(t, key, id) || Count(calls, Some(id)) <= 1
  {
    RunsAsOftenAsListed(t, key, calls, id);
  }

  /** A message that lists a new id twice runs it twice. */
  lemma EqualIdsRunTwice(key: string, id: string)
    ensures Count(Runs(Blank(), key, [Some(id), Some(id)]), Some(id)) == 2
  {
    var calls := [Some(id), Some(id)];
    assert calls[1..] == [Some(id)] && calls[1..][1..] == [];
    assert Count(calls, Some(id)) == 1 + Count(calls[1..], Some(id));
    RunsAsOftenAsListed(Blank(), key, calls, id);
  }

  lemma {:induction false} RunsOfOneMore(t: Executed, key: string, calls: Calls, call: Option<string>)
    ensures Runs(t, key, calls + [call]) == Runs(t, key, calls) + if Skipped(t, key, call) then [] else [call]
  {
    if calls == [] {
      assert calls + [call] == [call] && [call][1..] == [];
    } else {
      RunsOfOneMore(t, key, calls[1..], call);
      assert (calls + [call])[1..] == calls[1..] + [call];
    }
  }

  /** Which calls of a message run, and in which order: those without an id and those whose id is
      not remembered for the flow, in the order of the message. */
  lemma {:induction false} RunsInOrder(t: Executed, key: string, calls: Calls) returns (at: seq<nat>)
    ensures |at| == |Runs(t, key, calls)|
    ensures forall k, l | 0 <= k < l < |at| :: at[k] < at[l]
    ensures forall k | 0 <= k < |at| :: at[k] < |calls| && Runs(t, key, calls)[k] == calls[at[k]]
    ensures forall i: nat | i < |calls| ::
      i in at <==> calls[i].None? || key !in t.table || calls[i].value !in t.table[key]
  {
    at := [];
    if calls != [] {
      var n := |calls| - 1;
      var before, call := calls[..n], calls[n];
      assert calls == before + [call];
      at := RunsInOrder(t, key, before);
      RunsOfOneMore(t, key, before, call);
      assert forall i: nat | i < n :: before[i] == calls[i];
      if !Skipped(t, key, call) { at := at + [n]; }
    }
  }

  /** How often the id has run for the flow in a whole history. */
  function Executions(evs: seq<Event>, key: string, id: string): nat {
    if evs == [] then 0
    else
      var before, e := evs[..|evs| - 1], evs[|evs| - 1];
      Executions(before, key, id)
      + if e.Deliver? && e.key == key then Count(Runs(After(before), key, e.calls), Some(id)) else 0
  }

  predicate Names(e: Event, key: string, id: string) { e.Deliver? && e.key == key && Some(id) in e.calls }

  lemma ExecutionsStep(evs: seq<Event>, j: nat, key: string, id: string)
    requires j < |evs|
    ensures Executions(evs[..j + 1], key, id) == Executions(evs[..j], key, id)
      + if RunsAt(evs, j, key, id) then Count(evs[j].calls, Some(id)) else 0
  {
    assert evs[..j + 1][..j] == evs[..j] && evs[..j + 1][j] == evs[j];
    if evs[j].Deliver? && evs[j].key == key {
      RunsAsOftenAsListed(After(evs[..j]), key, evs[j].calls, id);
      InRuns(After(evs[..j]), key, evs[j].calls, Some(id));
      CountIsZeroIff(evs[j].calls, Some(id));
    }
  }

  lemma {:induction false} NothingBeforeFirst(evs: seq<Event>, i: nat, key: string, id: string)
    requires i <= |evs| && forall m | 0 <= m < i :: !Names(evs[m], key, id)
    ensures Executions(evs[..i], key, id) == 0 && !IsExecuted(After(evs[..i]), key, id)
  {
    if i > 0 {
      NothingBeforeFirst(evs, i - 1, key, id);
      ExecutionsStep(evs, i - 1, key, id);
      var t, e := After(evs[..i - 1]), evs[i - 1];
      assert evs[..i][..i - 1] == evs[..i - 1] && evs[..i][i - 1] == e;
      if e.Deliver? {
        InRuns(t, e.key, e.calls, Some(id));
        NotMarked(t, key, Runs(t, e.key, e.calls), e.key, id);
      }
    }
  }

  /** The flow is still remembered before event j: no stop, and fewer than 1024 newer keys. */
  ghost predicate StillTracked(evs: seq<Event>, i: nat, j: nat, key: string)
    requires i < j <= |evs| && key in After(evs[..i + 1]).inserted
  {
    && NoStop(evs, i + 1, j)
    && |After(evs[..j]).inserted| - 1 - SlotOf(After(evs[..i + 1]).inserted, key) < MAX_TRACKED_CTX_KEYS
  }

  lemma {:induction false} MarkAllInserts(t: Executed, key: string, calls: Calls)
    ensures |MarkAll(t, key, calls).inserted| >= |t.inserted|
    decreases |calls|
  {
    if calls != [] { MarkAllInserts(if calls[0].Some? then Mark(t, key, calls[0].value) else t, key, calls[1..]); }
  }

  lemma TrackedBefore(evs: seq<Event>, i: nat, j: nat, key: string)
    requires i < j < |evs| && key in After(evs[..i + 1]).inserted && StillTracked(evs, i, j + 1, key)
    ensures StillTracked(evs, i, j, key)
  {
    assert evs[..j + 1][..j] == evs[..j] && evs[..j + 1][j] == evs[j];
    if evs[j].Deliver? { MarkAllInserts(After(evs[..j]), evs[j].key, Runs(After(evs[..j]), evs[j].key, evs[j].calls)); }
  }

  lemma TrackedIsSkipped(evs: seq<Event>, i: nat, j: nat, key: string, id: string)
    requires i < j < |evs| && RunsAt(evs, i, key, id) && forall m | i < m < j :: !RunsAt(evs, m, key, id)
    requires key in After(evs[..i + 1]).inserted && StillTracked(evs, i, j, key)
    ensures !RunsAt(evs, j, key, id)
  {
    if Names(evs[j], key, id) {
      SkippedAgainIff(evs, i, j, key, id);
    } else if RunsAt(evs, j, key, id) {
      InRuns(After(evs[..j]), key, evs[j].calls, Some(id));
    }
  }

  lemma {:induction false} NotRunAgain(evs: seq<Event>, i: nat, j: nat, key: string, id: string)
    requires i < j <= |evs| && RunsAt(evs, i, key, id)
    requires key in After(evs[..i + 1]).inserted && StillTracked(evs, i, j, key)
    ensures forall m | i < m < j :: !RunsAt(evs, m, key, id)
    decreases j
  {
    if i + 1 < j {
      var n := j - 1;
      TrackedBefore(evs, i, n, key);
      NotRunAgain(evs, i, n, key, id);
      TrackedIsSkipped(evs, i, n, key, id);
    }
  }

  lemma {:induction false} ExecutionsStay(evs: seq<Event>, i: nat, j: nat, key: string, id: string)
    requires i <= j <= |evs| && forall m | i <= m < j :: !RunsAt(evs, m, key, id)
    ensures Executions(evs[..j], key, id) == Executions(evs[..i], key, id)
    decreases j
  {
    if i < j {
      ExecutionsStay(evs, i, j - 1, key, id);
      ExecutionsStep(evs, j - 1, key, id);
    }
  }

  /** Over a history: from the first message of a flow that names an id, and for as long as the
      flow is remembered, the id has run exactly as often as that one message lists it, whatever
      later messages list. So it has run at most once exactly if that message lists it once. */
  lemma RunsAsOftenAsFirstListed(evs: seq<Event>, i: nat, j: nat, key: string, id: string)
    requires i < j <= |evs| && Names(evs[i], key, id) && forall m | 0 <= m < i :: !Names(evs[m], key, id)
    ensures key in After(evs[..i + 1]).inserted
    ensures StillTracked(evs, i, j, key) ==>
      && Executions(evs[..j], key, id) == Count(evs[i].calls, Some(id))
      && (Executions(evs[..j], key, id) <= 1 <==> Count(evs[i].calls, Some(id)) == 1)
  {
    NothingBeforeFirst(evs, i, key, id);
    InRuns(After(evs[..i]), key, evs[i].calls, Some(id));
    TrailStarts(evs, i, key, id);
    ExecutionsStep(evs, i, key, id);
    CountIsZeroIff(evs[i].calls, Some(id));
    if StillTracked(evs, i, j, key) {
      NotRunAgain(evs, i, j, key, id);
      ExecutionsStay(evs, i + 1, j, key, id);
    }
  }

  /** What reaches the agent: a final message with or without tool calls, or anything else. */
  datatype Incoming = Final(calls: Option<Calls>, truncated: bool) | Other

  class CallToolMessageAgent {
    var executed: map<string, set<string>>
    var ctxKeyOrder: seq<string>
    ghost var inserted: seq<string>

    ghost function View(): Executed
      reads this
    {
      Tracked(executed, ctxKeyOrder, inserted)
    }

    constructor ()
      ensures View() == After([])
    {
      executed, ctxKeyOrder, inserted := map[], [], [];
    }

    method MarkExecuted(key: string, id: string)
      requires Fifo(View())
      modifies this
      ensures View() == Mark(old(View()), key, id)
    {
      if key !in executed {
        if |ctxKeyOrder| >= MAX_TRACKED_CTX_KEYS {
          var oldest := ctxKeyOrder[0];
          ctxKeyOrder := ctxKeyOrder[1..];
          executed := executed - {oldest};
        }
        ctxKeyOrder := ctxKeyOrder + [key];
        inserted := inserted + [key];
      }
      executed := executed[key := (if key in executed then executed[key] else {}) + {id}];
    }

    /** `process`: the calls to execute, and those refused because the message was cut short. */
    method Process(key: string, message: Incoming) returns (run: Calls, refused: Calls)
      requires Fifo(View())
      modifies this
      ensures Fifo(View())
      ensures message.Final? && message.calls.Some? ==>
        && View() == Apply(old(View()), Deliver(key, message.calls.value))
        && (if message.truncated then refused else run) == Runs(old(View()), key, message.calls.value)
        && (if message.truncated then run else refused) == []
      ensures message.Other? || message.calls.None? ==> View() == old(View()) && run == refused == []
    {
      run, refused := [], [];
      if message.Other? || message.calls.None? { return; }
      var calls := Unexecuted(key, message.calls.value);
      MarkAllKeepsFifo(View(), key, calls);
      RecordCalls(key, calls);
      if message.truncated { refused := calls; } else { run := calls; }
    }

    method Unexecuted(key: string, calls: Calls) returns (kept: Calls)
      ensures kept == Runs(View(), key, calls)
    {
      ghost var t := View();
      kept := [];
      var rest := calls;
      assert kept + Runs(t, key, calls) == Runs(t, key, calls);
      while rest != []
        invariant Runs(t, key, calls) == kept + Runs(t, key, rest)
        decreases |rest|
      {
        var call := rest[0];
        var seen := call.Some? && key in executed && call.value in executed[key];
        Associate(kept, if seen then [] else [call], Runs(t, key, rest[1..]));
        if !seen { kept := kept + [call]; } else { assert kept + [] == kept; }
        rest := rest[1..];
      }
      assert kept + [] == kept;
    }

    method RecordCalls(key: string, calls: Calls)
      requires Fifo(View())
      modifies this
      ensures View() == MarkAll(old(View()), key, calls)
    {
      ghost var all := MarkAll(View(), key, calls);
      var rest := calls;
      while rest != []
        invariant Fifo(View()) && MarkAll(View(), key, rest) == all
        decreases |rest|
      {
        if rest[0].Some? {
          MarkOne(View(), key, rest[0].value);
          MarkExecuted(key, rest[0].value);
        }
        rest := rest[1..];
      }
    }

    method StopAgent()
      modifies this
      ensures View() == Apply(old(View()), Stop)
    {
      executed, ctxKeyOrder, inserted := map[], [], [];
    }
  }
}
