/** The loop guard: a budget of tool-call iterations per flow. */
module LoopControl {
  import opened Options
  import opened FlowMemory

  const U32_MAX: nat := 0xFFFF_FFFF

  /** The iterations counted for a flow, and the id of the message counted last. */
  type Counts = Tracked<(nat, Option<string>)>

  /** A value that reaches the agent: a final assistant message with tool calls is countable,
      anything else passes through. Or the agent stops. */
  datatype Arrival = Countable(key: string, id: Option<string>) | PassThrough | Stop

  datatype Output = Forwarded | Notice | Nothing

  function CountOf(t: Counts, key: string): (nat, Option<string>) {
    if key in t.table then t.table[key] else (0, None)
  }

  predicate Exceeded(count: nat, max: int) { max > 0 && count > max }

  function SaturatingSucc(n: nat): nat { if n >= U32_MAX then U32_MAX else n + 1 }

  predicate Redelivery(a: Arrival, last: Option<string>) { a.Countable? && a.id.Some? && last == a.id }

  function Step(t: Counts, a: Arrival, max: int): (Counts, Output) {
    match a
    case PassThrough => (t, Forwarded)
    case Stop => (Blank(), Nothing)
    case Countable(key, id) =>
      var (count, last) := CountOf(t, key);
      if Redelivery(a, last) then (t, if Exceeded(count, max) then Nothing else Forwarded)
      else
        var next := SaturatingSucc(count);
        (Put(t, key, (next, id)), if Exceeded(next, max) then Notice else Forwarded)
  }

  function Last(arrivals: seq<Arrival>): Arrival
    requires arrivals != []
  {
    arrivals[|arrivals| - 1]
  }

  function AllButLast(arrivals: seq<Arrival>): seq<Arrival>
    requires arrivals != []
  {
    arrivals[..|arrivals| - 1]
  }

  function After(arrivals: seq<Arrival>, max: int): Counts {
    if arrivals == [] then Blank() else Step(After(AllButLast(arrivals), max), Last(arrivals), max).0
  }

  function OutputOf(arrivals: seq<Arrival>, max: int): Output
    requires arrivals != []
  {
    Step(After(AllButLast(arrivals), max), Last(arrivals), max).1
  }

  // ---- the flow as its sender sees it

  /** How many fresh countable messages a flow has had since the last stop, and the id of the latest. */
  function Fresh(arrivals: seq<Arrival>, key: string): (nat, Option<string>) {
    if arrivals == [] then (0, None)
    else
      Extend(Fresh(AllButLast(arrivals), key), Last(arrivals), key)
  }

  predicate IsFresh(arrivals: seq<Arrival>, key: string)
    requires arrivals != []
  {
    Last(arrivals).Countable? && Last(arrivals).key == key
    && !Redelivery(Last(arrivals), Fresh(AllButLast(arrivals), key).1)
  }

  /** How many fresh messages of the flow had this output. */
  function FreshWith(arrivals: seq<Arrival>, key: string, max: int, output: Output): nat {
    if arrivals == [] || Last(arrivals).Stop? then 0
    else
      FreshWith(AllButLast(arrivals), key, max, output)
      + if IsFresh(arrivals, key) && OutputOf(arrivals, max) == output then 1 else 0
  }

  /** The flow was never evicted: whenever it had been counted, fewer than 1024 flows were
      inserted after it. */
  predicate NeverEvicted(arrivals: seq<Arrival>, key: string, max: int) {
    && NotEvicted(After(arrivals, max), key)
    && (arrivals != [] ==> NeverEvicted(AllButLast(arrivals), key, max))
  }

  function Saturated(n: nat): nat { if n > U32_MAX then U32_MAX else n }

  lemma {:induction false} CountsAreFifo(arrivals: seq<Arrival>, max: int)
    ensures Fifo(After(arrivals, max))
  {
    if arrivals != [] {
      CountsAreFifo(AllButLast(arrivals), max);
      var t, a := After(AllButLast(arrivals), max), Last(arrivals);
      if a.Countable? { PutKeepsFifo(t, a.key, (SaturatingSucc(CountOf(t, a.key).0), a.id)); }
    }
  }

  lemma SlotOfAppend(inserted: seq<string>, k: string, key: string)
    requires k != key
    ensures key in inserted + [k] <==> key in inserted
    ensures key in inserted ==> SlotOf(inserted + [k], key) == SlotOf(inserted, key)
  {
    assert (inserted + [k])[..|inserted|] == inserted;
  }

  /** A message of another flow, as long as it does not evict this one. */
  lemma OtherFlow(t: Counts, k: string, value: (nat, Option<string>), key: string)
    requires Fifo(t) && k != key
    requires var next := Put(t, k, value); key in next.inserted ==> Live(next, SlotOf(next.inserted, key))
    ensures var next := Put(t, k, value);
      CountOf(next, key) == CountOf(t, key) && (key in next.inserted <==> key in t.inserted)
  {
    if k !in t.table {
      SlotOfAppend(t.inserted, k, key);
      TrackedIffLive(t, key);
      PutKeepsFifo(t, k, value);
      TrackedIffLive(Put(t, k, value), key);
      if key in t.inserted { PutNew(t, k, value, key, SlotOf(t.inserted, key)); }
    }
  }

  lemma OwnFlow(t: Counts, key: string, value: (nat, Option<string>))
    requires Fifo(t)
    ensures CountOf(Put(t, key, value), key) == value && key in Put(t, key, value).inserted
  {
    TrackedIffLive(t, key);
  }

  /** The table tells how many fresh messages the flow had, and the id of the latest. */
  predicate Tells(t: Counts, key: string, history: (nat, Option<string>)) {
    && (key in t.inserted <==> history.0 > 0)
    && CountOf(t, key) == (Saturated(history.0), history.1)
    && (history.0 == 0 ==> history.1 == None)
  }

  function Extend(history: (nat, Option<string>), a: Arrival, key: string): (nat, Option<string>) {
    if a.Stop? then (0, None)
    else if a.Countable? && a.key == key && !Redelivery(a, history.1) then (history.0 + 1, a.id)
    else history
  }

  predicate NotEvicted(t: Counts, key: string) {
    key in t.inserted ==> |t.inserted| - 1 - SlotOf(t.inserted, key) < MAX_TRACKED_CTX_KEYS
  }

  lemma StepTells(t: Counts, a: Arrival, max: int, key: string, history: (nat, Option<string>))
    requires Fifo(t) && Tells(t, key, history) && NotEvicted(Step(t, a, max).0, key)
    ensures Tells(Step(t, a, max).0, key, Extend(history, a, key))
  {
    if a.Countable? && !Redelivery(a, CountOf(t, a.key).1) {
      var value := (SaturatingSucc(CountOf(t, a.key).0), a.id);
      if a.key == key { OwnFlow(t, key, value); } else { OtherFlow(t, a.key, value, key); }
    }
  }

  /** While the flow is not evicted, the table holds its exact history. */
  lemma {:induction false} TableIsHistory(arrivals: seq<Arrival>, key: string, max: int)
    requires NeverEvicted(arrivals, key, max)
    ensures Tells(After(arrivals, max), key, Fresh(arrivals, key))
  {
    if arrivals != [] {
      TableIsHistory(AllButLast(arrivals), key, max);
      CountsAreFifo(AllButLast(arrivals), max);
      StepTells(After(AllButLast(arrivals), max), Last(arrivals), max, key, Fresh(AllButLast(arrivals), key));
    }
  }

  /** The budget is exact: of n fresh messages of a flow since the last stop, the first `max` are
      forwarded and each later one gives one notice; with no limit, or one that 32 bits cannot
      exceed, all are forwarded. */
  lemma {:induction false} BudgetIsExact(arrivals: seq<Arrival>, key: string, max: int)
    requires NeverEvicted(arrivals, key, max)
    ensures var n := Fresh(arrivals, key).0;
      var allowed := if max <= 0 || max >= 0xFFFF_FFFF || n <= max then n else max;
      && FreshWith(arrivals, key, max, Forwarded) == allowed
      && FreshWith(arrivals, key, max, Notice) == n - allowed
      && FreshWith(arrivals, key, max, Nothing) == 0
  {
    if arrivals != [] {
      BudgetIsExact(AllButLast(arrivals), key, max);
      TableIsHistory(AllButLast(arrivals), key, max);
    }
  }

  // ---- which messages are fresh, read off the arrivals

  /** Arrival k is a fresh message of the flow. */
  predicate FreshAt(arrivals: seq<Arrival>, key: string, k: nat) {
    k < |arrivals| && IsFresh(arrivals[..k + 1], key)
  }

  /** Arrival m was the latest fresh message of the flow before arrival n, and the agent has not
      stopped since. */
  ghost predicate LatestFresh(arrivals: seq<Arrival>, key: string, m: nat, n: nat)
    requires n <= |arrivals|
  {
    && m < n && FreshAt(arrivals, key, m)
    && forall k: nat | m < k < n :: !FreshAt(arrivals, key, k) && !arrivals[k].Stop?
  }

  lemma LatestStep(arrivals: seq<Arrival>, key: string, m: nat, n: nat)
    requires n < |arrivals|
    ensures LatestFresh(arrivals, key, m, n + 1) <==>
      if m == n then FreshAt(arrivals, key, n)
      else LatestFresh(arrivals, key, m, n) && !FreshAt(arrivals, key, n) && !arrivals[n].Stop?
  {}

  /** A countable message of the flow repeats an earlier one exactly if it has an id and the
      message counted last since the last stop had the same. So every message without an id is
      counted, and so is one whose id was counted before the last one. */
  lemma RepeatsIff(arrivals: seq<Arrival>, key: string, n: nat)
    requires n < |arrivals| && arrivals[n].Countable? && arrivals[n].key == key
    ensures !FreshAt(arrivals, key, n) <==>
      && arrivals[n].id.Some?
      && exists m: nat ::
        LatestFresh(arrivals, key, m, n) && arrivals[m].Countable? && arrivals[m].id == arrivals[n].id
    ensures arrivals[n].id == None ==> FreshAt(arrivals, key, n)
  {
    assert AllButLast(arrivals[..n + 1]) == arrivals[..n];
    if Fresh(arrivals[..n], key).0 > 0 {
      var m := LatestIsRemembered(arrivals, key, n);
      forall k: nat | LatestFresh(arrivals, key, k, n) ensures k == m {}
    } else {
      NoneRemembered(arrivals, key, n);
    }
  }

  lemma {:induction false} LatestIsRemembered(arrivals: seq<Arrival>, key: string, n: nat) returns (m: nat)
    requires n <= |arrivals| && Fresh(arrivals[..n], key).0 > 0
    ensures LatestFresh(arrivals, key, m, n) && arrivals[m].Countable? && arrivals[m].id == Fresh(arrivals[..n], key).1
  {
    assert AllButLast(arrivals[..n]) == arrivals[..n - 1];
    if FreshAt(arrivals, key, n - 1) {
      m := n - 1;
    } else {
      m := LatestIsRemembered(arrivals, key, n - 1);
    }
    LatestStep(arrivals, key, m, n - 1);
  }

  lemma {:induction false} NoneRemembered(arrivals: seq<Arrival>, key: string, n: nat)
    requires n <= |arrivals| && Fresh(arrivals[..n], key).0 == 0
    ensures Fresh(arrivals[..n], key).1 == None
    ensures forall m: nat :: !LatestFresh(arrivals, key, m, n)
  {
    if n > 0 {
      assert AllButLast(arrivals[..n]) == arrivals[..n - 1];
      if !arrivals[n - 1].Stop? { NoneRemembered(arrivals, key, n - 1); }
      forall m: nat ensures !LatestFresh(arrivals, key, m, n) { LatestStep(arrivals, key, m, n - 1); }
    }
  }

  /** How many countable messages the flow has had since the last stop. */
  function Delivered(arrivals: seq<Arrival>, key: string): nat {
    if arrivals == [] || arrivals[|arrivals| - 1].Stop? then 0
    else
      var a := arrivals[|arrivals| - 1];
      Delivered(arrivals[..|arrivals| - 1], key) + if a.Countable? && a.key == key then 1 else 0
  }

  lemma {:induction false} WithoutIdsAllAreFresh(arrivals: seq<Arrival>, key: string)
    requires forall a | a in arrivals && a.Countable? && a.key == key :: a.id == None
    ensures Fresh(arrivals, key) == (Delivered(arrivals, key), None)
  {
    if arrivals != [] {
      WithoutIdsAllAreFresh(AllButLast(arrivals), key);
      assert Last(arrivals) in arrivals;
    }
  }

  /** Of n messages of a flow without ids exactly min(n, max) are forwarded, for a limit in range,
      and each other one gives a notice. */
  lemma BudgetWithoutIds(arrivals: seq<Arrival>, key: string, max: int)
    requires NeverEvicted(arrivals, key, max) && 1 <= max < 0xFFFF_FFFF
    requires forall a | a in arrivals && a.Countable? && a.key == key :: a.id == None
    ensures var n := Delivered(arrivals, key);
      && FreshWith(arrivals, key, max, Forwarded) == (if n <= max then n else max)
      && FreshWith(arrivals, key, max, Notice) == (if n <= max then 0 else n - max)
  {
    WithoutIdsAllAreFresh(arrivals, key);
    BudgetIsExact(arrivals, key, max);
  }

  /** Whatever is not countable is forwarded and counts for no flow. */
  lemma PassThroughIsTransparent(arrivals: seq<Arrival>, max: int)
    requires arrivals != [] && Last(arrivals) == PassThrough
    ensures OutputOf(arrivals, max) == Forwarded && After(arrivals, max) == After(AllButLast(arrivals), max)
  {}

  /** A redelivery of the message counted last is forwarded exactly if that message was, and
      never gives a notice; it is not counted. */
  lemma RedeliveryFollowsTheFirst(arrivals: seq<Arrival>, key: string, max: int, m: nat)
    requires NeverEvicted(arrivals, key, max) && 0 < m < |arrivals|
    requires Last(arrivals).Countable? && Last(arrivals).key == key && !IsFresh(arrivals, key)
    requires IsFresh(arrivals[..m], key) && Fresh(arrivals[..m], key).0 == Fresh(arrivals, key).0
    ensures OutputOf(arrivals, max) == if OutputOf(arrivals[..m], max) == Forwarded then Forwarded else Nothing
    ensures After(arrivals, max) == After(AllButLast(arrivals), max)
  {
    TableIsHistory(AllButLast(arrivals), key, max);
    NotEvictedBefore(arrivals, key, max, m - 1);
    assert AllButLast(arrivals[..m]) == arrivals[..m - 1];
    TableIsHistory(arrivals[..m - 1], key, max);
  }

  lemma {:induction false} NotEvictedBefore(arrivals: seq<Arrival>, key: string, max: int, m: nat)
    requires NeverEvicted(arrivals, key, max) && m <= |arrivals|
    ensures NeverEvicted(arrivals[..m], key, max)
  {
    if m < |arrivals| {
      NotEvictedBefore(AllButLast(arrivals), key, max, m);
      assert AllButLast(arrivals)[..m] == arrivals[..m];
    } else {
      assert arrivals[..m] == arrivals;
    }
  }

  class LoopControlAgent {
    var counts: map<string, (nat, Option<string>)>
    var ctxKeyOrder: seq<string>
    ghost var inserted: seq<string>

    ghost function View(): Counts
      reads this
    {
      Tracked(counts, ctxKeyOrder, inserted)
    }

    constructor ()
      ensures View() == Blank()
    {
      counts, ctxKeyOrder, inserted := map[], [], [];
    }

    method RecordCount(key: string, count: nat, id: Option<string>)
      requires Fifo(View())
      modifies this
      ensures View() == Put(old(View()), key, (count, id))
    {
      if key !in counts {
        if |ctxKeyOrder| >= MAX_TRACKED_CTX_KEYS {
          var oldest := ctxKeyOrder[0];
          ctxKeyOrder := ctxKeyOrder[1..];
          counts := counts - {oldest};
        }
        ctxKeyOrder := ctxKeyOrder + [key];
        inserted := inserted + [key];
      }
      counts := counts[key := (count, id)];
    }

    method CountFresh(key: string, count: nat, id: Option<string>, max: int) returns (output: Output)
      requires Fifo(View())
      modifies this
      ensures View() == Put(old(View()), key, (SaturatingSucc(count), id)) && Fifo(View())
      ensures output == if Exceeded(SaturatingSucc(count), max) then Notice else Forwarded
    {
      var next := if count >= U32_MAX then U32_MAX else count + 1;
      PutKeepsFifo(View(), key, (next, id));
      RecordCount(key, next, id);
      output := if max > 0 && next > max then Notice else Forwarded;
    }

    method StopAgent()
      modifies this
      ensures View() == Step(old(View()), Arrival.Stop, 0).0 == Blank()
    {
      counts, ctxKeyOrder, inserted := map[], [], [];
    }

    /** `process`. */
    method Process(a: Arrival, max: int) returns (output: Output)
      requires Fifo(View()) && !a.Stop?
      modifies this
      ensures (View(), output) == Step(old(View()), a, max) && Fifo(View())
    {
      match a
      case PassThrough => return Forwarded;
      case Countable(key, id) =>
        var (count, last) := if key in counts then counts[key] else (0, None);
        if id.Some? && last == id {
          output := if max > 0 && count > max then Nothing else Forwarded;
        } else {
          output := CountFresh(key, count, id, max);
        }
    }
  }
}
