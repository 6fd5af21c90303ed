/** The ring of runtime events: two bounded buffers with one counter, and the paging cursor.

    A push takes its buffer's lock, evicts, takes a number from the shared counter, and appends;
    the counter can be advanced by a push to the other buffer in between. A poller pages with
    the number of the last record it was given. */
module EventRing {
  import opened Options

  const RING_CAPACITY: nat := 200
  const DEFAULT_POLL_LIMIT: nat := 50

  /** `key` is the preset id of an error, if known, or the channel of an output. */
  datatype Record = Record(number: nat, key: Option<string>, payload: string)

  datatype Kind = Errors | Outputs

  /** One buffer. `pending` is the record of a push that holds the lock and has its number;
      `pushed` lists every record ever pushed. */
  datatype Side = Side(buffer: seq<Record>, pending: Option<Record>, pushed: seq<Record>)

  /** The ring, and one poller of one kind of records with a fixed filter. */
  datatype State = State(counter: nat, errors: Side, outputs: Side, cursor: nat, returned: seq<Record>)

  datatype Action =
    | Begin(kind: Kind, key: Option<string>, payload: string)
    | End(kind: Kind)
    | Poll(limit: nat)

  function SideOf(st: State, kind: Kind): Side { if kind.Errors? then st.errors else st.outputs }

  function SetSide(st: State, kind: Kind, side: Side): State {
    if kind.Errors? then st.(errors := side) else st.(outputs := side)
  }

  predicate Matches(r: Record, filter: Option<string>) { filter.None? || r.key == filter }

  /** The records after a number that match, oldest first. */
  function After(buffer: seq<Record>, filter: Option<string>, since: nat): seq<Record> {
    if buffer == [] then []
    else (if buffer[0].number > since && Matches(buffer[0], filter) then [buffer[0]] else [])
         + After(buffer[1..], filter, since)
  }

  function Truncate(page: seq<Record>, limit: nat): seq<Record> {
    if |page| <= limit then page else page[..limit]
  }

  /** `collect_errors` and `collect_outputs`. */
  function Collect(buffer: seq<Record>, filter: Option<string>, since: nat, limit: nat): seq<Record> {
    Truncate(After(buffer, filter, since), limit)
  }

  function LatestSeq(page: seq<Record>, since: nat): nat { if page == [] then since else page[|page| - 1].number }

  function Evict(buffer: seq<Record>): seq<Record> {
    if |buffer| >= RING_CAPACITY then buffer[1..] else buffer
  }

  predicate Enabled(st: State, a: Action, kind: Kind) {
    match a
    case Begin(k, _, _) => SideOf(st, k).pending.None?
    case End(k) => SideOf(st, k).pending.Some?
    case Poll(_) => SideOf(st, kind).pending.None?
  }

  function Apply(st: State, a: Action, kind: Kind, filter: Option<string>): State
    requires Enabled(st, a, kind)
  {
    match a
    case Begin(k, key, payload) =>
      var side := SideOf(st, k);
      SetSide(st, k, Side(Evict(side.buffer), Some(Record(st.counter + 1, key, payload)), side.pushed))
        .(counter := st.counter + 1)
    case End(k) =>
      var side := SideOf(st, k);
      SetSide(st, k, Side(side.buffer + [side.pending.value], None, side.pushed + [side.pending.value]))
    case Poll(limit) =>
      var page := Collect(SideOf(st, kind).buffer, filter, st.cursor, limit);
      st.(cursor := LatestSeq(page, st.cursor), returned := st.returned + page)
  }

  function Init(): State { State(0, Side([], None, []), Side([], None, []), 0, []) }

  // ---------------------------------------------------------------- sorted records

  predicate Sorted(rs: seq<Record>) { forall i, j | 0 <= i < j < |rs| :: rs[i].number < rs[j].number }

  predicate UpTo(rs: seq<Record>, n: nat) { forall i | 0 <= i < |rs| :: rs[i].number <= n }

  predicate IsSuffix(rs: seq<Record>, all: seq<Record>, n: nat) {
    n <= |all| && rs == all[|all| - n..]
  }

  /** How many records the buffer holds after so many pushes. */
  function Held(pushed: nat, pending: bool): nat {
    if pending then (if pushed < RING_CAPACITY then pushed else RING_CAPACITY - 1)
    else if pushed < RING_CAPACITY then pushed else RING_CAPACITY
  }

  /** The buffer is the newest records pushed; numbers increase and come from the counter. */
  predicate SideOk(side: Side, counter: nat) {
    && Sorted(side.pushed) && UpTo(side.pushed, counter)
    && IsSuffix(side.buffer, side.pushed, Held(|side.pushed|, side.pending.Some?))
    && (side.pending.Some? ==>
          0 < side.pending.value.number <= counter
          && forall i | 0 <= i < |side.pushed| :: side.pushed[i].number < side.pending.value.number)
  }

  lemma BeginKeepsSide(side: Side, counter: nat, key: Option<string>, payload: string)
    requires SideOk(side, counter) && side.pending.None?
    ensures SideOk(Side(Evict(side.buffer), Some(Record(counter + 1, key, payload)), side.pushed), counter + 1)
  {}

  lemma EndKeepsSide(side: Side, counter: nat)
    requires SideOk(side, counter) && side.pending.Some?
    ensures SideOk(Side(side.buffer + [side.pending.value], None, side.pushed + [side.pending.value]), counter)
  {}

  // ---------------------------------------------------------------- pages

  lemma {:induction false} InAfter(buffer: seq<Record>, filter: Option<string>, since: nat, r: Record)
    ensures r in After(buffer, filter, since) <==> r in buffer && r.number > since && Matches(r, filter)
  {
    if buffer != [] {
      InAfter(buffer[1..], filter, since, r);
      assert buffer == [buffer[0]] + buffer[1..];
    }
  }

  lemma SortedCons(r: Record, rs: seq<Record>)
    requires Sorted(rs) && forall x | x in rs :: r.number < x.number
    ensures Sorted([r] + rs)
  {
    var all := [r] + rs;
    forall i, j | 0 <= i < j < |all| ensures all[i].number < all[j].number {
      assert all[j] == rs[j - 1] && all[j] in rs;
      if i > 0 { assert all[i] == rs[i - 1]; }
    }
  }

  lemma {:induction false} AfterIsSorted(buffer: seq<Record>, filter: Option<string>, since: nat)
    requires Sorted(buffer)
    ensures Sorted(After(buffer, filter, since))
  {
    if buffer != [] {
      var rest := After(buffer[1..], filter, since);
      AfterIsSorted(buffer[1..], filter, since);
      forall x | x in rest ensures buffer[0].number < x.number {
        InAfter(buffer[1..], filter, since, x);
      }
      SortedCons(buffer[0], rest);
    }
  }

  /** The first n records are those up to the n-th number. */
  lemma PrefixByNumber(all: seq<Record>, n: nat, r: Record)
    requires Sorted(all) && 0 < n <= |all|
    ensures Sorted(all[..n])
    ensures r in all[..n] <==> r in all && r.number <= all[n - 1].number
  {
    if r in all {
      var i :| 0 <= i < |all| && all[i] == r;
      assert i < n ==> all[..n][i] == r;
    }
  }

  /** Truncating a page keeps the records up to the last number that is left. */
  lemma TruncatedPage(all: seq<Record>, since: nat, limit: nat, r: Record)
    requires Sorted(all) && forall x | x in all :: x.number > since
    ensures var page := Truncate(all, limit);
      && Sorted(page)
      && LatestSeq(page, since) >= since
      && (r in page <==> r in all && r.number <= LatestSeq(page, since))
      && (|page| < limit && r in all ==> r.number <= LatestSeq(page, since))
  {
    var n := if |all| <= limit then |all| else limit;
    assert Truncate(all, limit) == all[..n];
    if n > 0 {
      assert all[n - 1] in all;
      PrefixByNumber(all, n, r);
    }
  }

  lemma PageIs(buffer: seq<Record>, filter: Option<string>, since: nat, limit: nat, r: Record)
    requires Sorted(buffer)
    ensures var page := Collect(buffer, filter, since, limit);
      && Sorted(page)
      && LatestSeq(page, since) >= since
      && (r in page <==> r in buffer && Matches(r, filter) && since < r.number <= LatestSeq(page, since))
      && (|page| < limit && r in buffer && Matches(r, filter) ==> r.number <= LatestSeq(page, since))
  {
    var all := After(buffer, filter, since);
    AfterIsSorted(buffer, filter, since);
    forall x ensures x in all <==> x in buffer && x.number > since && Matches(x, filter) {
      InAfter(buffer, filter, since, x);
    }
    TruncatedPage(all, since, limit, r);
  }

  /** A page: at most `limit` records, and exactly those of the buffer after the cursor, up to the
      new cursor and no further, that have the key asked for, if one is; a page below the limit
      leaves none behind. */
  lemma PageExactly(buffer: seq<Record>, filter: Option<string>, since: nat, limit: nat, r: Record)
    requires Sorted(buffer)
    ensures var page := Collect(buffer, filter, since, limit);
      && Sorted(page) && |page| <= limit
      && LatestSeq(page, since) >= since
      && (r in page <==>
            r in buffer && (filter.None? || r.key == filter) && since < r.number <= LatestSeq(page, since))
      && (|page| < limit && r in buffer && (filter.None? || r.key == filter) ==> r.number <= LatestSeq(page, since))
  {
    PageIs(buffer, filter, since, limit, r);
  }

  // ---------------------------------------------------------------- the poller

  predicate PassedOk(side: Side, cursor: nat, returned: seq<Record>, filter: Option<string>, i: nat) {
    i < |side.pushed| && Matches(side.pushed[i], filter) && side.pushed[i].number <= cursor
    && side.pushed[i] !in returned
    ==> |side.pushed| - 1 - i >= RING_CAPACITY
  }

  predicate ReturnedOk(side: Side, returned: seq<Record>, filter: Option<string>, i: nat) {
    i < |returned| ==> returned[i] in side.pushed && Matches(returned[i], filter)
  }

  /** What has been returned is in order and before the cursor; what was passed over was evicted. */
  ghost predicate PollerOk(side: Side, cursor: nat, returned: seq<Record>, filter: Option<string>) {
    && Sorted(returned) && UpTo(returned, cursor)
    && (forall i: nat :: PassedOk(side, cursor, returned, filter, i))
    && (forall i: nat :: ReturnedOk(side, returned, filter, i))
  }

  lemma PushKeepsPoller(side: Side, r: Record, cursor: nat, counter: nat, returned: seq<Record>,
                        filter: Option<string>, next: Side)
    requires PollerOk(side, cursor, returned, filter) && cursor < r.number
    requires next.pushed == side.pushed + [r]
    ensures PollerOk(next, cursor, returned, filter)
  {
    forall i: nat ensures PassedOk(next, cursor, returned, filter, i) {
      assert PassedOk(side, cursor, returned, filter, i);
    }
    forall i: nat ensures ReturnedOk(next, returned, filter, i) {
      assert ReturnedOk(side, returned, filter, i);
    }
  }

  lemma SuffixMember(side: Side, counter: nat, i: nat)
    requires SideOk(side, counter) && i < |side.pushed|
    requires |side.pushed| - 1 - i < |side.buffer|
    ensures side.pushed[i] in side.buffer
  {
    assert side.buffer[i - (|side.pushed| - |side.buffer|)] == side.pushed[i];
  }

  lemma SortedAppend(a: seq<Record>, b: seq<Record>, n: nat)
    requires Sorted(a) && UpTo(a, n) && Sorted(b) && forall i | 0 <= i < |b| :: b[i].number > n
    ensures Sorted(a + b)
  {}

  lemma PollKeepsPoller(side: Side, counter: nat, cursor: nat, returned: seq<Record>, filter: Option<string>,
                        limit: nat)
    requires SideOk(side, counter) && side.pending.None? && PollerOk(side, cursor, returned, filter)
    ensures var page := Collect(side.buffer, filter, cursor, limit);
      && PollerOk(side, LatestSeq(page, cursor), returned + page, filter)
  {
    var page := Collect(side.buffer, filter, cursor, limit);
    var latest := LatestSeq(page, cursor);
    assert Sorted(side.buffer);
    forall r ensures r in page <==> r in side.buffer && Matches(r, filter) && cursor < r.number <= latest {
      PageIs(side.buffer, filter, cursor, limit, r);
    }
    PageIs(side.buffer, filter, cursor, limit, Record(0, None, ""));
    forall i | 0 <= i < |page| ensures cursor < page[i].number <= latest { assert page[i] in page; }
    SortedAppend(returned, page, cursor);
    forall i: nat ensures PassedOk(side, latest, returned + page, filter, i) {
      assert PassedOk(side, cursor, returned, filter, i);
      if i < |side.pushed| && |side.pushed| - 1 - i < RING_CAPACITY { SuffixMember(side, counter, i); }
    }
    forall i: nat ensures ReturnedOk(side, returned + page, filter, i) {
      assert ReturnedOk(side, returned, filter, i);
      if |returned| <= i < |returned + page| {
        assert page[i - |returned|] in page;
      }
    }
  }

  ghost predicate Inv(st: State, kind: Kind, filter: Option<string>) {
    && SideOk(st.errors, st.counter) && SideOk(st.outputs, st.counter)
    && PollerOk(SideOf(st, kind), st.cursor, st.returned, filter)
    && CursorOk(SideOf(st, kind), st.cursor)
  }

  /** The cursor is the number of a record already pushed. */
  predicate CursorOk(side: Side, cursor: nat) {
    cursor == 0 || exists i :: 0 <= i < |side.pushed| && side.pushed[i].number == cursor
  }

  lemma SideKeepsCounter(side: Side, counter: nat)
    requires SideOk(side, counter)
    ensures SideOk(side, counter + 1)
  {}

  lemma BeginKeepsInv(st: State, k: Kind, key: Option<string>, payload: string, kind: Kind, filter: Option<string>)
    requires Inv(st, kind, filter) && SideOf(st, k).pending.None?
    ensures Inv(Apply(st, Begin(k, key, payload), kind, filter), kind, filter)
  {
    BeginKeepsSide(SideOf(st, k), st.counter, key, payload);
    SideKeepsCounter(st.errors, st.counter);
    SideKeepsCounter(st.outputs, st.counter);
    var next := Apply(st, Begin(k, key, payload), kind, filter);
    SamePushes(SideOf(st, kind), SideOf(next, kind), st.cursor, st.returned, filter);
  }

  lemma SamePushes(side: Side, next: Side, cursor: nat, returned: seq<Record>, filter: Option<string>)
    requires PollerOk(side, cursor, returned, filter) && next.pushed == side.pushed
    ensures PollerOk(next, cursor, returned, filter)
  {
    forall i: nat ensures PassedOk(next, cursor, returned, filter, i) && ReturnedOk(next, returned, filter, i) {
      assert PassedOk(side, cursor, returned, filter, i) && ReturnedOk(side, returned, filter, i);
    }
  }

  lemma EndKeepsInv(st: State, k: Kind, kind: Kind, filter: Option<string>)
    requires Inv(st, kind, filter) && SideOf(st, k).pending.Some?
    ensures Inv(Apply(st, End(k), kind, filter), kind, filter)
  {
    var side, next := SideOf(st, k), Apply(st, End(k), kind, filter);
    EndKeepsSide(side, st.counter);
    if k == kind {
      CursorBeforePending(side, st.counter, st.cursor);
      PushKeepsPoller(side, side.pending.value, st.cursor, st.counter, st.returned, filter, SideOf(next, k));
      CursorStays(side, SideOf(next, k), st.cursor);
    }
  }

  /** A number is taken while the buffer is locked, so a poller's cursor is never past it. */
  lemma CursorBeforePending(side: Side, counter: nat, cursor: nat)
    requires SideOk(side, counter) && side.pending.Some? && CursorOk(side, cursor)
    ensures cursor < side.pending.value.number
  {}

  lemma CursorStays(side: Side, next: Side, cursor: nat)
    requires CursorOk(side, cursor) && side.pushed <= next.pushed
    ensures CursorOk(next, cursor)
  {
    if cursor != 0 {
      var i :| 0 <= i < |side.pushed| && side.pushed[i].number == cursor;
      assert next.pushed[i] == side.pushed[i];
    }
  }

  lemma BufferedWasPushed(side: Side, counter: nat, r: Record)
    requires SideOk(side, counter) && r in side.buffer
    ensures CursorOk(side, r.number)
  {
    var i :| 0 <= i < |side.buffer| && side.buffer[i] == r;
    assert side.pushed[|side.pushed| - |side.buffer| + i] == r;
  }

  lemma PollKeepsCursor(side: Side, counter: nat, cursor: nat, filter: Option<string>, limit: nat)
    requires SideOk(side, counter) && Sorted(side.buffer) && CursorOk(side, cursor)
    ensures CursorOk(side, LatestSeq(Collect(side.buffer, filter, cursor, limit), cursor))
  {
    var page := Collect(side.buffer, filter, cursor, limit);
    if page != [] {
      var r := page[|page| - 1];
      assert r in page;
      PageIs(side.buffer, filter, cursor, limit, r);
      BufferedWasPushed(side, counter, r);
    }
  }

  lemma PollKeepsInv(st: State, limit: nat, kind: Kind, filter: Option<string>)
    requires Inv(st, kind, filter) && SideOf(st, kind).pending.None?
    ensures Inv(Apply(st, Poll(limit), kind, filter), kind, filter)
  {
    PollKeepsPoller(SideOf(st, kind), st.counter, st.cursor, st.returned, filter, limit);
    PollKeepsCursor(SideOf(st, kind), st.counter, st.cursor, filter, limit);
  }

  lemma {:induction false} StepKeepsInv(st: State, a: Action, kind: Kind, filter: Option<string>)
    requires Inv(st, kind, filter) && Enabled(st, a, kind)
    ensures Inv(Apply(st, a, kind, filter), kind, filter)
  {
    match a
    case Begin(k, key, payload) => BeginKeepsInv(st, k, key, payload, kind, filter);
    case End(k) => EndKeepsInv(st, k, kind, filter);
    case Poll(limit) => PollKeepsInv(st, limit, kind, filter);
  }

  // ---------------------------------------------------------------- runs

  predicate StepAt(tr: seq<State>, acts: seq<Action>, kind: Kind, filter: Option<string>, i: nat)
    requires |tr| == |acts| + 1 && i < |acts|
  {
    Enabled(tr[i], acts[i], kind) && tr[i + 1] == Apply(tr[i], acts[i], kind, filter)
  }

  /** Any interleaving of pushes to both buffers with the polls of one poller. */
  ghost predicate Run(tr: seq<State>, acts: seq<Action>, kind: Kind, filter: Option<string>) {
    && |tr| == |acts| + 1
    && tr[0] == Init()
    && forall i | 0 <= i < |acts| :: StepAt(tr, acts, kind, filter, i)
  }

  lemma {:induction false} InvAlong(tr: seq<State>, acts: seq<Action>, kind: Kind, filter: Option<string>, i: nat)
    requires Run(tr, acts, kind, filter) && i < |tr|
    ensures Inv(tr[i], kind, filter)
    decreases i
  {
    if i == 0 {
      forall j: nat
        ensures PassedOk(Side([], None, []), 0, [], filter, j) && ReturnedOk(Side([], None, []), [], filter, j)
      {}
    } else {
      InvAlong(tr, acts, kind, filter, i - 1);
      assert StepAt(tr, acts, kind, filter, i - 1);
      StepKeepsInv(tr[i - 1], acts[i - 1], kind, filter);
    }
  }

  /** Paging by the last returned number gives records in strictly increasing order, so none
      twice, each of them pushed and matching the filter. */
  lemma PagingNeverRepeats(tr: seq<State>, acts: seq<Action>, kind: Kind, filter: Option<string>, n: nat, i: nat,
                           j: nat)
    requires Run(tr, acts, kind, filter) && n < |tr| && i < j < |tr[n].returned|
    ensures tr[n].returned[i].number < tr[n].returned[j].number
    ensures tr[n].returned[i] in (if kind.Errors? then tr[n].errors.pushed else tr[n].outputs.pushed)
    ensures filter.None? || tr[n].returned[i].key == filter
  {
    InvAlong(tr, acts, kind, filter, n);
    assert ReturnedOk(SideOf(tr[n], kind), tr[n].returned, filter, i);
  }

  /** A matching record that the cursor has passed was returned, unless at least as many records
      of its kind as the ring holds were pushed after it. */
  lemma PassedMeansReturnedOrEvicted(tr: seq<State>, acts: seq<Action>, kind: Kind, filter: Option<string>, n: nat,
                                     i: nat)
    requires Run(tr, acts, kind, filter) && n < |tr|
    requires i < |SideOf(tr[n], kind).pushed|
    requires var r := SideOf(tr[n], kind).pushed[i]; (filter.None? || r.key == filter) && r.number <= tr[n].cursor
    ensures SideOf(tr[n], kind).pushed[i] in tr[n].returned || |SideOf(tr[n], kind).pushed| - 1 - i >= 200
  {
    InvAlong(tr, acts, kind, filter, n);
    assert PassedOk(SideOf(tr[n], kind), tr[n].cursor, tr[n].returned, filter, i);
  }

  /** After a page that its limit did not cut, every matching record was returned, except those
      that at least as many later records of their kind had evicted. */
  lemma ShortPageMeansCaughtUp(tr: seq<State>, acts: seq<Action>, kind: Kind, filter: Option<string>, n: nat, i: nat)
    requires Run(tr, acts, kind, filter) && n < |acts| && acts[n].Poll?
    requires |tr[n + 1].returned| - |tr[n].returned| < acts[n].limit
    requires i < |SideOf(tr[n], kind).pushed| && (filter.None? || SideOf(tr[n], kind).pushed[i].key == filter)
    ensures SideOf(tr[n], kind).pushed[i] in tr[n + 1].returned || |SideOf(tr[n], kind).pushed| - 1 - i >= 200
  {
    InvAlong(tr, acts, kind, filter, n);
    assert StepAt(tr, acts, kind, filter, n);
    if |SideOf(tr[n], kind).pushed| - 1 - i < 200 {
      ShortPage(SideOf(tr[n], kind), tr[n].counter, tr[n].cursor, tr[n].returned, filter, acts[n].limit, i);
    }
  }

  lemma ShortPage(side: Side, counter: nat, cursor: nat, returned: seq<Record>, filter: Option<string>, limit: nat,
                  i: nat)
    requires SideOk(side, counter) && PollerOk(side, cursor, returned, filter) && side.pending.None?
    requires |Collect(side.buffer, filter, cursor, limit)| < limit
    requires i < |side.pushed| && Matches(side.pushed[i], filter) && |side.pushed| - 1 - i < RING_CAPACITY
    ensures side.pushed[i] in returned + Collect(side.buffer, filter, cursor, limit)
  {
    SuffixMember(side, counter, i);
    PageIs(side.buffer, filter, cursor, limit, side.pushed[i]);
    assert PassedOk(side, cursor, returned, filter, i);
  }

  /** What is pushed: the record a push began with, numbered by the counter at that moment, comes
      to be the newest of its buffer. */
  lemma {:induction false} PushArrives(tr: seq<State>, acts: seq<Action>, kind: Kind, filter: Option<string>,
                                       m: nat, n: nat)
    requires Run(tr, acts, kind, filter) && m < n < |acts| && acts[m].Begin? && acts[n] == End(acts[m].kind)
    requires forall i | m < i < n :: acts[i] != End(acts[m].kind)
    ensures var k := acts[m].kind;
      var (was, now) := if k.Errors? then (tr[m].errors, tr[n + 1].errors) else (tr[m].outputs, tr[n + 1].outputs);
      now.pushed == was.pushed + [Record(tr[m].counter + 1, acts[m].key, acts[m].payload)]
  {
    PushPends(tr, acts, kind, filter, m, n);
    assert StepAt(tr, acts, kind, filter, n);
  }

  lemma {:induction false} PushPends(tr: seq<State>, acts: seq<Action>, kind: Kind, filter: Option<string>,
                                     m: nat, n: nat)
    requires Run(tr, acts, kind, filter) && m < n < |tr| && acts[m].Begin?
    requires forall i | m < i < n :: acts[i] != End(acts[m].kind)
    ensures var k := acts[m].kind;
      var (was, now) := if k.Errors? then (tr[m].errors, tr[n].errors) else (tr[m].outputs, tr[n].outputs);
      now.pushed == was.pushed && now.pending == Some(Record(tr[m].counter + 1, acts[m].key, acts[m].payload))
    decreases n
  {
    assert StepAt(tr, acts, kind, filter, n - 1);
    if m + 1 < n { PushPends(tr, acts, kind, filter, m, n - 1); }
  }

  lemma AfterStep(buffer: seq<Record>, filter: Option<string>, since: nat, i: nat, page: seq<Record>)
    requires i < |buffer|
    ensures page + After(buffer[i..], filter, since) ==
      (if buffer[i].number > since && Matches(buffer[i], filter) then page + [buffer[i]] else page)
      + After(buffer[i + 1..], filter, since)
  {
    assert buffer[i..][1..] == buffer[i + 1..];
  }

  // ---------------------------------------------------------------- the ring object

  /** The ring by itself, without a poller. */
  function Ring(counter: nat, errors: Side, outputs: Side): State { State(counter, errors, outputs, 0, []) }

  /** A push whose buffer lock is held from the eviction to the append; pushes to the other
      buffer may have taken numbers by the time it takes its own. */
  function Pushed(st: State, kind: Kind, taken: nat, key: Option<string>, payload: string): State
    requires SideOf(st, kind).pending.None?
  {
    Apply(Apply(st.(counter := st.counter + taken), Begin(kind, key, payload), Errors, None), End(kind), Errors, None)
  }

  predicate RingOk(st: State) {
    && SideOk(st.errors, st.counter) && SideOk(st.outputs, st.counter)
    && st.errors.pending.None? && st.outputs.pending.None?
  }

  lemma {:induction false} SideKeepsCounters(side: Side, counter: nat, taken: nat)
    requires SideOk(side, counter)
    ensures SideOk(side, counter + taken)
    decreases taken
  {
    if taken > 0 { SideKeepsCounters(side, counter, taken - 1); SideKeepsCounter(side, counter + taken - 1); }
  }

  function PushedSide(side: Side, n: nat, key: Option<string>, payload: string): Side {
    Side(Evict(side.buffer) + [Record(n + 1, key, payload)], None, side.pushed + [Record(n + 1, key, payload)])
  }

  lemma PushKeepsSide(side: Side, n: nat, key: Option<string>, payload: string)
    requires SideOk(side, n) && side.pending.None?
    ensures SideOk(PushedSide(side, n, key, payload), n + 1)
  {
    var r := Record(n + 1, key, payload);
    BeginKeepsSide(side, n, key, payload);
    EndKeepsSide(Side(Evict(side.buffer), Some(r), side.pushed), n + 1);
  }

  lemma PushedIs(st: State, kind: Kind, taken: nat, key: Option<string>, payload: string)
    requires SideOf(st, kind).pending.None?
    ensures var n := st.counter + taken;
      Pushed(st, kind, taken, key, payload) ==
      SetSide(st, kind, PushedSide(SideOf(st, kind), n, key, payload)).(counter := n + 1)
  {}

  lemma RingWith(st: State, kind: Kind, side: Side, n: nat)
    requires SideOk(st.errors, n) && SideOk(st.outputs, n) && SideOk(side, n)
    requires st.errors.pending.None? && st.outputs.pending.None? && side.pending.None?
    ensures RingOk(SetSide(st, kind, side).(counter := n))
  {}

  lemma PushKeepsRing(st: State, kind: Kind, taken: nat, key: Option<string>, payload: string)
    requires RingOk(st)
    ensures RingOk(Pushed(st, kind, taken, key, payload))
  {
    var n := st.counter + taken;
    SideKeepsCounters(st.errors, st.counter, taken);
    SideKeepsCounters(st.outputs, st.counter, taken);
    SideKeepsCounter(st.errors, n);
    SideKeepsCounter(st.outputs, n);
    var side := SideOf(st, kind);
    PushKeepsSide(side, n, key, payload);
    RingWith(st, kind, PushedSide(side, n, key, payload), n + 1);
    PushedIs(st, kind, taken, key, payload);
  }

  class EventRing {
    var counter: nat
    var errors: seq<Record>
    var outputs: seq<Record>
    ghost var pushedErrors: seq<Record>
    ghost var pushedOutputs: seq<Record>

    ghost function View(): State
      reads this
    {
      Ring(counter, Side(errors, None, pushedErrors), Side(outputs, None, pushedOutputs))
    }

    constructor ()
      ensures View() == Init() && RingOk(View())
    {
      counter, errors, outputs, pushedErrors, pushedOutputs := 0, [], [], [], [];
    }

    method NextSeq() returns (n: nat)
      modifies this`counter
      ensures n == counter == old(counter) + 1
    {
      counter := counter + 1;
      n := counter;
    }

    /** `push_error`. */
    method PushError(presetId: Option<string>, payload: string) returns (ghost taken: nat)
      requires RingOk(View())
      modifies this
      ensures View() == Pushed(old(View()), Errors, taken, presetId, payload) && RingOk(View())
      ensures counter == old(counter) + taken + 1
      ensures errors ==
        (if |old(errors)| >= 200 then old(errors)[1..] else old(errors)) + [Record(counter, presetId, payload)]
      ensures pushedErrors == old(pushedErrors) + [Record(counter, presetId, payload)]
      ensures outputs == old(outputs) && pushedOutputs == old(pushedOutputs)
    {
      if |errors| >= RING_CAPACITY { errors := errors[1..]; }
      var others: nat :| true;
      counter := counter + others;
      var n := NextSeq();
      errors := errors + [Record(n, presetId, payload)];
      pushedErrors := pushedErrors + [Record(n, presetId, payload)];
      taken := others;
      PushKeepsRing(old(View()), Errors, taken, presetId, payload);
    }

    /** `push_output`. */
    method PushOutput(channel: string, payload: string) returns (ghost taken: nat)
      requires RingOk(View())
      modifies this
      ensures View() == Pushed(old(View()), Outputs, taken, Some(channel), payload) && RingOk(View())
      ensures counter == old(counter) + taken + 1
      ensures outputs ==
        (if |old(outputs)| >= 200 then old(outputs)[1..] else old(outputs)) + [Record(counter, Some(channel), payload)]
      ensures pushedOutputs == old(pushedOutputs) + [Record(counter, Some(channel), payload)]
      ensures errors == old(errors) && pushedErrors == old(pushedErrors)
    {
      if |outputs| >= RING_CAPACITY { outputs := outputs[1..]; }
      var others: nat :| true;
      counter := counter + others;
      var n := NextSeq();
      outputs := outputs + [Record(n, Some(channel), payload)];
      pushedOutputs := pushedOutputs + [Record(n, Some(channel), payload)];
      taken := others;
      PushKeepsRing(old(View()), Outputs, taken, Some(channel), payload);
    }

    /** `get_agent_errors`: a page and the cursor for the next poll. */
    method GetErrors(presetId: Option<string>, since: nat, limit: Option<nat>) returns (page: seq<Record>, latest: nat)
      ensures page == Collect(errors, presetId, since, if limit.Some? then limit.value else DEFAULT_POLL_LIMIT)
      ensures latest == LatestSeq(page, since)
      ensures |page| <= if limit.Some? then limit.value else 50
      ensures Sorted(errors) ==>
        forall r :: r in page <==> r in errors && (presetId.None? || r.key == presetId) && since < r.number <= latest
      ensures Sorted(errors) && (|page| < if limit.Some? then limit.value else 50) ==>
        forall r | r in errors && (presetId.None? || r.key == presetId) :: r.number <= latest
    {
      forall r | Sorted(errors) {
        PageExactly(errors, presetId, since, if limit.Some? then limit.value else DEFAULT_POLL_LIMIT, r);
      }
      page := Page(errors, presetId, since, if limit.Some? then limit.value else DEFAULT_POLL_LIMIT);
      latest := if page == [] then since else page[|page| - 1].number;
    }

    /** `get_external_outputs`. */
    method GetOutputs(channel: Option<string>, since: nat, limit: Option<nat>) returns (page: seq<Record>, latest: nat)
      ensures page == Collect(outputs, channel, since, if limit.Some? then limit.value else DEFAULT_POLL_LIMIT)
      ensures latest == LatestSeq(page, since)
      ensures |page| <= if limit.Some? then limit.value else 50
      ensures Sorted(outputs) ==>
        forall r :: r in page <==> r in outputs && (channel.None? || r.key == channel) && since < r.number <= latest
      ensures Sorted(outputs) && (|page| < if limit.Some? then limit.value else 50) ==>
        forall r | r in outputs && (channel.None? || r.key == channel) :: r.number <= latest
    {
      forall r | Sorted(outputs) {
        PageExactly(outputs, channel, since, if limit.Some? then limit.value else DEFAULT_POLL_LIMIT, r);
      }
      page := Page(outputs, channel, since, if limit.Some? then limit.value else DEFAULT_POLL_LIMIT);
      latest := if page == [] then since else page[|page| - 1].number;
    }

    static method Page(buffer: seq<Record>, filter: Option<string>, since: nat, limit: nat) returns (page: seq<Record>)
      ensures page == Collect(buffer, filter, since, limit)
    {
      page := [];
      var i := 0;
      assert buffer[0..] == buffer;
      while i < |buffer|
        invariant 0 <= i <= |buffer|
        invariant After(buffer, filter, since) == page + After(buffer[i..], filter, since)
      {
        AfterStep(buffer, filter, since, i, page);
        if buffer[i].number > since && Matches(buffer[i], filter) { page := page + [buffer[i]]; }
        i := i + 1;
      }
      assert After(buffer[i..], filter, since) == [] && page + [] == page;
      if |page| > limit { page := page[..limit]; }
    }
  }
}
