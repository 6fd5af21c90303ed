/** Scheduling of the tool calls of one LLM message.

    Asynchrony is modelled by nondeterminism: the token may fire whenever `Tick` is called,
    a poll may or may not finish a call, and results are arbitrary. What happened is kept
    in an event log; `Disciplined` says which logs the scheduler may produce, and
    the lemmas after it say what that means for every moment of every run. */
module ToolScheduler {
  import opened Options
  import opened Sequences

  datatype Mode = Sequential | Parallel

  /** A tool call. `tool` is the execution mode of the registered tool, if there is one;
      `rejection` is the reason why the arguments never reach the tool (unparseable JSON,
      schema validation failure), if any. */
  datatype Call = Call(id: Option<string>, name: string, tool: Option<Mode>, rejection: Option<string>)

  datatype Message = Message(id: Option<string>, toolName: string, isError: bool, content: string)

  datatype Event =
    | Fire                             // the context's token is cancelled
    | Enter(call: nat)                 // the body of the tool is entered
    | Finish(call: nat, msg: Message)  // the call produced its own result
    | Ready(call: nat)                 // what a running body waited for is there: a poll finishes it
    | Idle                             // nothing pulled was ready: the scheduler waits
    | Dropped(call: nat)               // a running body was dropped

  /** Unknown tools count as Sequential. */
  function ModeOf(c: Call): Mode {
    match c.tool case Some(m) => m case None => Sequential
  }

  function ErrorResult(c: Call, text: string): Message {
    Message(c.id, c.name, true, text)
  }

  const ABORTED_TEXT := "Operation aborted"

  /** Why a call is answered without entering its tool. */
  function Refusal(c: Call, fired: bool): string {
    if c.rejection.Some? then c.rejection.value
    else if fired then "Cancelled"
    else "Agent error: Tool '" + c.name + "' not found"
  }

  // ---------------------------------------------------------------- reading a log

  predicate Fired(log: seq<Event>) { Fire in log }

  function Entered(log: seq<Event>): set<nat> {
    if log == [] then {} else
    var rest, e := Entered(log[..|log| - 1]), log[|log| - 1];
    if e.Enter? then rest + {e.call} else rest
  }

  function Moved(running: set<nat>, e: Event): set<nat> {
    match e
    case Enter(i) => running + {i}
    case Finish(i, _) => running - {i}
    case Dropped(i) => running - {i}
    case _ => running
  }

  /** The calls whose body is running. */
  function InFlight(log: seq<Event>): set<nat> {
    if log == [] then {} else Moved(InFlight(log[..|log| - 1]), log[|log| - 1])
  }

  /** The calls that produced a result of their own, with that result. */
  function Done(log: seq<Event>): map<nat, Message> {
    if log == [] then map[] else
    var rest, e := Done(log[..|log| - 1]), log[|log| - 1];
    if e.Finish? then rest[e.call := e.msg] else rest
  }

  /** The calls whose body was ready to finish. */
  function ReadyCalls(log: seq<Event>): set<nat> {
    if log == [] then {} else
    var rest, e := ReadyCalls(log[..|log| - 1]), log[|log| - 1];
    if e.Ready? then rest + {e.call} else rest
  }

  /** How often the scheduler has waited since the token fired. */
  function WaitsSinceFire(log: seq<Event>): nat {
    if log == [] || !Fired(log) then 0
    else WaitsSinceFire(log[..|log| - 1]) + if log[|log| - 1].Idle? then 1 else 0
  }

  lemma Snoc(log: seq<Event>, e: Event)
    ensures (log + [e])[..|log|] == log && (log + [e])[|log|] == e
    ensures Entered(log + [e]) == if e.Enter? then Entered(log) + {e.call} else Entered(log)
    ensures Done(log + [e]) == if e.Finish? then Done(log)[e.call := e.msg] else Done(log)
    ensures InFlight(log + [e]) == Moved(InFlight(log), e)
    ensures ReadyCalls(log + [e]) == if e.Ready? then ReadyCalls(log) + {e.call} else ReadyCalls(log)
    ensures Fired(log + [e]) <==> Fired(log) || e == Fire
    ensures WaitsSinceFire(log + [e]) == WaitsSinceFire(log) + if e.Idle? && Fired(log) then 1 else 0
  {
    assert (log + [e])[..|log|] == log;
  }

  // ---------------------------------------------------------------- the discipline

  predicate SequentialDone(calls: seq<Call>, log: seq<Event>, i: nat) {
    forall j | 0 <= j < i && j < |calls| && ModeOf(calls[j]) == Sequential :: j in Done(log)
  }

  predicate AllDone(log: seq<Event>, i: nat) {
    forall j | 0 <= j < i :: j in Done(log)
  }

  /** Call i may be worked on: the Sequential calls before it are finished, and if it is
      Sequential itself, everything before it is finished and nothing else is running. */
  predicate MayRun(calls: seq<Call>, log: seq<Event>, i: nat) {
    && i < |calls|
    && SequentialDone(calls, log, i)
    && (ModeOf(calls[i]) == Sequential ==> AllDone(log, i) && InFlight(log) <= {i})
  }

  /** The call cannot be executed, and the message says why. */
  predicate Refused(c: Call, fired: bool, msg: Message) {
    && (c.rejection.Some? || fired || c.tool.None?)
    && msg == ErrorResult(c, Refusal(c, fired))
  }

  predicate Admissible(calls: seq<Call>, max: nat, log: seq<Event>, e: Event) {
    match e
    case Fire => !Fired(log)
    case Enter(i) =>
      && MayRun(calls, log, i) && i !in Entered(log) && i !in Done(log)
      && calls[i].rejection.None? && calls[i].tool.Some?
      && !Fired(log) && |InFlight(log)| < max
    case Finish(i, msg) =>
      && MayRun(calls, log, i) && i !in Done(log)
      && (i !in InFlight(log) ==> i !in Entered(log) && Refused(calls[i], Fired(log), msg))
      && (i in InFlight(log) ==> i in ReadyCalls(log) && msg.id == calls[i].id && msg.toolName == calls[i].name)
    case Ready(i) => i in InFlight(log)
    case Idle => WaitsSinceFire(log) < 2
    case Dropped(i) =>
      && i in InFlight(log) && Fired(log)
      && (i < |calls| && ModeOf(calls[i]) == Parallel ==> i !in ReadyCalls(log))
  }

  predicate Disciplined(calls: seq<Call>, max: nat, log: seq<Event>) {
    log == [] ||
    (Disciplined(calls, max, log[..|log| - 1]) && Admissible(calls, max, log[..|log| - 1], log[|log| - 1]))
  }

  lemma {:induction false} DisciplineIsPrefixClosed(calls: seq<Call>, max: nat, log: seq<Event>, k: nat)
    requires Disciplined(calls, max, log) && k <= |log|
    ensures Disciplined(calls, max, log[..k])
  {
    if k == |log| {
      assert log[..k] == log;
    } else {
      DisciplineIsPrefixClosed(calls, max, log[..|log| - 1], k);
      assert log[..|log| - 1][..k] == log[..k];
    }
  }

  /** What the discipline implies about call i. */
  predicate CallOk(calls: seq<Call>, log: seq<Event>, i: nat) {
    && (i in InFlight(log) ==> i in Entered(log) && i !in Done(log))
    && (i in Entered(log) || i in Done(log) ==> i < |calls| && SequentialDone(calls, log, i))
    && (i in InFlight(log) && i < |calls| && ModeOf(calls[i]) == Sequential ==> InFlight(log) == {i} && AllDone(log, i))
  }

  ghost predicate Consistent(calls: seq<Call>, max: nat, log: seq<Event>) {
    |InFlight(log)| <= max && forall i :: CallOk(calls, log, i)
  }

  lemma EventKeepsConsistent(calls: seq<Call>, max: nat, l: seq<Event>, e: Event)
    requires Consistent(calls, max, l) && Admissible(calls, max, l, e)
    ensures Consistent(calls, max, l + [e])
  {
    Snoc(l, e);
    if e.Enter? { assert CallOk(calls, l, e.call); }
    forall i ensures CallOk(calls, l + [e], i) {
      assert CallOk(calls, l, i);
      if e.Enter? && i in InFlight(l) { assert CallOk(calls, l, e.call); }
    }
  }

  lemma {:induction false} DisciplineIsConsistent(calls: seq<Call>, max: nat, log: seq<Event>)
    requires Disciplined(calls, max, log)
    ensures Consistent(calls, max, log)
  {
    if log != [] {
      var l, e := log[..|log| - 1], log[|log| - 1];
      DisciplineIsConsistent(calls, max, l);
      assert log == l + [e];
      EventKeepsConsistent(calls, max, l, e);
    }
  }

  // ---------------------------------------------------------------- what it means

  /** At every moment at most `max` bodies run. */
  lemma {:induction false} AtMostMaxInFlight(calls: seq<Call>, max: nat, log: seq<Event>, k: nat)
    requires Disciplined(calls, max, log) && k <= |log|
    ensures |InFlight(log[..k])| <= max
  {
    DisciplineIsPrefixClosed(calls, max, log, k);
    DisciplineIsConsistent(calls, max, log[..k]);
  }

  /** While the body of a call runs whose tool is not Parallel, it runs alone: every earlier call
      has its result and no later call has been entered. */
  lemma SequentialRunsAlone(calls: seq<Call>, max: nat, log: seq<Event>, k: nat, i: nat)
    requires Disciplined(calls, max, log) && k <= |log|
    requires i in InFlight(log[..k]) && i < |calls| && calls[i].tool != Some(Parallel)
    ensures InFlight(log[..k]) == {i}
    ensures forall j | 0 <= j < i :: j in Done(log[..k])
    ensures forall j | j > i :: j !in Entered(log[..k]) && j !in Done(log[..k])
  {
    var l := log[..k];
    DisciplineIsPrefixClosed(calls, max, log, k);
    DisciplineIsConsistent(calls, max, l);
    assert CallOk(calls, l, i);
    forall j | j > i ensures j !in Entered(l) && j !in Done(l) { assert CallOk(calls, l, j); }
  }

  /** Of two calls that are not both Parallel, or have one between them that is not, the later is
      entered only after the earlier has finished. */
  lemma LaterCallsWait(calls: seq<Call>, max: nat, log: seq<Event>, k: nat, i: nat, b: nat, j: nat)
    requires Disciplined(calls, max, log) && k < |log| && log[k] == Enter(j)
    requires i <= b <= j && i < j && b < |calls| && calls[b].tool != Some(Parallel)
    ensures i in Done(log[..k])
  {
    DisciplineIsPrefixClosed(calls, max, log, k + 1);
    var l := log[..k];
    assert log[..k + 1][..k] == l;
    if i < b < j { DoneBehindSequential(calls, max, l, i, b); }
  }

  lemma {:induction false} DoneBehindSequential(calls: seq<Call>, max: nat, log: seq<Event>, i: nat, b: nat)
    requires Disciplined(calls, max, log) && i < b < |calls| && calls[b].tool != Some(Parallel) && b in Done(log)
    ensures i in Done(log)
  {
    var l := log[..|log| - 1];
    if b in Done(l) { DoneBehindSequential(calls, max, l, i, b); }
  }

  /** From log to `all`, exactly the calls lo to hi were entered, and all of them run. */
  ghost predicate AllRun(log: seq<Event>, all: seq<Event>, lo: nat, hi: nat) {
    && !Fired(all) && Done(all) == Done(log) && Entered(all) == Entered(log) + Span(lo, hi)
    && InFlight(all) == Span(lo, hi)
  }

  /** The numbers from lo on, below hi. */
  function Span(lo: nat, hi: nat): set<nat> { if hi <= lo then {} else Span(lo, hi - 1) + {hi - 1} }

  lemma {:induction false} InSpan(lo: nat, hi: nat)
    requires lo <= hi
    ensures (forall i: nat :: i in Span(lo, hi) <==> lo <= i < hi) && |Span(lo, hi)| == hi - lo
  {
    if lo < hi { InSpan(lo, hi - 1); }
  }

  lemma DisciplineGrows(calls: seq<Call>, max: nat, log: seq<Event>, e: Event)
    requires Disciplined(calls, max, log) && Admissible(calls, max, log, e)
    ensures Disciplined(calls, max, log + [e])
  {
    assert (log + [e])[..|log|] == log;
  }

  predicate AllParallel(calls: seq<Call>, lo: nat, hi: nat) {
    && hi <= |calls|
    && forall i | lo <= i < hi :: calls[i].tool == Some(Parallel) && calls[i].rejection == None
  }

  lemma MayEnter(calls: seq<Call>, max: nat, log: seq<Event>, l: seq<Event>, lo: nat, hi: nat)
    requires AllRun(log, l, lo, hi) && AllDone(log, lo) && Untouched(Summary(log), lo)
    requires lo <= hi < lo + max && AllParallel(calls, lo, hi + 1)
    ensures Admissible(calls, max, l, Enter(hi))
  {
    InSpan(lo, hi);
    assert hi !in Summary(log).done && hi !in Summary(log).entered;
  }

  lemma OneMoreRuns(calls: seq<Call>, max: nat, log: seq<Event>, l: seq<Event>, lo: nat, hi: nat)
    requires Overlap(calls, max, log, l, lo, hi) && AllDone(log, lo) && Untouched(Summary(log), lo)
    requires lo <= hi < lo + max && AllParallel(calls, lo, hi + 1)
    ensures Overlap(calls, max, log, l + [Enter(hi)], lo, hi + 1)
  {
    MayEnter(calls, max, log, l, lo, hi);
    DisciplineGrows(calls, max, l, Enter(hi));
    Snoc(l, Enter(hi));
  }

  ghost predicate Overlap(calls: seq<Call>, max: nat, log: seq<Event>, all: seq<Event>, lo: nat, hi: nat) {
    Disciplined(calls, max, all) && AllRun(log, all, lo, hi)
  }

  lemma {:induction false} AllMayRun(calls: seq<Call>, max: nat, log: seq<Event>, lo: nat, hi: nat)
    returns (all: seq<Event>)
    requires Overlap(calls, max, log, log, lo, lo) && AllDone(log, lo) && Untouched(Summary(log), lo)
    requires lo <= hi <= lo + max && AllParallel(calls, lo, hi)
    ensures log <= all && Overlap(calls, max, log, all, lo, hi)
  {
    all := log;
    if lo < hi {
      var l := AllMayRun(calls, max, log, lo, hi - 1);
      OneMoreRuns(calls, max, log, l, lo, hi - 1);
      all := l + [Enter(hi - 1)];
    }
  }

  /** Adjacent calls of Parallel tools may all run at once, as many as the limit allows. */
  lemma ParallelCallsOverlap(calls: seq<Call>, max: nat, log: seq<Event>, lo: nat, hi: nat) returns (all: seq<Event>)
    requires Disciplined(calls, max, log) && InFlight(log) == {} && !Fired(log)
    requires AllDone(log, lo) && Untouched(Summary(log), lo)
    requires lo <= hi <= |calls| && hi - lo <= max
    requires forall i | lo <= i < hi :: calls[i].tool == Some(Parallel) && calls[i].rejection == None
    ensures log <= all && Disciplined(calls, max, all) && forall i: nat :: i in InFlight(all) <==> lo <= i < hi
  {
    all := AllMayRun(calls, max, log, lo, hi);
    InSpan(lo, hi);
  }

  /** What a Parallel body that was ready to finish has done is not lost: once nothing runs any
      more, it has its own result, whatever was cancelled in between. */
  lemma {:induction false} ReadyResultsAreKept(calls: seq<Call>, max: nat, log: seq<Event>, k: nat, i: nat)
    requires Disciplined(calls, max, log) && k <= |log| && i < |calls| && calls[i].tool == Some(Parallel)
    requires i in ReadyCalls(log[..k]) && i in InFlight(log[..k])
    ensures i in ReadyCalls(log) && (i in InFlight(log) || i in Done(log))
  {
    if k < |log| {
      var l := log[..|log| - 1];
      assert l[..k] == log[..k];
      ReadyResultsAreKept(calls, max, l, k, i);
    } else {
      assert log[..k] == log;
    }
  }

  /** A call that is finished without having been entered is refused, and told why: its arguments
      were rejected, the token had fired, or there is no such tool. */
  lemma {:induction false} RefusalsSayWhy(calls: seq<Call>, max: nat, log: seq<Event>, i: nat)
    requires Disciplined(calls, max, log) && i < |calls| && i in Done(log) && i !in Entered(log)
    ensures var c, msg := calls[i], Done(log)[i];
      && msg.id == c.id && msg.toolName == c.name && msg.isError
      && (c.rejection.Some? ==> msg.content == c.rejection.value)
      && (c.rejection.None? ==>
            || (msg.content == "Cancelled" && Fired(log))
            || (msg.content == "Agent error: Tool '" + c.name + "' not found" && c.tool.None?))
  {
    var l := log[..|log| - 1];
    if i in Done(l) { RefusalsSayWhy(calls, max, l, i); }
    DisciplineIsConsistent(calls, max, l);
    assert CallOk(calls, l, i);
  }

  /** After the token fires no body is entered, and no call is ever entered twice. */
  lemma {:induction false} NoEntryAfterFire(calls: seq<Call>, max: nat, log: seq<Event>, k: nat, m: nat)
    requires Disciplined(calls, max, log) && k < m < |log| && log[m].Enter?
    ensures log[k] != Fire && log[k] != log[m]
  {
    DisciplineIsPrefixClosed(calls, max, log, m + 1);
    var l := log[..m];
    assert log[..m + 1][..m] == l && l[k] == log[k];
    if log[k] == log[m] { EnteredAt(l, k); }
  }

  /** Cancellation is prompt: once the token has fired the scheduler waits at most twice more, for
      the poll during which it fired and for the last poll of what is salvaged. */
  lemma {:induction false} WaitsAtMostTwice(calls: seq<Call>, max: nat, log: seq<Event>, k: nat)
    requires Disciplined(calls, max, log) && k < |log| && log[k] == Fire
    ensures Count(log[k..], Idle) == WaitsSinceFire(log) <= 2
  {
    var n := |log| - 1;
    var l := log[..n];
    if k == n {
      assert log[k..] == [] + [Fire];
      CountAppend([], Fire, Idle);
    } else {
      assert l[k] == Fire;
      WaitsAtMostTwice(calls, max, l, k);
      assert log[k..] == l[k..] + [log[n]];
      CountAppend(l[k..], log[n], Idle);
    }
  }

  /** Only calls of known tools with accepted arguments are entered, and a body is dropped only
      after the token has fired. */
  lemma {:induction false} EntriesAndDrops(calls: seq<Call>, max: nat, log: seq<Event>, k: nat)
    requires Disciplined(calls, max, log) && k < |log|
    ensures log[k].Enter? ==>
      var i := log[k].call;
      i < |calls| && calls[i].tool.Some? && calls[i].rejection == None
    ensures log[k].Dropped? ==> Fire in log[..k] && log[k].call in InFlight(log[..k])
  {
    DisciplineIsPrefixClosed(calls, max, log, k + 1);
    assert log[..k + 1][..k] == log[..k];
  }

  lemma {:induction false} EnteredAt(log: seq<Event>, k: nat)
    requires k < |log| && log[k].Enter?
    ensures log[k].call in Entered(log)
  {
    if k < |log| - 1 { EnteredAt(log[..|log| - 1], k); }
  }

  /** A result once produced is never replaced. */
  lemma {:induction false} ResultsAreFinal(calls: seq<Call>, max: nat, log: seq<Event>, k: nat, i: nat)
    requires Disciplined(calls, max, log) && k <= |log| && i in Done(log[..k])
    ensures i in Done(log) && Done(log)[i] == Done(log[..k])[i]
  {
    if k < |log| {
      var l := log[..|log| - 1];
      assert l[..k] == log[..k];
      ResultsAreFinal(calls, max, l, k, i);
    } else {
      assert log[..k] == log;
    }
  }

  /** The message call_tools owes for call i: its own result if it produced one, and
      otherwise the synthetic aborted one, always with the call's id and tool name. */
  function Owed(calls: seq<Call>, log: seq<Event>, i: nat): Message
    requires i < |calls|
  {
    if i in Done(log) then Done(log)[i] else ErrorResult(calls[i], ABORTED_TEXT)
  }

  lemma {:induction false} OwedCarriesTheCall(calls: seq<Call>, max: nat, log: seq<Event>, i: nat)
    requires Disciplined(calls, max, log) && i < |calls|
    ensures Owed(calls, log, i).id == calls[i].id && Owed(calls, log, i).toolName == calls[i].name
    ensures i !in Entered(log) ==> Owed(calls, log, i).isError
    ensures i !in Done(log) ==> Owed(calls, log, i) == Message(calls[i].id, calls[i].name, true, "Operation aborted")
  {
    if log != [] {
      var l := log[..|log| - 1];
      OwedCarriesTheCall(calls, max, l, i);
      DisciplineIsConsistent(calls, max, l);
      assert CallOk(calls, l, i);
    }
  }

  // ---------------------------------------------------------------- the scheduler

  /** buffer_unordered over the batch lo..hi: calls from `next` on have not been pulled,
      the pulled ones that are unfinished are in `pulled`. */
  datatype Stream = Stream(lo: nat, hi: nat, next: nat, pulled: set<nat>)

  datatype Polled = Yield(call: nat, msg: Message) | Exhausted | Pending

  /** How far the calls of a log have come. */
  datatype Progress = Progress(entered: set<nat>, running: set<nat>, done: map<nat, Message>)

  function Summary(log: seq<Event>): Progress {
    Progress(Entered(log), InFlight(log), Done(log))
  }

  predicate StreamCallOk(calls: seq<Call>, p: Progress, st: Stream, i: nat) {
    && (i < st.lo ==> i in p.done)
    && (st.lo <= i < st.hi && i < |calls| ==> ModeOf(calls[i]) == Parallel)
    && (i in st.pulled ==> st.lo <= i < st.next && i !in p.done && (i in p.entered ==> i in p.running))
    && (st.lo <= i < st.next && i !in st.pulled ==> i in p.done)
    && (i in p.done || i in p.entered ==> i < st.next)
    && (i in p.running ==> i in st.pulled)
  }

  ghost predicate StreamOk(calls: seq<Call>, max: nat, p: Progress, st: Stream) {
    && st.lo <= st.next <= st.hi <= |calls|
    && |st.pulled| <= max
    && forall i :: StreamCallOk(calls, p, st, i)
  }

  /** Calls of the batch that have not produced a result. */
  function Unfinished(st: Stream): int { st.hi - st.next + |st.pulled| }

  lemma ProperSubsetIsSmaller(a: set<nat>, b: set<nat>, x: nat)
    requires a <= b && x in b && x !in a
    ensures |a| < |b|
  {
    assert a + (b - a) == b;
  }

  lemma NothingLeft(a: set<nat>, b: set<nat>)
    requires a - b == {}
    ensures a <= b
  {
    forall i | i in a ensures i in b { assert i !in a - b; }
  }

  /** The slots of the batch from lo on hold exactly the results produced so far. */
  predicate SlotsOk(done: map<nat, Message>, slots: seq<Option<Message>>, lo: nat) {
    forall p | 0 <= p < |slots| :: slots[p] == if lo + p in done then Some(done[lo + p]) else None
  }

  lemma SlotFilled(done: map<nat, Message>, done': map<nat, Message>, slots: seq<Option<Message>>,
                   slots': seq<Option<Message>>, lo: nat, i: nat, msg: Message)
    requires SlotsOk(done, slots, lo) && lo <= i < lo + |slots| && i !in done
    requires done' == done[i := msg] && slots' == slots[i - lo := Some(msg)]
    ensures SlotsOk(done', slots', lo) && Extends(done, done')
  {}

  lemma ExtendsTransitive(a: map<nat, Message>, b: map<nat, Message>, c: map<nat, Message>)
    requires Extends(a, b) && Extends(b, c)
    ensures Extends(a, c)
  {}

  predicate Extends(before: map<nat, Message>, after: map<nat, Message>) {
    forall i | i in before :: i in after && after[i] == before[i]
  }

  /** Nothing has happened to calls from n on. */
  ghost predicate Untouched(p: Progress, n: nat) {
    forall i | i in p.done || i in p.entered :: i < n
  }

  /** A batch lists consecutive Parallel calls from lo on. */
  predicate IsBatch(calls: seq<Call>, batch: seq<nat>, lo: nat) {
    && lo + |batch| <= |calls|
    && forall p | 0 <= p < |batch| :: batch[p] == lo + p && ModeOf(calls[lo + p]) == Parallel
  }

  /** The messages from lo on are those owed for their calls. */
  predicate Answers(calls: seq<Call>, log: seq<Event>, msgs: seq<Message>, lo: nat) {
    lo + |msgs| <= |calls| && forall p | 0 <= p < |msgs| :: msgs[p] == Owed(calls, log, lo + p)
  }

  lemma AnswersAppend(calls: seq<Call>, before: seq<Event>, log: seq<Event>, out: seq<Message>, msgs: seq<Message>)
    requires Answers(calls, before, out, 0) && AllDone(before, |out|) && Extends(Done(before), Done(log))
    requires Answers(calls, log, msgs, |out|)
    ensures Answers(calls, log, out + msgs, 0)
  {}

  class Session {
    const calls: seq<Call>
    const max: nat
    const cancellable: bool
    var log: seq<Event>

    ghost predicate Valid()
      reads this
    {
      max >= 1 && Disciplined(calls, max, log) && Consistent(calls, max, log)
    }

    constructor (calls: seq<Call>, maxConcurrency: nat, cancellable: bool)
      ensures Valid() && log == [] && this.calls == calls && this.cancellable == cancellable
      ensures max == if maxConcurrency < 1 then 1 else maxConcurrency
    {
      this.calls := calls;
      this.max := if maxConcurrency < 1 then 1 else maxConcurrency;
      this.cancellable := cancellable;
      this.log := [];
    }

    method Record(e: Event)
      requires Valid() && Admissible(calls, max, log, e)
      modifies this
      ensures Valid() && log == old(log) + [e]
    {
      EventKeepsConsistent(calls, max, log, e);
      Snoc(log, e);
      log := log + [e];
    }

    /** The token may fire now, if the context carries one. */
    method Tick()
      requires Valid()
      modifies this
      ensures Valid() && (log == old(log) || log == old(log) + [Fire])
      ensures Entered(log) == old(Entered(log)) && InFlight(log) == old(InFlight(log)) && Done(log) == old(Done(log))
      ensures old(Fired(log)) ==> log == old(log)
      ensures Fired(log) && !old(Fired(log)) ==> cancellable
      ensures ReadyCalls(log) == old(ReadyCalls(log)) && WaitsSinceFire(log) == old(WaitsSinceFire(log))
    {
      Snoc(log, Fire);
      if * {
        if cancellable && Fire !in log { Record(Fire); }
      }
    }

    /** What running bodies wait for may arrive; with `soon` set it has arrived for all of them. */
    method Wake(soon: bool)
      requires Valid()
      modifies this
      ensures Valid() && old(log) <= log && Fired(log) == old(Fired(log))
      ensures Entered(log) == old(Entered(log)) && InFlight(log) == old(InFlight(log)) && Done(log) == old(Done(log))
      ensures old(ReadyCalls(log)) <= ReadyCalls(log) && WaitsSinceFire(log) == old(WaitsSinceFire(log))
      ensures soon ==> InFlight(log) <= ReadyCalls(log)
    {
      while InFlight(log) - ReadyCalls(log) != {}
        invariant Valid() && old(log) <= log && Fired(log) == old(Fired(log))
        invariant Entered(log) == old(Entered(log)) && InFlight(log) == old(InFlight(log))
        invariant Done(log) == old(Done(log))
        invariant old(ReadyCalls(log)) <= ReadyCalls(log) && WaitsSinceFire(log) == old(WaitsSinceFire(log))
        decreases InFlight(log) - ReadyCalls(log)
      {
        var enough: bool := *;
        if enough && !soon { return; }
        var i :| i in InFlight(log) - ReadyCalls(log);
        Snoc(log, Ready(i));
        Record(Ready(i));
      }
      NothingLeft(InFlight(log), ReadyCalls(log));
    }

    /** The first poll of execute_tool_call(call i), up to the body: either the call is
        answered without entering its tool, or the body is entered. */
    method FirstPoll(i: nat) returns (r: Option<Message>)
      requires Valid() && MayRun(calls, log, i) && i !in Done(log) && i !in Entered(log)
      requires |InFlight(log)| < max
      modifies this
      ensures Valid() && old(log) <= log && (Fired(log) && !old(Fired(log)) ==> cancellable)
      ensures WaitsSinceFire(log) == old(WaitsSinceFire(log)) && ReadyCalls(log) == old(ReadyCalls(log))
      ensures r.Some? ==>
        && Entered(log) == old(Entered(log)) && InFlight(log) == old(InFlight(log))
        && Done(log) == old(Done(log))[i := r.value] && r.value.isError
      ensures r.None? ==>
        && Entered(log) == old(Entered(log)) + {i} && InFlight(log) == old(InFlight(log)) + {i}
        && Done(log) == old(Done(log)) && !Fired(log) && calls[i].rejection.None? && calls[i].tool.Some?
        && MayRun(calls, log, i)
    {
      assert CallOk(calls, log, i);
      var refused := calls[i].rejection.Some?;
      if !refused {
        Tick();
        refused := Fire in log || calls[i].tool.None?;
      }
      if refused {
        r := FinishCall(i, ErrorResult(calls[i], Refusal(calls[i], Fire in log)));
        return;
      }
      EnterCall(i);
      r := None;
    }

    method EnterCall(i: nat)
      requires Valid() && Admissible(calls, max, log, Enter(i))
      modifies this
      ensures Valid() && log == old(log) + [Enter(i)]
      ensures Entered(log) == old(Entered(log)) + {i} && InFlight(log) == old(InFlight(log)) + {i}
      ensures Done(log) == old(Done(log)) && Fired(log) == old(Fired(log)) && ReadyCalls(log) == old(ReadyCalls(log))
      ensures WaitsSinceFire(log) == old(WaitsSinceFire(log)) && MayRun(calls, log, i)
    {
      Snoc(log, Enter(i));
      Record(Enter(i));
    }

    /** One poll of execute_tool_call(call i): a body that is ready finishes, and no other does. */
    method PollCall(i: nat, soon: bool) returns (r: Option<Message>)
      requires Valid() && MayRun(calls, log, i) && i !in Done(log)
      requires i in Entered(log) ==> i in InFlight(log)
      requires i !in InFlight(log) ==> |InFlight(log)| < max
      modifies this
      ensures Valid() && old(log) <= log && (Fired(log) && !old(Fired(log)) ==> cancellable)
      ensures WaitsSinceFire(log) == old(WaitsSinceFire(log))
      ensures Entered(log) <= old(Entered(log)) + {i} && old(Entered(log)) <= Entered(log)
      ensures r.Some? ==> Done(log) == old(Done(log))[i := r.value] && InFlight(log) == old(InFlight(log)) - {i}
      ensures r.None? ==> Done(log) == old(Done(log)) && InFlight(log) == old(InFlight(log)) + {i} && !soon
      ensures r.None? ==> i !in ReadyCalls(log) && old(ReadyCalls(log)) <= ReadyCalls(log)
      ensures r.None? ==> Fired(log) == old(Fired(log))
      ensures i in InFlight(log) ==> i in Entered(log)
    {
      if i !in InFlight(log) {
        r := FirstPoll(i);
        if r.Some? {
          assert old(InFlight(log)) - {i} == old(InFlight(log));
          return;
        }
      }
      ghost var running := InFlight(log);
      assert CallOk(calls, log, i);
      r := PollRunning(i, soon);
      assert running == old(InFlight(log)) + {i} && running - {i} == old(InFlight(log)) - {i};
    }

    method PollRunning(i: nat, soon: bool) returns (r: Option<Message>)
      requires Valid() && MayRun(calls, log, i) && i in InFlight(log)
      modifies this
      ensures Valid() && old(log) <= log && Entered(log) == old(Entered(log)) && Fired(log) == old(Fired(log))
      ensures WaitsSinceFire(log) == old(WaitsSinceFire(log))
      ensures r.Some? ==> Done(log) == old(Done(log))[i := r.value] && InFlight(log) == old(InFlight(log)) - {i}
      ensures r.None? ==> Done(log) == old(Done(log)) && InFlight(log) == old(InFlight(log)) && !soon
      ensures r.None? ==> i !in ReadyCalls(log) && old(ReadyCalls(log)) <= ReadyCalls(log)
    {
      Wake(soon);
      r := PollBody(i);
    }

    /** One poll of a running body. */
    method PollBody(i: nat) returns (r: Option<Message>)
      requires Valid() && MayRun(calls, log, i) && i in InFlight(log)
      modifies this
      ensures Valid() && old(log) <= log && Entered(log) == old(Entered(log)) && Fired(log) == old(Fired(log))
      ensures WaitsSinceFire(log) == old(WaitsSinceFire(log))
      ensures r.Some? <==> i in old(ReadyCalls(log))
      ensures r.Some? ==> Done(log) == old(Done(log))[i := r.value] && InFlight(log) == old(InFlight(log)) - {i}
      ensures r.None? ==> log == old(log)
    {
      assert CallOk(calls, log, i);
      if i !in ReadyCalls(log) { return None; }
      var ok: bool, content: string := *, *;
      r := FinishCall(i, Message(calls[i].id, calls[i].name, !ok, content));
    }

    method FinishCall(i: nat, msg: Message) returns (r: Option<Message>)
      requires Valid() && Admissible(calls, max, log, Finish(i, msg))
      modifies this
      ensures Valid() && r == Some(msg) && log == old(log) + [Finish(i, msg)]
      ensures InFlight(log) == old(InFlight(log)) - {i}
      ensures Entered(log) == old(Entered(log))
      ensures Done(log) == old(Done(log))[i := msg]
      ensures Fired(log) == old(Fired(log)) && WaitsSinceFire(log) == old(WaitsSinceFire(log))
      ensures ReadyCalls(log) == old(ReadyCalls(log))
    {
      Snoc(log, Finish(i, msg));
      Record(Finish(i, msg));
      r := Some(msg);
    }

    /** run_unless_cancelled(execute_tool_call(call i)) for a Sequential call: the token is
        checked before every poll. */
    method RunSequential(i: nat) returns (r: Option<Message>)
      requires Valid() && i < |calls| && ModeOf(calls[i]) == Sequential
      requires AllDone(log, i) && i !in Done(log) && i !in Entered(log) && InFlight(log) == {}
      requires WaitsSinceFire(log) == 0
      modifies this
      ensures WaitsSinceFire(log) == 0
      ensures Valid() && InFlight(log) == {} && (Fired(log) && !old(Fired(log)) ==> cancellable)
      ensures r.Some? ==> Done(log) == old(Done(log))[i := r.value]
      ensures r.None? ==> Done(log) == old(Done(log)) && Fired(log)
      ensures Entered(log) <= old(Entered(log)) + {i}
    {
      var waits: nat := *;
      while true
        invariant Valid() && Done(log) == old(Done(log)) && InFlight(log) <= {i}
        invariant Entered(log) <= old(Entered(log)) + {i}
        invariant i in Entered(log) ==> i in InFlight(log)
        invariant Fired(log) && !old(Fired(log)) ==> cancellable
        invariant WaitsSinceFire(log) == 0
        decreases waits
      {
        Tick();
        if Fire in log {
          if i in InFlight(log) {
            Snoc(log, Dropped(i));
            Record(Dropped(i));
          }
          return None;
        }
        r := PollCall(i, waits == 0);
        if r.Some? {
          return;
        }
        Wait();
        waits := waits - 1;
      }
    }

    /** The task waits for the next wake-up. */
    method Wait()
      requires Valid() && WaitsSinceFire(log) < 2
      modifies this
      ensures Valid() && log == old(log) + [Idle] && Fired(log) == old(Fired(log))
      ensures Entered(log) == old(Entered(log)) && InFlight(log) == old(InFlight(log)) && Done(log) == old(Done(log))
      ensures ReadyCalls(log) == old(ReadyCalls(log))
      ensures WaitsSinceFire(log) == old(WaitsSinceFire(log)) + if Fired(log) then 1 else 0
    {
      Snoc(log, Idle);
      Record(Idle);
    }

    /** Pulls queued calls while fewer than `max` are unfinished. */
    method Fill(st: Stream) returns (filled: Stream)
      requires Valid() && StreamOk(calls, max, Summary(log), st)
      ensures StreamOk(calls, max, Summary(log), filled)
      ensures filled.lo == st.lo && filled.hi == st.hi && Unfinished(filled) == Unfinished(st)
      ensures |filled.pulled| >= max || filled.next == filled.hi
    {
      filled := st;
      while |filled.pulled| < max && filled.next < filled.hi
        invariant StreamOk(calls, max, Summary(log), filled)
        invariant filled.lo == st.lo && filled.hi == st.hi && Unfinished(filled) == Unfinished(st)
        decreases filled.hi - filled.next
      {
        ghost var was := filled;
        assert StreamCallOk(calls, Summary(log), was, was.next);
        filled := filled.(pulled := filled.pulled + {filled.next}, next := filled.next + 1);
        forall i ensures StreamCallOk(calls, Summary(log), filled, i) {
          assert StreamCallOk(calls, Summary(log), was, i);
        }
      }
    }

    /** One poll of one pulled call. */
    method PollPulled(st: Stream, i: nat, soon: bool) returns (st': Stream, m: Option<Message>)
      requires Valid() && StreamOk(calls, max, Summary(log), st) && i in st.pulled
      modifies this
      ensures Valid() && StreamOk(calls, max, Summary(log), st')
      ensures old(log) <= log && (Fired(log) && !old(Fired(log)) ==> cancellable)
      ensures WaitsSinceFire(log) == old(WaitsSinceFire(log))
      ensures m.None? ==> st' == st && Done(log) == old(Done(log)) && !soon
      ensures m.None? ==> i !in old(ReadyCalls(log)) || i !in old(InFlight(log))
      ensures m.None? ==> i in InFlight(log) && old(InFlight(log)) <= InFlight(log)
      ensures m.Some? ==> st' == st.(pulled := st.pulled - {i}) && Done(log) == old(Done(log))[i := m.value]
      ensures i !in old(Done(log)) && st.lo <= i < st.hi
    {
      ghost var was := Summary(log);
      assert StreamCallOk(calls, was, st, i);
      forall j | 0 <= j < i && ModeOf(calls[j]) == Sequential ensures j in Done(log) {
        assert StreamCallOk(calls, was, st, j);
      }
      if i !in InFlight(log) {
        forall j ensures j in InFlight(log) ==> j in st.pulled { assert StreamCallOk(calls, was, st, j); }
        ProperSubsetIsSmaller(InFlight(log), st.pulled, i);
      }
      m := PollCall(i, soon);
      st' := if m.Some? then st.(pulled := st.pulled - {i}) else st;
      forall j ensures StreamCallOk(calls, Summary(log), st', j) { assert StreamCallOk(calls, was, st, j); }
    }

    /** One poll of `results.next()`: the pulled calls are polled, in any order, until one finishes
        and is yielded. It is pending only if none of them is ready to finish. */
    method PollNext(st: Stream, soon: bool) returns (st': Stream, r: Polled)
      requires Valid() && StreamOk(calls, max, Summary(log), st) && WaitsSinceFire(log) < 2
      requires soon ==> !Fired(log)
      modifies this
      ensures Valid() && StreamOk(calls, max, Summary(log), st') && st'.lo == st.lo && st'.hi == st.hi
      ensures old(log) <= log && (Fired(log) && !old(Fired(log)) ==> cancellable)
      ensures WaitsSinceFire(log) == old(WaitsSinceFire(log)) + if r.Pending? && Fired(log) then 1 else 0
      ensures r.Pending? ==> Done(log) == old(Done(log)) && Unfinished(st') == Unfinished(st) && !soon
      ensures r.Pending? ==> st'.pulled * ReadyCalls(log) == {} && (|st'.pulled| >= max || st'.next == st'.hi)
      ensures r.Pending? ==> log != [] && log[|log| - 1] == Idle && st'.pulled <= InFlight(log)
      ensures r.Exhausted? ==> Done(log) == old(Done(log)) && st'.pulled == {} && st'.next == st'.hi
      ensures r.Yield? ==>
        && st.lo <= r.call < st.hi && r.call !in old(Done(log))
        && Done(log) == old(Done(log))[r.call := r.msg]
        && Unfinished(st') < Unfinished(st)
    {
      st' := Fill(st);
      if st'.pulled == {} {
        return st', Exhausted;
      }
      var unpolled := st'.pulled;
      ghost var filled := st';
      while unpolled != {}
        invariant Valid() && StreamOk(calls, max, Summary(log), filled) && st' == filled
        invariant Done(log) == old(Done(log)) && old(log) <= log
        invariant Fired(log) && !old(Fired(log)) ==> cancellable
        invariant WaitsSinceFire(log) == old(WaitsSinceFire(log))
        invariant unpolled <= st'.pulled <= InFlight(log) + unpolled
        invariant soon ==> unpolled == st'.pulled
        decreases unpolled
      {
        var i :| i in unpolled;
        var m;
        st', m := PollPulled(st', i, soon);
        if m.Some? {
          return st', Yield(i, m.value);
        }
        unpolled := unpolled - {i};
      }
      // some may have become ready after they were polled
      var ready := st'.pulled * ReadyCalls(log);
      if ready == {} {
        Wait();
        return st', Pending;
      }
      var i :| i in ready;
      var m;
      st', m := PollPulled(st', i, false);
      r := Yield(i, m.value);
    }

    /** Polls the stream once and stores what it yields in its slot. */
    method Take(st: Stream, slots: seq<Option<Message>>, soon: bool)
      returns (st': Stream, slots': seq<Option<Message>>, r: Polled)
      requires WaitsSinceFire(log) < 2 && (soon ==> !Fired(log))
      requires Valid() && StreamOk(calls, max, Summary(log), st) && SlotsOk(Done(log), slots, st.lo)
      requires |slots| == st.hi - st.lo
      modifies this
      ensures Valid() && StreamOk(calls, max, Summary(log), st') && SlotsOk(Done(log), slots', st'.lo)
      ensures |slots'| == |slots|
      ensures st'.lo == st.lo && st'.hi == st.hi
      ensures old(log) <= log && (Fired(log) && !old(Fired(log)) ==> cancellable)
      ensures Extends(old(Done(log)), Done(log))
      ensures WaitsSinceFire(log) == old(WaitsSinceFire(log)) + if r.Pending? && Fired(log) then 1 else 0
      ensures r.Pending? ==> Unfinished(st') == Unfinished(st) && !soon
      ensures r.Pending? ==> st'.pulled * ReadyCalls(log) == {}
      ensures r.Exhausted? ==> st'.pulled == {} && st'.next == st'.hi
      ensures r.Yield? ==> Unfinished(st') < Unfinished(st)
    {
      ghost var before := Done(log);
      st', r := PollNext(st, soon);
      if !r.Yield? {
        return st', slots, r;
      }
      slots' := slots[r.call - st.lo := Some(r.msg)];
      SlotFilled(before, Done(log), slots, slots', st.lo, r.call, r.msg);
    }

    /** Runs the stream until it is exhausted or the token fires. */
    method Drive(st0: Stream, slots0: seq<Option<Message>>)
      returns (st: Stream, slots: seq<Option<Message>>, aborted: bool)
      requires Valid() && StreamOk(calls, max, Summary(log), st0) && SlotsOk(Done(log), slots0, st0.lo)
      requires |slots0| == st0.hi - st0.lo && WaitsSinceFire(log) == 0
      modifies this
      ensures Valid() && StreamOk(calls, max, Summary(log), st) && SlotsOk(Done(log), slots, st.lo)
      ensures |slots| == |slots0|
      ensures st.lo == st0.lo && st.hi == st0.hi
      ensures Fired(log) && !old(Fired(log)) ==> cancellable
      ensures Extends(old(Done(log)), Done(log))
      ensures aborted ==> Fired(log) && WaitsSinceFire(log) <= 1
      ensures !aborted ==> st.pulled == {} && st.next == st.hi && WaitsSinceFire(log) == 0
    {
      st, slots, aborted := st0, slots0, false;
      var waits: nat := *;
      while true
        invariant Valid() && StreamOk(calls, max, Summary(log), st) && SlotsOk(Done(log), slots, st.lo)
        invariant |slots| == |slots0|
        invariant st.lo == st0.lo && st.hi == st0.hi && !aborted && WaitsSinceFire(log) <= 1
        invariant Extends(old(Done(log)), Done(log))
        invariant Fired(log) && !old(Fired(log)) ==> cancellable
        decreases Unfinished(st), waits
      {
        Tick();
        if Fire in log {
          return st, slots, true;
        }
        ghost var done := Done(log);
        var r;
        st, slots, r := Take(st, slots, waits == 0);
        ExtendsTransitive(old(Done(log)), done, Done(log));
        if r.Exhausted? {
          return;
        }
        if r.Pending? { waits := waits - 1; }
      }
    }

    /** After an abort: keeps taking what the stream can yield without waiting, so that nothing
        still runs that was ready to finish. This may pull queued calls, whose tools are not
        entered because the token has fired. */
    method Salvage(st0: Stream, slots0: seq<Option<Message>>) returns (st: Stream, slots: seq<Option<Message>>)
      requires Valid() && StreamOk(calls, max, Summary(log), st0) && SlotsOk(Done(log), slots0, st0.lo)
      requires |slots0| == st0.hi - st0.lo
      requires Fired(log) && WaitsSinceFire(log) <= 1
      modifies this
      ensures Valid() && StreamOk(calls, max, Summary(log), st) && SlotsOk(Done(log), slots, st.lo)
      ensures |slots| == |slots0|
      ensures st.lo == st0.lo && st.hi == st0.hi
      ensures Fired(log) && Extends(old(Done(log)), Done(log))
      ensures InFlight(log) * ReadyCalls(log) == {}
    {
      st, slots := st0, slots0;
      while true
        invariant Valid() && StreamOk(calls, max, Summary(log), st) && SlotsOk(Done(log), slots, st.lo)
        invariant |slots| == |slots0|
        invariant st.lo == st0.lo && st.hi == st0.hi
        invariant Fired(log) && Extends(old(Done(log)), Done(log)) && WaitsSinceFire(log) <= 1
        decreases Unfinished(st)
      {
        ghost var done := Done(log);
        var r;
        st, slots, r := Take(st, slots, false);
        ExtendsTransitive(old(Done(log)), done, Done(log));
        if !r.Yield? {
          assert InFlight(log) <= st.pulled by {
            forall i | i in InFlight(log) ensures i in st.pulled { assert StreamCallOk(calls, Summary(log), st, i); }
          }
          return;
        }
      }
    }

    /** drop(results): every body still running is dropped. */
    method DropRunning()
      requires Valid() && (InFlight(log) != {} ==> Fired(log)) && InFlight(log) * ReadyCalls(log) == {}
      modifies this
      ensures Valid() && InFlight(log) == {} && Fired(log) == old(Fired(log))
      ensures Done(log) == old(Done(log)) && Entered(log) == old(Entered(log))
      ensures WaitsSinceFire(log) == old(WaitsSinceFire(log))
    {
      while InFlight(log) != {}
        invariant Valid() && (InFlight(log) != {} ==> Fired(log)) && Fired(log) == old(Fired(log))
        invariant InFlight(log) * ReadyCalls(log) == {} && WaitsSinceFire(log) == old(WaitsSinceFire(log))
        invariant Done(log) == old(Done(log)) && Entered(log) == old(Entered(log))
        decreases InFlight(log)
      {
        var i :| i in InFlight(log);
        Snoc(log, Dropped(i));
        Record(Dropped(i));
      }
    }

    /** flush_parallel_batch: runs the batch and yields one message per entry, in the batch's
        order. Reports false when the token fired mid-batch. */
    method FlushParallelBatch(batch: seq<nat>, ghost lo: nat) returns (msgs: seq<Message>, ok: bool)
      requires Valid() && InFlight(log) == {} && IsBatch(calls, batch, lo)
      requires AllDone(log, lo) && Untouched(Summary(log), lo) && WaitsSinceFire(log) == 0
      modifies this
      ensures ok ==> WaitsSinceFire(log) == 0
      ensures Valid() && InFlight(log) == {} && (Fired(log) && !old(Fired(log)) ==> cancellable)
      ensures |msgs| == |batch| && Answers(calls, log, msgs, lo)
      ensures Extends(old(Done(log)), Done(log)) && Untouched(Summary(log), lo + |batch|)
      ensures ok ==> AllDone(log, lo + |batch|)
      ensures !ok ==> Fired(log)
    {
      if batch == [] {
        return [], true;
      }
      var st := Stream(batch[0], batch[0] + |batch|, batch[0], {});
      FreshStream(batch, lo);
      var slots: seq<Option<Message>> := seq(|batch|, _ => None);
      var aborted;
      st, slots, aborted := Drive(st, slots);
      if aborted {
        ghost var done := Done(log);
        st, slots := Salvage(st, slots);
        ExtendsTransitive(old(Done(log)), done, Done(log));
      }
      ok := !aborted;
      msgs := Settle(batch, st, slots, lo);
    }

    lemma FreshStream(batch: seq<nat>, lo: nat)
      requires Valid() && InFlight(log) == {} && IsBatch(calls, batch, lo) && batch != []
      requires AllDone(log, lo) && Untouched(Summary(log), lo)
      ensures batch[0] == lo && StreamOk(calls, max, Summary(log), Stream(lo, lo + |batch|, lo, {}))
      ensures SlotsOk(Done(log), seq(|batch|, _ => None), lo)
    {
      var st := Stream(lo, lo + |batch|, lo, {});
      forall i: nat ensures StreamCallOk(calls, Summary(log), st, i) {
        assert i < lo ==> i in Done(log);
        if lo <= i < st.hi { assert batch[i - lo] == i; }
      }
    }

    /** A stream that is exhausted leaves nothing running and every call up to its end done. */
    lemma StreamSettles(st: Stream)
      requires Valid() && StreamOk(calls, max, Summary(log), st)
      ensures Untouched(Summary(log), st.hi)
      ensures st.pulled == {} ==> InFlight(log) == {}
      ensures st.pulled == {} && st.next == st.hi ==> AllDone(log, st.hi)
    {
      forall i: nat
        ensures i in Done(log) || i in Entered(log) ==> i < st.hi
        ensures st.pulled == {} ==> i !in InFlight(log)
        ensures st.pulled == {} && i < st.next ==> i in Done(log)
      {
        assert StreamCallOk(calls, Summary(log), st, i);
      }
    }

    /** The end of a batch: what still runs is dropped, and the slots become messages. */
    method Settle(batch: seq<nat>, st: Stream, slots: seq<Option<Message>>, ghost lo: nat) returns (msgs: seq<Message>)
      requires Valid() && StreamOk(calls, max, Summary(log), st) && SlotsOk(Done(log), slots, lo)
      requires IsBatch(calls, batch, lo) && |slots| == |batch| && st.lo == lo && st.hi == lo + |batch|
      requires (Fired(log) && InFlight(log) * ReadyCalls(log) == {}) || (st.pulled == {} && st.next == st.hi)
      modifies this
      ensures Valid() && InFlight(log) == {} && Fired(log) == old(Fired(log))
      ensures Done(log) == old(Done(log)) && Untouched(Summary(log), lo + |batch|)
      ensures WaitsSinceFire(log) == old(WaitsSinceFire(log))
      ensures |msgs| == |batch| && Answers(calls, log, msgs, lo)
      ensures st.pulled == {} && st.next == st.hi ==> AllDone(log, lo + |batch|)
    {
      StreamSettles(st);
      DropRunning();
      msgs := Collect(batch, slots);
    }

    /** The messages of a batch: its slots, with aborted results for the empty ones. */
    method Collect(batch: seq<nat>, slots: seq<Option<Message>>) returns (msgs: seq<Message>)
      requires |slots| == |batch| && forall p | 0 <= p < |batch| :: batch[p] < |calls|
      ensures |msgs| == |batch|
      ensures forall p | 0 <= p < |batch| ::
        msgs[p] == if slots[p].Some? then slots[p].value else ErrorResult(calls[batch[p]], ABORTED_TEXT)
    {
      msgs := [];
      for p := 0 to |batch|
        invariant |msgs| == p
        invariant forall q | 0 <= q < p ::
          msgs[q] == if slots[q].Some? then slots[q].value else ErrorResult(calls[batch[q]], ABORTED_TEXT)
      {
        msgs := msgs + [match slots[p] case Some(msg) => msg case None => ErrorResult(calls[batch[p]], ABORTED_TEXT)];
      }
    }

    /** One round of the loop of call_tools: flush the batch in front of the Sequential call
        i, then run that call alone. */
    method Barrier(batch: seq<nat>, out: seq<Message>, i: nat) returns (out': seq<Message>, aborted: bool)
      requires Valid() && InFlight(log) == {} && |out| + |batch| == i < |calls| && ModeOf(calls[i]) == Sequential
      requires IsBatch(calls, batch, |out|)
      requires AllDone(log, |out|) && Untouched(Summary(log), |out|) && Answers(calls, log, out, 0)
      requires WaitsSinceFire(log) == 0
      modifies this
      ensures Valid() && InFlight(log) == {} && (Fired(log) && !old(Fired(log)) ==> cancellable)
      ensures Answers(calls, log, out', 0)
      ensures !aborted ==> WaitsSinceFire(log) == 0
      ensures !aborted ==> |out'| == i + 1 && AllDone(log, i + 1) && Untouched(Summary(log), i + 1)
      ensures aborted ==> Fired(log) && forall j | |out'| <= j :: j !in Done(log)
    {
      var msgs, ok := FlushParallelBatch(batch, |out|);
      AnswersAppend(calls, old(log), log, out, msgs);
      if !ok {
        return out + msgs, true;
      }
      out', aborted := SequentialStep(out + msgs, i);
    }

    /** The Sequential call of a round. */
    method SequentialStep(out: seq<Message>, i: nat) returns (out': seq<Message>, aborted: bool)
      requires Valid() && InFlight(log) == {} && |out| == i < |calls| && ModeOf(calls[i]) == Sequential
      requires AllDone(log, i) && Untouched(Summary(log), i) && Answers(calls, log, out, 0)
      requires WaitsSinceFire(log) == 0
      modifies this
      ensures Valid() && InFlight(log) == {} && (Fired(log) && !old(Fired(log)) ==> cancellable)
      ensures Answers(calls, log, out', 0)
      ensures !aborted ==> WaitsSinceFire(log) == 0
      ensures !aborted ==> |out'| == i + 1 && AllDone(log, i + 1) && Untouched(Summary(log), i + 1)
      ensures aborted ==> Fired(log) && forall j | |out'| <= j :: j !in Done(log)
    {
      var msg := RunSequential(i);
      if msg.None? {
        AnswersAppend(calls, old(log), log, out, []);
        assert out + [] == out;
        return out, true;
      }
      AnswersAppend(calls, old(log), log, out, [msg.value]);
      return out + [msg.value], false;
    }

    /** call_tools: one message per call, in input order. */
    method CallTools() returns (out: seq<Message>)
      requires Valid() && log == []
      modifies this
      ensures Valid() && InFlight(log) == {}
      ensures |out| == |calls|
      ensures forall i | 0 <= i < |calls| :: out[i] == Owed(calls, log, i)
      ensures Fired(log) || AllDone(log, |calls|)
      ensures Fired(log) ==> cancellable
    {
      out := [];
      if calls == [] {
        return;
      }
      var batch: seq<nat> := [];
      var aborted := false;
      var i := 0;
      while i < |calls| && !aborted
        invariant 0 <= i <= |calls|
        invariant Valid() && InFlight(log) == {} && (Fired(log) ==> cancellable) && Answers(calls, log, out, 0)
        invariant !aborted ==>
          && |out| + |batch| == i && AllDone(log, |out|) && Untouched(Summary(log), |out|)
          && IsBatch(calls, batch, |out|) && WaitsSinceFire(log) == 0
        invariant aborted ==> Fired(log) && forall j | |out| <= j :: j !in Done(log)
        decreases |calls| - i, !aborted
      {
        if ModeOf(calls[i]) == Parallel {
          batch := batch + [i];
        } else {
          out, aborted := Barrier(batch, out, i);
          batch := [];
        }
        i := i + 1;
      }
      if !aborted {
        ghost var before := log;
        var msgs, ok := FlushParallelBatch(batch, |out|);
        AnswersAppend(calls, before, log, out, msgs);
        out := out + msgs;
        aborted := !ok;
      }
      if aborted {
        for j := |out| to |calls|
          invariant |out| == j && Answers(calls, log, out, 0)
          invariant forall k | j <= k :: k !in Done(log)
        {
          out := out + [ErrorResult(calls[j], ABORTED_TEXT)];
        }
      }
    }
  }
}
