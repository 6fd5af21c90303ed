/** Cancellation of agent loops.

    Every running agent loop owns a `(generation, token)` slot. A preset owns a root
    token and agent tokens are children of such roots. The source protects each table by
    its own mutex and never holds two of them, so one action below is one critical
    section (or one poll of a `select!`), and actions of different tasks interleave
    freely. */
module AgentTokens {

  type Root = nat
  type Generation = nat

  /** A child token, with the root it was derived from and the generation it was made for. */
  datatype Token = Token(id: nat, root: Root, owner: Generation)

  datatype Phase =
    | Starting                   // racing start() against the token
    | Waiting                    // at the message channel
    | Processing                 // process() has been polled at least once
    | Fired                      // the token branch was taken; the parent is looked up next
    | Renewing(renewed: Token)   // a new child was made; the slot is checked next
    | Adopting(renewed: Token)   // the slot was written; the loop's own variable is next
    | Exited

  datatype Loop = Loop(agent: string, preset: string, token: Token, phase: Phase)

  datatype Slot = Slot(generation: Generation, token: Token)

  /** A start_agent call between deriving its token and installing the slot. */
  datatype Birth = Birth(agent: string, preset: string, token: Token)

  datatype State = State(
    nextToken: nat,
    firedRoots: set<Root>,
    firedTokens: set<Token>,
    presetTokens: map<string, Root>,
    agentTokens: map<string, Slot>,
    cancels: set<Root>,                // read by cancel_preset_token, not yet fired
    births: map<Generation, Birth>,
    stops: map<Generation, Token>,     // removed by stop_agent, not yet fired
    loops: map<Generation, Loop>,
    nextGeneration: Generation)

  const INITIAL := State(0, {}, {}, map[], map[], {}, map[], map[], map[], 1)

  /** What a loop does on its own account. */
  datatype Step =
    | Started      // start() succeeded
    | Exit         // start() failed or was cancelled; Stop message; channel closed
    | Begin        // token found live, process() polled for the first time
    | Finish       // process() returned
    | Observe      // token found fired: process() is skipped or dropped
    | ReadParent   // renew_agent_token, parent lookup
    | WriteSlot    // renew_agent_token, slot check and write
    | Adopt        // token = fresh

  datatype Action =
    | ResetPreset(preset: string)             // reset_preset_token
    | ReadForCancel(preset: string)           // cancel_preset_token, lookup
    | FirePreset(root: Root)                  // cancel_preset_token, cancel
    | RemovePreset(preset: string)            // remove_preset_token
    | Derive(agent: string, preset: string)   // create_agent_token, child token
    | Install(generation: Generation)         // create_agent_token, slot; spawn
    | RemoveSlot(agent: string)               // stop_agent, swap_remove
    | FireSlot(generation: Generation)        // stop_agent, cancel
    | By(loop: Generation, step: Step)

  /** A token counts as cancelled when it or its root has been cancelled. */
  predicate Live(s: State, t: Token) {
    t !in s.firedTokens && t.root !in s.firedRoots
  }

  predicate InPhase(s: State, g: Generation, p: Phase) { g in s.loops && s.loops[g].phase == p }

  predicate Owns(s: State, g: Generation, agent: string) {
    agent in s.agentTokens && s.agentTokens[agent].generation == g
  }

  predicate StepEnabled(s: State, g: Generation, step: Step) {
    match step
    case Started => InPhase(s, g, Starting) && Live(s, s.loops[g].token)
    case Exit => InPhase(s, g, Starting) || InPhase(s, g, Waiting)
    case Begin => InPhase(s, g, Waiting) && Live(s, s.loops[g].token)
    case Finish => InPhase(s, g, Processing)
    case Observe => (InPhase(s, g, Waiting) || InPhase(s, g, Processing)) && !Live(s, s.loops[g].token)
    case ReadParent => InPhase(s, g, Fired)
    case WriteSlot => g in s.loops && s.loops[g].phase.Renewing?
    case Adopt => g in s.loops && s.loops[g].phase.Adopting?
  }

  predicate Enabled(s: State, a: Action) {
    match a
    case ReadForCancel(p) => p in s.presetTokens
    case FirePreset(root) => root in s.cancels
    case Install(g) => g in s.births
    case RemoveSlot(agent) => agent in s.agentTokens
    case FireSlot(g) => g in s.stops
    case By(g, step) => StepEnabled(s, g, step)
    case _ => true
  }

  function FreshRoot(s: State, preset: string): State {
    s.(presetTokens := s.presetTokens[preset := s.nextToken], nextToken := s.nextToken + 1)
  }

  function SetLoop(s: State, g: Generation, l: Loop): State {
    s.(loops := s.loops[g := l])
  }

  function ApplyStep(s: State, g: Generation, step: Step): State
    requires StepEnabled(s, g, step)
  {
    var l := s.loops[g];
    match step
    case Started => SetLoop(s, g, l.(phase := Waiting))
    case Exit => SetLoop(s, g, l.(phase := Exited))
    case Begin => SetLoop(s, g, l.(phase := Processing))
    case Finish => SetLoop(s, g, l.(phase := Waiting))
    case Observe => SetLoop(s, g, l.(phase := Fired))
    case ReadParent =>
      if l.preset !in s.presetTokens then SetLoop(s, g, l.(phase := Waiting))
      else SetLoop(s.(nextToken := s.nextToken + 1), g,
                   l.(phase := Renewing(Token(s.nextToken, s.presetTokens[l.preset], g))))
    case WriteSlot =>
      if !Owns(s, g, l.agent) then SetLoop(s, g, l.(phase := Waiting))
      else SetLoop(s.(agentTokens := s.agentTokens[l.agent := Slot(g, l.phase.renewed)]), g,
                   l.(phase := Adopting(l.phase.renewed)))
    case Adopt => SetLoop(s, g, l.(token := l.phase.renewed, phase := Waiting))
  }

  function Apply(s: State, a: Action): State
    requires Enabled(s, a)
  {
    match a
    case ResetPreset(p) => FreshRoot(s, p)
    case ReadForCancel(p) => s.(cancels := s.cancels + {s.presetTokens[p]})
    case FirePreset(root) => s.(cancels := s.cancels - {root}, firedRoots := s.firedRoots + {root})
    case RemovePreset(p) => s.(presetTokens := s.presetTokens - {p})
    case Derive(agent, p) =>
      var r := if p in s.presetTokens then s else FreshRoot(s, p);
      r.(births := r.births[r.nextGeneration :=
           Birth(agent, p, Token(r.nextToken, r.presetTokens[p], r.nextGeneration))],
         nextToken := r.nextToken + 1,
         nextGeneration := r.nextGeneration + 1)
    case Install(g) =>
      var b := s.births[g];
      s.(births := s.births - {g},
         agentTokens := s.agentTokens[b.agent := Slot(g, b.token)],
         loops := s.loops[g := Loop(b.agent, b.preset, b.token, Starting)])
    case RemoveSlot(agent) =>
      var slot := s.agentTokens[agent];
      s.(agentTokens := s.agentTokens - {agent}, stops := s.stops[slot.generation := slot.token])
    case FireSlot(g) => s.(stops := s.stops - {g}, firedTokens := s.firedTokens + {s.stops[g]})
    case By(g, step) => ApplyStep(s, g, step)
  }

  // ---------------------------------------------------------------- invariant

  /** The token a loop answers to: its own, or the one it is about to adopt. */
  function Current(l: Loop): Token {
    if l.phase.Adopting? then l.phase.renewed else l.token
  }

  predicate IssuedTo(s: State, t: Token, g: Generation) { t.id < s.nextToken && t.owner == g }

  predicate LostSlot(s: State, g: Generation) { g in s.loops && !Owns(s, g, s.loops[g].agent) }

  /** The loop has lost its slot, and no stop is about to cancel its token. */
  predicate Silenced(s: State, g: Generation) { LostSlot(s, g) && g !in s.stops }

  /** What holds of one generation: while it owns its slot or is being stopped, it answers to
      the slot's token. */
  predicate GenerationOk(s: State, g: Generation) {
    && (g in s.births ==>
          && g < s.nextGeneration && g !in s.loops
          && IssuedTo(s, s.births[g].token, g) && s.births[g].token !in s.firedTokens)
    && (g in s.stops ==> LostSlot(s, g) && s.stops[g] == Current(s.loops[g]))
    && (g in s.loops ==>
          var l := s.loops[g];
          && g < s.nextGeneration
          && IssuedTo(s, l.token, g)
          && (l.phase.Renewing? || l.phase.Adopting? ==> IssuedTo(s, l.phase.renewed, g))
          && (l.phase.Fired? || l.phase.Renewing? || l.phase.Adopting? ==> !Live(s, l.token)))
  }

  predicate SlotOk(s: State, agent: string) {
    agent in s.agentTokens ==>
      var g := s.agentTokens[agent].generation;
      && g in s.loops
      && s.loops[g].agent == agent
      && s.agentTokens[agent].token == Current(s.loops[g])
  }

  ghost predicate RootsOk(s: State) {
    && (forall r | r in s.firedRoots :: r < s.nextToken)
    && (forall r | r in s.cancels :: r < s.nextToken)
    && (forall t | t in s.firedTokens :: t.id < s.nextToken)
    && (forall p | p in s.presetTokens :: s.presetTokens[p] < s.nextToken)
    && (forall p, q | p in s.presetTokens && q in s.presetTokens && s.presetTokens[p] == s.presetTokens[q] :: p == q)
  }

  ghost predicate Inv(s: State) {
    && RootsOk(s)
    && (forall g :: GenerationOk(s, g))
    && (forall agent :: SlotOk(s, agent))
  }

  /** The loop answers to nothing live. */
  predicate Quiet(s: State, g: Generation) {
    g in s.loops && !s.loops[g].phase.Exited? ==> !Live(s, Current(s.loops[g]))
  }

  /** Once the loop has lost its slot it answers to nothing live. */
  predicate LostMeansQuiet(s: State, g: Generation) { Silenced(s, g) ==> Quiet(s, g) }

  /** start_agent's slot is free: absent, left by an exited loop, or holding a dead token. */
  predicate SlotFree(s: State, agent: string) {
    agent in s.agentTokens ==> Quiet(s, s.agentTokens[agent].generation)
  }

  /** A start overwrites the slot of loop g while g still answers to a live token. */
  predicate Overwrites(s: State, a: Action, g: Generation) {
    a.Install? && a.generation in s.births && Owns(s, g, s.births[a.generation].agent) && !Quiet(s, g)
  }

  lemma InitialInv()
    ensures Inv(INITIAL)
  {}

  /** A loop's own step touches its own record, its own slot and the token counter only. */
  lemma StepFrame(s: State, g: Generation, step: Step)
    requires StepEnabled(s, g, step)
    ensures var s' := ApplyStep(s, g, step);
      && g in s.loops
      && s' == s.(nextToken := s'.nextToken, agentTokens := s'.agentTokens, loops := s.loops[g := s'.loops[g]])
      && s.nextToken <= s'.nextToken
      && s'.loops[g].agent == s.loops[g].agent && s'.loops[g].preset == s.loops[g].preset
      && s'.agentTokens.Keys == s.agentTokens.Keys
    ensures forall a :: Owns(ApplyStep(s, g, step), g, a) <==> Owns(s, g, a)
    ensures forall a | a in s.agentTokens && !Owns(s, g, a) :: ApplyStep(s, g, step).agentTokens[a] == s.agentTokens[a]
  {}

  lemma {:induction false} StepKeepsRoots(s: State, a: Action)
    requires Inv(s) && Enabled(s, a)
    ensures RootsOk(Apply(s, a))
  {
    match a
    case FireSlot(g) => assert GenerationOk(s, g);
    case By(g, step) => StepFrame(s, g, step);
    case _ =>
  }

  lemma StepKeepsSlot(s: State, a: Action, agent: string)
    requires Inv(s) && Enabled(s, a)
    ensures SlotOk(Apply(s, a), agent)
  {
    assert SlotOk(s, agent);
    match a
    case Install(g) => assert GenerationOk(s, g);
    case By(g, step) => StepFrame(s, g, step); assert GenerationOk(s, g);
    case _ =>
  }

  lemma OwnStepKeepsGeneration(s: State, g: Generation, step: Step)
    requires Inv(s) && StepEnabled(s, g, step)
    ensures GenerationOk(ApplyStep(s, g, step), g)
  {
    assert GenerationOk(s, g) && SlotOk(s, s.loops[g].agent);
  }

  /** What the state of one generation depends on. */
  lemma GenerationFrame(s: State, s': State, g: Generation)
    requires GenerationOk(s, g)
    requires s'.births == s.births && s'.stops == s.stops
    requires g in s.loops <==> g in s'.loops
    requires g in s.loops ==> s'.loops[g] == s.loops[g]
    requires g in s.loops ==> (Owns(s', g, s.loops[g].agent) <==> Owns(s, g, s.loops[g].agent))
    requires s'.firedTokens == s.firedTokens && s'.firedRoots == s.firedRoots
    requires s.nextToken <= s'.nextToken && s.nextGeneration <= s'.nextGeneration
    ensures GenerationOk(s', g)
  {}

  lemma ForeignStepKeepsGeneration(s: State, h: Generation, step: Step, g: Generation)
    requires Inv(s) && StepEnabled(s, h, step) && h != g
    ensures GenerationOk(ApplyStep(s, h, step), g)
  {
    var s' := ApplyStep(s, h, step);
    StepFrame(s, h, step);
    assert GenerationOk(s, g);
    if g in s.loops {
      var agent := s.loops[g].agent;
      assert Owns(s', h, agent) <==> Owns(s, h, agent);
    }
    GenerationFrame(s, s', g);
  }

  lemma PresetActionKeepsGeneration(s: State, a: Action, g: Generation)
    requires Inv(s) && Enabled(s, a) && !a.By?
    requires !a.Install? && !a.RemoveSlot? && !a.FireSlot?
    ensures GenerationOk(Apply(s, a), g)
  {
    assert GenerationOk(s, g);
  }

  lemma SlotActionKeepsGeneration(s: State, a: Action, g: Generation)
    requires Inv(s) && Enabled(s, a)
    requires a.Install? || a.RemoveSlot? || a.FireSlot?
    ensures GenerationOk(Apply(s, a), g)
  {
    assert GenerationOk(s, g);
    if g in s.loops { assert SlotOk(s, s.loops[g].agent); }
    if a.RemoveSlot? { assert SlotOk(s, a.agent); }
    else { assert GenerationOk(s, a.generation); }
  }

  lemma StepKeepsGeneration(s: State, a: Action, g: Generation)
    requires Inv(s) && Enabled(s, a)
    ensures GenerationOk(Apply(s, a), g)
  {
    match a
    case By(h, step) =>
      if h == g { OwnStepKeepsGeneration(s, g, step); } else { ForeignStepKeepsGeneration(s, h, step, g); }
    case Install(_) => SlotActionKeepsGeneration(s, a, g);
    case RemoveSlot(_) => SlotActionKeepsGeneration(s, a, g);
    case FireSlot(_) => SlotActionKeepsGeneration(s, a, g);
    case _ => PresetActionKeepsGeneration(s, a, g);
  }

  lemma {:induction false} StepKeepsInv(s: State, a: Action)
    requires Inv(s) && Enabled(s, a)
    ensures Inv(Apply(s, a))
  {
    StepKeepsRoots(s, a);
    forall g { StepKeepsGeneration(s, a, g); }
    forall agent { StepKeepsSlot(s, a, agent); }
  }

  // ------------------------------------------------------------ runs

  /** A run: consecutive states joined by enabled actions of any tasks. */
  ghost predicate Run(tr: seq<State>, acts: seq<Action>) {
    && |tr| == |acts| + 1
    && Inv(tr[0])
    && forall i | 0 <= i < |acts| :: StepAt(tr, acts, i)
  }

  ghost predicate StepAt(tr: seq<State>, acts: seq<Action>, i: nat)
    requires |tr| == |acts| + 1 && i < |acts|
  {
    && Enabled(tr[i], acts[i])
    && tr[i + 1] == Apply(tr[i], acts[i])
  }

  lemma {:induction false} InvAlong(tr: seq<State>, acts: seq<Action>, k: nat)
    requires Run(tr, acts) && k < |tr|
    ensures Inv(tr[k])
  {
    if k > 0 {
      InvAlong(tr, acts, k - 1);
      assert StepAt(tr, acts, k - 1);
      StepKeepsInv(tr[k - 1], acts[k - 1]);
    }
  }

  // ------------------------------------------------ stop_agent silences a loop

  /** No renewal and no start ever gives a lost slot back to a loop. */
  lemma LostStays(s: State, a: Action, g: Generation)
    requires Inv(s) && Enabled(s, a) && LostSlot(s, g)
    ensures LostSlot(Apply(s, a), g)
  {
    match a
    case Install(h) => assert GenerationOk(s, h);
    case By(h, step) => StepFrame(s, h, step);
    case _ =>
  }

  lemma {:induction false} LostForever(tr: seq<State>, acts: seq<Action>, g: Generation, i: nat, k: nat)
    requires Run(tr, acts) && i <= k < |tr| && LostSlot(tr[i], g)
    ensures LostSlot(tr[k], g)
  {
    if i < k {
      assert StepAt(tr, acts, k - 1);
      LostForever(tr, acts, g, i, k - 1);
      InvAlong(tr, acts, k - 1);
      LostStays(tr[k - 1], acts[k - 1], g);
    }
  }

  /** The loop lost its slot to a stop, and the token it answers to has been cancelled. */
  predicate Stopped(s: State, g: Generation) {
    Silenced(s, g) && Current(s.loops[g]) in s.firedTokens
  }

  lemma StoppedStays(s: State, a: Action, g: Generation)
    requires Inv(s) && Enabled(s, a) && Stopped(s, g)
    ensures Stopped(Apply(s, a), g)
  {
    LostStays(s, a, g);
    match a
    case Install(h) => assert GenerationOk(s, h);
    case RemoveSlot(agent) => assert SlotOk(s, agent);
    case By(h, step) => StepFrame(s, h, step);
    case _ =>
  }

  lemma {:induction false} StoppedForever(tr: seq<State>, acts: seq<Action>, g: Generation, i: nat, k: nat)
    requires Run(tr, acts) && i <= k < |tr| && Stopped(tr[i], g)
    ensures Stopped(tr[k], g)
  {
    if i < k {
      assert StepAt(tr, acts, k - 1);
      StoppedForever(tr, acts, g, i, k - 1);
      InvAlong(tr, acts, k - 1);
      StoppedStays(tr[k - 1], acts[k - 1], g);
    }
  }

  /** Once stop_agent has removed and cancelled the slot of generation g, loop g never
      begins another process(), whatever it renews and however often the agent is restarted. */
  lemma StoppedLoopNeverBegins(tr: seq<State>, acts: seq<Action>, g: Generation, i: nat, k: nat)
    requires Run(tr, acts) && i < k <= |acts|
    requires acts[i] == FireSlot(g)
    ensures g in tr[k].loops && !Live(tr[k], Current(tr[k].loops[g])) && !Live(tr[k], tr[k].loops[g].token)
    ensures !StepEnabled(tr[k], g, Begin)
    ensures k < |acts| ==> acts[k] != By(g, Begin)
  {
    InvAlong(tr, acts, i);
    assert GenerationOk(tr[i], g) && StepAt(tr, acts, i);
    StoppedForever(tr, acts, g, i + 1, k);
    InvAlong(tr, acts, k);
    assert GenerationOk(tr[k], g);
    assert k < |acts| ==> StepAt(tr, acts, k);
  }

  /** The start of an agent installs its slot at this step, or a stop removes it. */
  predicate StartsOrStops(s: State, a: Action, agent: string) {
    || a == RemoveSlot(agent)
    || (a.Install? && a.generation in s.births && s.births[a.generation].agent == agent)
  }

  /** Whatever loops renew: a slot comes, goes and changes its loop only by a start or stop of
      its agent, and changes its token only when that loop itself writes one. */
  lemma {:induction false} SlotKeepsItsLoop(tr: seq<State>, acts: seq<Action>, agent: string, i: nat, k: nat)
    requires Run(tr, acts) && i <= k < |tr|
    requires forall m | i <= m < k :: !StartsOrStops(tr[m], acts[m], agent)
    ensures agent in tr[k].agentTokens <==> agent in tr[i].agentTokens
    ensures agent in tr[i].agentTokens ==>
      var was, now := tr[i].agentTokens[agent], tr[k].agentTokens[agent];
      && now.generation == was.generation
      && (now.token != was.token ==> exists m | i <= m < k :: acts[m] == By(was.generation, WriteSlot))
  {
    if i < k {
      SlotKeepsItsLoop(tr, acts, agent, i, k - 1);
      assert StepAt(tr, acts, k - 1) && !StartsOrStops(tr[k - 1], acts[k - 1], agent);
      InvAlong(tr, acts, k - 1);
      SlotStep(tr[k - 1], acts[k - 1], agent);
    }
  }

  lemma SlotStep(s: State, a: Action, agent: string)
    requires Inv(s) && Enabled(s, a) && !StartsOrStops(s, a, agent)
    ensures agent in Apply(s, a).agentTokens <==> agent in s.agentTokens
    ensures agent in s.agentTokens ==>
      var was, now := s.agentTokens[agent], Apply(s, a).agentTokens[agent];
      now.generation == was.generation && (now.token != was.token ==> a == By(was.generation, WriteSlot))
  {
    if a.By? { StepFrame(s, a.loop, a.step); }
  }

  /** A renewal by generation g changes no slot of another generation, and adds or drops none. */
  lemma RenewalKeepsForeignSlots(s: State, g: Generation, agent: string)
    requires StepEnabled(s, g, WriteSlot) && !Owns(s, g, agent)
    ensures var s' := ApplyStep(s, g, WriteSlot);
      && (agent in s'.agentTokens <==> agent in s.agentTokens)
      && (agent in s.agentTokens ==> s'.agentTokens[agent] == s.agentTokens[agent])
  {}

  /** The renewal of a loop that still owns its slot brings it back: its new token is live,
      is the one the next stop_agent cancels, and process() may begin again. */
  lemma RenewalRevives(s: State, g: Generation)
    requires Inv(s) && InPhase(s, g, Fired) && Owns(s, g, s.loops[g].agent)
    requires s.loops[g].preset in s.presetTokens && s.presetTokens[s.loops[g].preset] !in s.firedRoots
    ensures var s1 := ApplyStep(s, g, ReadParent);
      StepEnabled(s1, g, WriteSlot) && StepEnabled(ApplyStep(s1, g, WriteSlot), g, Adopt)
    ensures var s' := ApplyStep(ApplyStep(ApplyStep(s, g, ReadParent), g, WriteSlot), g, Adopt);
      && StepEnabled(s', g, Begin)
      && s'.agentTokens[s.loops[g].agent] == Slot(g, s'.loops[g].token)
  {}

  /** No loop is ever stuck: until it exits it can always take a step. While it waits it can begin
      exactly if its token is live, and notice exactly if it is not; while it processes it can
      finish, or be dropped as soon as its token is not live. */
  lemma LoopsAreNeverStuck(s: State, g: Generation)
    requires g in s.loops
    ensures var l := s.loops[g];
      match l.phase
      case Starting => StepEnabled(s, g, Exit) && (StepEnabled(s, g, Started) <==> Live(s, l.token))
      case Waiting =>
        && StepEnabled(s, g, Exit)
        && (StepEnabled(s, g, Begin) <==> Live(s, l.token)) && (StepEnabled(s, g, Observe) <==> !Live(s, l.token))
      case Processing => StepEnabled(s, g, Finish) && (StepEnabled(s, g, Observe) <==> !Live(s, l.token))
      case Fired => StepEnabled(s, g, ReadParent)
      case Renewing(_) => StepEnabled(s, g, WriteSlot)
      case Adopting(_) => StepEnabled(s, g, Adopt)
      case Exited => forall step :: !StepEnabled(s, g, step)
  {}

  // ------------------------------------------------ every loop of a stopped agent

  /** A step makes a loop escape its stop exactly if it overwrites the slot of the live loop. */
  lemma StepEscapesIff(s: State, a: Action, g: Generation)
    requires Inv(s) && Enabled(s, a) && LostMeansQuiet(s, g)
    ensures LostMeansQuiet(Apply(s, a), g) <==> !Overwrites(s, a, g)
  {
    if Overwrites(s, a, g) {
      assert GenerationOk(s, g) && GenerationOk(s, a.generation) && SlotOk(s, s.births[a.generation].agent);
    } else {
      StepKeepsLost(s, a, g);
    }
  }

  /** A loop that no start has overwritten while it was live is quiet once it has lost its slot. */
  lemma StepKeepsLost(s: State, a: Action, g: Generation)
    requires Inv(s) && Enabled(s, a) && LostMeansQuiet(s, g) && !Overwrites(s, a, g)
    ensures LostMeansQuiet(Apply(s, a), g)
  {
    assert GenerationOk(s, g);
    match a
    case Install(h) => assert GenerationOk(s, h) && SlotOk(s, s.births[h].agent);
    case RemoveSlot(agent) => assert SlotOk(s, agent);
    case FireSlot(h) => assert GenerationOk(s, h);
    case By(h, step) => StepFrame(s, h, step); if h == g { OwnStepKeepsLost(s, g, step); }
    case _ =>
  }

  lemma OwnStepKeepsLost(s: State, g: Generation, step: Step)
    requires Inv(s) && StepEnabled(s, g, step) && LostMeansQuiet(s, g)
    ensures LostMeansQuiet(ApplyStep(s, g, step), g)
  {
    assert GenerationOk(s, g) && SlotOk(s, s.loops[g].agent);
  }

  ghost predicate NeverOverwritten(tr: seq<State>, acts: seq<Action>, g: Generation, k: nat)
    requires |tr| == |acts| + 1 && k <= |acts|
  {
    LostMeansQuiet(tr[0], g) && forall m | 0 <= m < k :: !Overwrites(tr[m], acts[m], g)
  }

  lemma {:induction false} LostIsQuietAlong(tr: seq<State>, acts: seq<Action>, g: Generation, k: nat)
    requires Run(tr, acts) && k <= |acts| && NeverOverwritten(tr, acts, g, k)
    ensures LostMeansQuiet(tr[k], g)
  {
    if k > 0 {
      LostIsQuietAlong(tr, acts, g, k - 1);
      assert StepAt(tr, acts, k - 1);
      InvAlong(tr, acts, k - 1);
      StepKeepsLost(tr[k - 1], acts[k - 1], g);
    }
  }

  ghost predicate AgentQuiet(s: State, agent: string) {
    forall g | g in s.loops && s.loops[g].agent == agent :: Quiet(s, g)
  }

  ghost predicate NoStopPending(s: State, agent: string) {
    forall g | g in s.stops && g in s.loops :: s.loops[g].agent != agent
  }

  /** Every loop of the agent that has lost its slot is quiet (`NoneEscapedIff` says when). */
  ghost predicate NoneEscaped(s: State, agent: string) {
    forall g | g in s.loops && s.loops[g].agent == agent :: LostMeansQuiet(s, g)
  }

  /** An agent without slot and pending stop has only loops that lost their slots. */
  lemma VacantIsSilenced(s: State, agent: string)
    requires agent !in s.agentTokens && NoStopPending(s, agent)
    ensures AgentQuiet(s, agent) <==> NoneEscaped(s, agent)
  {
    forall g | g in s.loops && s.loops[g].agent == agent ensures Silenced(s, g) {}
  }

  /** Since the state `was`, loop g has exited, or the root of the token it answered to has been
      cancelled. */
  predicate EndedSince(was: State, s: State, g: Generation) {
    && g in was.loops && g in s.loops
    && (s.loops[g].phase.Exited? || Current(was.loops[g]).root in s.firedRoots)
  }

  /** The loop has lost its slot to a start: no stop will ever cancel its token t. */
  predicate Orphan(s: State, g: Generation, t: Token) {
    Silenced(s, g) && Current(s.loops[g]) == t && t.owner == g && t !in s.firedTokens
  }

  lemma OverwritingOrphans(s: State, a: Action, g: Generation)
    requires Inv(s) && Enabled(s, a) && Overwrites(s, a, g)
    ensures g in s.loops && Orphan(Apply(s, a), g, Current(s.loops[g]))
  {
    assert GenerationOk(s, g) && GenerationOk(s, a.generation) && SlotOk(s, s.births[a.generation].agent);
  }

  lemma OrphanStays(s: State, a: Action, g: Generation, t: Token)
    requires Inv(s) && Enabled(s, a) && Orphan(s, g, t)
    ensures Orphan(Apply(s, a), g, t)
  {
    LostStays(s, a, g);
    match a
    case Install(h) => assert GenerationOk(s, h);
    case RemoveSlot(agent) => assert SlotOk(s, agent);
    case FireSlot(h) => assert GenerationOk(s, h) && GenerationOk(s, g);
    case By(h, step) => StepFrame(s, h, step);
    case _ =>
  }

  lemma {:induction false} OrphanForever(tr: seq<State>, acts: seq<Action>, g: Generation, t: Token, i: nat, k: nat)
    requires Run(tr, acts) && i <= k < |tr| && Orphan(tr[i], g, t)
    ensures Orphan(tr[k], g, t)
  {
    if i < k {
      assert StepAt(tr, acts, k - 1);
      OrphanForever(tr, acts, g, t, i, k - 1);
      InvAlong(tr, acts, k - 1);
      OrphanStays(tr[k - 1], acts[k - 1], g, t);
    }
  }

  /** A loop that a start overwrote while it was live is quiet again only by its own exit or the
      cancellation of its root. */
  lemma OverwrittenIsQuietIff(tr: seq<State>, acts: seq<Action>, g: Generation, m: nat, k: nat)
    requires Run(tr, acts) && m < k < |tr| && Overwrites(tr[m], acts[m], g)
    ensures Silenced(tr[k], g) && (Quiet(tr[k], g) <==> EndedSince(tr[m], tr[k], g))
  {
    assert StepAt(tr, acts, m);
    InvAlong(tr, acts, m);
    OverwritingOrphans(tr[m], acts[m], g);
    OrphanForever(tr, acts, g, Current(tr[m].loops[g]), m + 1, k);
  }

  /** Every start that had overwritten loop g while it was live has come to nothing: the loop has
      exited since, or its root has been cancelled. */
  ghost predicate OverwritingsEnded(tr: seq<State>, acts: seq<Action>, g: Generation, k: nat)
    requires |tr| == |acts| + 1 && k < |tr|
  {
    forall m | 0 <= m < k && Overwrites(tr[m], acts[m], g) :: EndedSince(tr[m], tr[k], g)
  }

  lemma SilencedIsQuietIff(tr: seq<State>, acts: seq<Action>, g: Generation, k: nat)
    requires Run(tr, acts) && k < |tr| && LostMeansQuiet(tr[0], g) && Silenced(tr[k], g)
    ensures Quiet(tr[k], g) <==> OverwritingsEnded(tr, acts, g, k)
  {
    if m: nat :| m < k && Overwrites(tr[m], acts[m], g) {
      OverwrittenIsQuietIff(tr, acts, g, m, k);
      if Quiet(tr[k], g) {
        forall n | 0 <= n < k && Overwrites(tr[n], acts[n], g) ensures EndedSince(tr[n], tr[k], g) {
          OverwrittenIsQuietIff(tr, acts, g, n, k);
        }
      }
    } else {
      LostIsQuietAlong(tr, acts, g, k);
    }
  }

  /** Each loop of the agent that a start ever overwrote while it was live has ended since. */
  ghost predicate AgentOverwritingsEnded(tr: seq<State>, acts: seq<Action>, agent: string, k: nat)
    requires |tr| == |acts| + 1 && k < |tr|
  {
    forall m, g | 0 <= m < k && Overwrites(tr[m], acts[m], g) && g in tr[m].loops && tr[m].loops[g].agent == agent ::
      EndedSince(tr[m], tr[k], g)
  }

  /** What `NoneEscaped` says of a state, read off the run that led to it. */
  lemma NoneEscapedIff(tr: seq<State>, acts: seq<Action>, agent: string, k: nat)
    requires Run(tr, acts) && k < |tr| && forall g :: LostMeansQuiet(tr[0], g)
    ensures NoneEscaped(tr[k], agent) <==> AgentOverwritingsEnded(tr, acts, agent, k)
  {
    if NoneEscaped(tr[k], agent) {
      forall m, g | 0 <= m < k && Overwrites(tr[m], acts[m], g) && g in tr[m].loops && tr[m].loops[g].agent == agent
        ensures EndedSince(tr[m], tr[k], g)
      {
        LoopStays(tr, acts, g, m, k);
        OverwrittenIsQuietIff(tr, acts, g, m, k);
        assert LostMeansQuiet(tr[k], g);
      }
    } else {
      var g :| g in tr[k].loops && tr[k].loops[g].agent == agent && !LostMeansQuiet(tr[k], g);
      SilencedIsQuietIff(tr, acts, g, k);
      var m :| 0 <= m < k && Overwrites(tr[m], acts[m], g) && !EndedSince(tr[m], tr[k], g);
      InvAlong(tr, acts, m);
      assert SlotOk(tr[m], tr[m].births[acts[m].generation].agent);
      LoopStays(tr, acts, g, m, k);
    }
  }

  /** At every moment of every run, an agent without slot and pending stop has no loop that
      answers to a live token, exactly if each loop of it that a start ever overwrote while the
      loop was live has exited since, or has had its root cancelled. */
  lemma VacantAgentIsQuietIff(tr: seq<State>, acts: seq<Action>, agent: string, k: nat)
    requires Run(tr, acts) && k < |tr| && forall g :: LostMeansQuiet(tr[0], g)
    requires agent !in tr[k].agentTokens && NoStopPending(tr[k], agent)
    ensures AgentQuiet(tr[k], agent) <==>
      forall m, g | 0 <= m < k && Overwrites(tr[m], acts[m], g) && g in tr[m].loops && tr[m].loops[g].agent == agent ::
        g in tr[k].loops && (tr[k].loops[g].phase.Exited? || Current(tr[m].loops[g]).root in tr[k].firedRoots)
  {
    NoneEscapedIff(tr, acts, agent, k);
    VacantIsSilenced(tr[k], agent);
    if AgentQuiet(tr[k], agent) {
      forall m, g | 0 <= m < k && Overwrites(tr[m], acts[m], g) && g in tr[m].loops && tr[m].loops[g].agent == agent
        ensures EndedSince(tr[m], tr[k], g)
      {}
    } else {
      var m, g :| && 0 <= m < k && Overwrites(tr[m], acts[m], g) && g in tr[m].loops && tr[m].loops[g].agent == agent
                  && !EndedSince(tr[m], tr[k], g);
    }
  }

  /** Stopping an agent right after starting it silences all of its loops exactly when the
      start found a free slot and no earlier start had overwritten a loop that is still live. */
  lemma StopReachesEveryLoopIff(s: State, g: Generation)
    requires Inv(s) && g in s.births && NoStopPending(s, s.births[g].agent)
    ensures var agent := s.births[g].agent;
      var s1 := Apply(s, Install(g));
      Enabled(s1, RemoveSlot(agent)) && Enabled(Apply(s1, RemoveSlot(agent)), FireSlot(g))
    ensures var agent := s.births[g].agent;
      var s' := Apply(Apply(Apply(s, Install(g)), RemoveSlot(agent)), FireSlot(g));
      AgentQuiet(s', agent) <==> SlotFree(s, agent) && NoneEscaped(s, agent)
  {
    var agent := s.births[g].agent;
    var s1 := Apply(s, Install(g));
    var s2 := Apply(s1, RemoveSlot(agent));
    var s' := Apply(s2, FireSlot(g));
    assert GenerationOk(s, g) && SlotOk(s, agent);
    if SlotFree(s, agent) && NoneEscaped(s, agent) {
      forall h | h in s'.loops && s'.loops[h].agent == agent ensures Quiet(s', h) {
        if h != g { assert LostMeansQuiet(s, h) && !Overwrites(s, Install(g), h); }
      }
    } else {
      var h := if SlotFree(s, agent) then
          var e :| e in s.loops && s.loops[e].agent == agent && !LostMeansQuiet(s, e); e
        else s.agentTokens[agent].generation;
      assert GenerationOk(s, h);
      assert h in s'.loops && s'.loops[h] == s.loops[h] && !Quiet(s', h);
    }
  }

  /** Along any run the slot of a stopped agent stays absent until a start refills it: no
      renewal brings it back. */
  lemma {:induction false} StoppedAgentStaysVacant(tr: seq<State>, acts: seq<Action>, agent: string, i: nat, k: nat)
    requires Run(tr, acts) && k < |tr| && VacantFrom(tr, acts, agent, i, k)
    ensures agent !in tr[k].agentTokens
  {
    if i < k {
      assert StepAt(tr, acts, k - 1);
      StoppedAgentStaysVacant(tr, acts, agent, i, k - 1);
      InvAlong(tr, acts, k - 1);
    }
  }

  /** Two start_agent calls before the first loop reports in: the second overwrites the slot
      of the first, and after stop_agent the first loop still begins process(). The second start
      also replaces the sender of the agent's message channel, so what the first loop begins with
      is a message queued before that. */
  lemma DoubleStartEscapesStop()
    ensures var s0 := Apply(Apply(INITIAL, Derive("a", "p")), Derive("a", "p"));
      Enabled(s0, Install(1)) && Enabled(Apply(s0, Install(1)), Install(2)) &&
      var s1 := Apply(Apply(s0, Install(1)), Install(2));
      Enabled(s1, By(1, Started)) && Enabled(Apply(s1, By(1, Started)), RemoveSlot("a")) &&
      var s2 := Apply(Apply(s1, By(1, Started)), RemoveSlot("a"));
      Enabled(s2, FireSlot(2)) && Enabled(Apply(s2, FireSlot(2)), By(1, Begin))
  {
    var s1 := Apply(Apply(Apply(Apply(INITIAL, Derive("a", "p")), Derive("a", "p")), Install(1)), Install(2));
    assert s1.loops[1] == Loop("a", "p", Token(1, 0, 1), Starting);
    assert s1.agentTokens["a"] == Slot(2, Token(2, 0, 2));
    assert Live(s1, Token(1, 0, 1));
  }

  // ------------------------------------------------ stopping a whole preset

  /** Everything generation g answers to descends from the given root. */
  predicate Under(s: State, g: Generation, preset: string, root: Root) {
    && (g in s.births && s.births[g].preset == preset ==> s.births[g].token.root == root)
    && (g in s.loops && s.loops[g].preset == preset && !s.loops[g].phase.Exited? ==>
          && s.loops[g].token.root == root
          && (s.loops[g].phase.Renewing? || s.loops[g].phase.Adopting? ==> s.loops[g].phase.renewed.root == root))
  }

  predicate DropsEntry(a: Action, preset: string) {
    a == RemovePreset(preset) || a == ResetPreset(preset)
  }

  lemma {:induction false} StepStaysUnder(s: State, a: Action, g: Generation, preset: string, root: Root)
    requires Inv(s) && Enabled(s, a) && !DropsEntry(a, preset)
    requires preset in s.presetTokens && s.presetTokens[preset] == root && Under(s, g, preset, root)
    ensures var s' := Apply(s, a);
      preset in s'.presetTokens && s'.presetTokens[preset] == root && Under(s', g, preset, root)
  {
    match a
    case By(h, step) => StepFrame(s, h, step); if h == g { OwnStepStaysUnder(s, g, step, preset, root); }
    case _ =>
  }

  lemma OwnStepStaysUnder(s: State, g: Generation, step: Step, preset: string, root: Root)
    requires Inv(s) && StepEnabled(s, g, step)
    requires preset in s.presetTokens && s.presetTokens[preset] == root && Under(s, g, preset, root)
    ensures Under(ApplyStep(s, g, step), g, preset, root)
  {
    assert GenerationOk(s, g);
  }

  /** From cancel_preset_token until the entry is dropped, a loop of the preset that
      descends from the cancelled root never begins process(): every renewal it makes and
      every loop started meanwhile is born cancelled. */
  lemma {:induction false} CancelledPresetSilent(tr: seq<State>, acts: seq<Action>, g: Generation,
                                                 preset: string, root: Root, i: nat, k: nat)
    requires Run(tr, acts) && i <= k < |tr|
    requires preset in tr[i].presetTokens && tr[i].presetTokens[preset] == root && root in tr[i].firedRoots
    requires forall j | i <= j < k :: !DropsEntry(acts[j], preset)
    requires Under(tr[i], g, preset, root)
    ensures preset in tr[k].presetTokens && tr[k].presetTokens[preset] == root && root in tr[k].firedRoots
    ensures Under(tr[k], g, preset, root)
    ensures g in tr[k].loops && tr[k].loops[g].preset == preset ==> !StepEnabled(tr[k], g, Begin)
  {
    if i < k {
      assert StepAt(tr, acts, k - 1);
      CancelledPresetSilent(tr, acts, g, preset, root, i, k - 1);
      InvAlong(tr, acts, k - 1);
      StepStaysUnder(tr[k - 1], acts[k - 1], g, preset, root);
    }
  }

  ghost predicate VacantFrom(tr: seq<State>, acts: seq<Action>, agent: string, i: nat, k: nat)
    requires |tr| == |acts| + 1 && k < |tr|
  {
    && i <= k
    && agent !in tr[i].agentTokens
    && forall j | i <= j < k && acts[j].Install? && acts[j].generation in tr[j].births ::
         tr[j].births[acts[j].generation].agent != agent
  }

  /** Everything generation g of one of the agents answers to descends from a cancelled root. */
  predicate BornCancelled(s: State, g: Generation, preset: string, agents: seq<string>) {
    && (g in s.births && s.births[g].agent in agents ==>
          s.births[g].preset == preset && s.births[g].token.root in s.firedRoots)
    && (g in s.loops && s.loops[g].agent in agents ==>
          var l := s.loops[g];
          && l.preset == preset && l.token.root in s.firedRoots
          && (l.phase.Renewing? || l.phase.Adopting? ==> l.phase.renewed.root in s.firedRoots))
  }

  /** The agents belong to the preset: whoever starts one derives its token from the preset's. */
  predicate KeepsPreset(a: Action, preset: string, agents: seq<string>) {
    a.Derive? && a.agent in agents ==> a.preset == preset
  }

  predicate EntryFired(s: State, preset: string) {
    preset in s.presetTokens && s.presetTokens[preset] in s.firedRoots
  }

  lemma StepStaysBornCancelled(s: State, a: Action, g: Generation, preset: string, agents: seq<string>)
    requires Inv(s) && Enabled(s, a) && EntryFired(s, preset)
    requires !DropsEntry(a, preset) && KeepsPreset(a, preset, agents) && BornCancelled(s, g, preset, agents)
    ensures EntryFired(Apply(s, a), preset) && BornCancelled(Apply(s, a), g, preset, agents)
  {
    match a
    case Derive(_, _) => assert GenerationOk(s, s.nextGeneration);
    case By(h, step) => StepFrame(s, h, step); if h == g { OwnStepStaysBornCancelled(s, g, step, preset, agents); }
    case _ =>
  }

  lemma OwnStepStaysBornCancelled(s: State, g: Generation, step: Step, preset: string, agents: seq<string>)
    requires Inv(s) && StepEnabled(s, g, step) && EntryFired(s, preset) && BornCancelled(s, g, preset, agents)
    ensures BornCancelled(ApplyStep(s, g, step), g, preset, agents)
  {
    assert GenerationOk(s, g);
  }

  /** Steps i to k of a run, as Preset::stop takes them: the preset's root is cancelled at i,
      the agents' slots are found absent or removed one by one, and the entry is dropped at k,
      by nobody else before. Other tasks may do anything else in between, such as starting and
      stopping the agents. */
  ghost predicate StopsPreset(tr: seq<State>, acts: seq<Action>, preset: string, agents: seq<string>, i: nat, k: nat)
    requires |tr| == |acts| + 1
  {
    && i < k < |acts|
    && preset in tr[i].presetTokens && acts[i] == FirePreset(tr[i].presetTokens[preset])
    && (forall a | a in agents :: VacantAt(tr, a, i, k))
    && acts[k] == RemovePreset(preset)
    && (forall m | i < m < k :: !DropsEntry(acts[m], preset))
    && (forall m | i < m < k :: KeepsPreset(acts[m], preset, agents))
  }

  predicate VacantAt(tr: seq<State>, agent: string, i: nat, k: nat)
    requires k < |tr|
  {
    exists j :: i < j <= k && agent !in tr[j].agentTokens
  }

  lemma {:induction false} BornCancelledAlong(tr: seq<State>, acts: seq<Action>, g: Generation, preset: string,
                                              agents: seq<string>, i: nat, j: nat, k: nat)
    requires Run(tr, acts) && StopsPreset(tr, acts, preset, agents, i, k) && i < j <= k
    requires BornCancelled(tr[i + 1], g, preset, agents)
    ensures EntryFired(tr[j], preset) && BornCancelled(tr[j], g, preset, agents)
    decreases j
  {
    assert StepAt(tr, acts, i);
    if i + 1 < j {
      assert StepAt(tr, acts, j - 1);
      BornCancelledAlong(tr, acts, g, preset, agents, i, j - 1, k);
      InvAlong(tr, acts, j - 1);
      StepStaysBornCancelled(tr[j - 1], acts[j - 1], g, preset, agents);
    }
  }

  /** Generation g still has the token t it was made for, and nobody has cancelled it. */
  predicate Untouched(s: State, g: Generation, t: Token, preset: string) {
    && t.owner == g && Live(s, t) && (g in s.births || g in s.loops)
    && (g in s.births ==> s.births[g].token == t && s.births[g].preset == preset)
    && (g in s.loops ==>
          var l := s.loops[g];
          && l.token == t && l.preset == preset
          && (l.phase.Starting? || l.phase.Waiting? || l.phase.Processing? || l.phase.Exited?))
  }

  lemma StepTouches(s: State, a: Action, g: Generation, t: Token, preset: string, agents: seq<string>)
    requires Inv(s) && Enabled(s, a) && Untouched(s, g, t, preset)
    ensures var s' := Apply(s, a);
      if a == FireSlot(g) then Stopped(s', g)
      else if a == FirePreset(t.root) then t.root in s'.firedRoots && BornCancelled(s', g, preset, agents)
      else Untouched(s', g, t, preset)
  {
    assert GenerationOk(s, g);
    match a
    case Install(h) => assert GenerationOk(s, h);
    case FireSlot(h) => assert GenerationOk(s, h);
    case By(h, step) => StepFrame(s, h, step);
    case _ =>
  }

  /** Where a start stands that was in flight with token t when the preset's root was cancelled:
      its loop was stopped, or its root was cancelled, or neither. */
  ghost predicate InFlightOk(tr: seq<State>, acts: seq<Action>, g: Generation, t: Token, preset: string,
                             agents: seq<string>, i: nat, j: nat)
    requires |tr| == |acts| + 1 && i <= j <= |acts|
  {
    var stopped := exists m | i <= m < j :: acts[m] == FireSlot(g);
    || (stopped && Stopped(tr[j], g))
    || (t.root in tr[j].firedRoots && BornCancelled(tr[j], g, preset, agents))
    || (!stopped && Untouched(tr[j], g, t, preset))
  }

  lemma {:induction false} InFlightAlong(tr: seq<State>, acts: seq<Action>, g: Generation, preset: string,
                                         agents: seq<string>, i: nat, j: nat, k: nat)
    requires Run(tr, acts) && StopsPreset(tr, acts, preset, agents, i, k) && i < j <= k
    requires g in tr[i].births && tr[i].births[g].preset == preset
    requires tr[i].births[g].token.root !in tr[i + 1].firedRoots
    ensures InFlightOk(tr, acts, g, tr[i].births[g].token, preset, agents, i, j)
    ensures EntryFired(tr[j], preset)
    decreases j
  {
    assert StepAt(tr, acts, j - 1);
    InvAlong(tr, acts, j - 1);
    if i + 1 < j {
      InFlightAlong(tr, acts, g, preset, agents, i, j - 1, k);
      InFlightStep(tr, acts, g, tr[i].births[g].token, preset, agents, i, j - 1);
    } else {
      assert GenerationOk(tr[i], g);
      InFlightStarts(tr[i], acts[i], g, tr[i].births[g].token, preset);
    }
  }

  lemma InFlightStarts(s: State, a: Action, g: Generation, t: Token, preset: string)
    requires GenerationOk(s, g) && preset in s.presetTokens && a == FirePreset(s.presetTokens[preset]) && Enabled(s, a)
    requires g in s.births && s.births[g].preset == preset && s.births[g].token == t
    requires t.root !in Apply(s, a).firedRoots
    ensures Untouched(Apply(s, a), g, t, preset) && EntryFired(Apply(s, a), preset)
  {}

  lemma InFlightStep(tr: seq<State>, acts: seq<Action>, g: Generation, t: Token, preset: string,
                     agents: seq<string>, i: nat, j: nat)
    requires |tr| == |acts| + 1 && i <= j < |acts| && StepAt(tr, acts, j) && Inv(tr[j])
    requires InFlightOk(tr, acts, g, t, preset, agents, i, j)
    requires EntryFired(tr[j], preset) && !DropsEntry(acts[j], preset) && KeepsPreset(acts[j], preset, agents)
    ensures InFlightOk(tr, acts, g, t, preset, agents, i, j + 1) && EntryFired(tr[j + 1], preset)
  {
    if Stopped(tr[j], g) {
      StoppedStays(tr[j], acts[j], g);
    } else if Untouched(tr[j], g, t, preset) {
      StepTouches(tr[j], acts[j], g, t, preset, agents);
    }
    if BornCancelled(tr[j], g, preset, agents) {
      StepStaysBornCancelled(tr[j], acts[j], g, preset, agents);
    }
  }

  /** What became of the loops that Preset::stop, cancelling the root at i and dropping the entry
      at k, does not reach itself. A start in flight at i whose root was not cancelled by then has
      been stopped since, its root has been cancelled, or its loop has exited; of any other loop
      no start overwrote the slot while it was live, unless it has ended since. */
  ghost predicate StrayEnded(tr: seq<State>, acts: seq<Action>, g: Generation, i: nat, k: nat)
    requires |tr| == |acts| + 1 && i < k < |acts| && g in tr[k].loops
  {
    if g in tr[i].births && tr[i].births[g].token.root !in tr[i + 1].firedRoots then
      || tr[k].loops[g].phase.Exited?
      || tr[i].births[g].token.root in tr[k].firedRoots
      || exists m | i <= m < k :: acts[m] == FireSlot(g)
    else OverwritingsEnded(tr, acts, g, k)
  }

  /** When Preset::stop returns, a loop of its agents answers to a live token only if it is a
      stray: a loop that a start had overwritten while it was live, or one whose start was already
      in flight under an older root. Every other one, however often other tasks started and
      stopped the agents meanwhile, answers to the cancelled root, has lost its slot, or was born
      cancelled. Only stops by other tasks that have not cancelled the token yet are left aside. */
  lemma PresetStopLeavesNoLiveLoopIff(tr: seq<State>, acts: seq<Action>, preset: string, agents: seq<string>,
                                      i: nat, k: nat, g: Generation)
    requires Run(tr, acts) && StopsPreset(tr, acts, preset, agents, i, k)
    requires g in tr[i].loops && !BornCancelled(tr[i + 1], g, preset, agents) ==> LostMeansQuiet(tr[0], g)
    requires g in tr[k].loops && tr[k].loops[g].agent in agents && g !in tr[k].stops
    requires g in tr[i].births ==> tr[i].births[g].preset == preset
    ensures Quiet(tr[k], g) <==> StrayEnded(tr, acts, g, i, k)
    ensures Quiet(tr[k + 1], g) <==> Quiet(tr[k], g)
    ensures Quiet(tr[k], g) ==> !StepEnabled(tr[k], g, Begin) && !StepEnabled(tr[k + 1], g, Begin)
  {
    InvAlong(tr, acts, k);
    assert GenerationOk(tr[k], g) && StepAt(tr, acts, k) && StepAt(tr, acts, i);
    if g in tr[i].births && tr[i].births[g].token.root !in tr[i + 1].firedRoots {
      InFlightAlong(tr, acts, g, preset, agents, i, k, k);
    } else if g in tr[i].loops && !BornCancelled(tr[i + 1], g, preset, agents) {
      LostDuringStop(tr, acts, preset, agents, i, k, g);
      SilencedIsQuietIff(tr, acts, g, k);
    } else {
      BornCancelledAlong(tr, acts, g, preset, agents, i, k, k);
      forall m | 0 <= m < k && Overwrites(tr[m], acts[m], g) ensures EndedSince(tr[m], tr[k], g) {
        OverwrittenIsQuietIff(tr, acts, g, m, k);
      }
    }
  }

  /** A loop that was there when the root was cancelled has lost its slot for good. */
  lemma LostDuringStop(tr: seq<State>, acts: seq<Action>, preset: string, agents: seq<string>,
                       i: nat, k: nat, g: Generation)
    requires Run(tr, acts) && StopsPreset(tr, acts, preset, agents, i, k)
    requires g in tr[i].loops && g in tr[k].loops && tr[k].loops[g].agent in agents
    ensures LostSlot(tr[k], g)
  {
    var j :| i < j <= k && tr[k].loops[g].agent !in tr[j].agentTokens;
    LoopStays(tr, acts, g, i, j);
    LoopStays(tr, acts, g, j, k);
    LostForever(tr, acts, g, j, k);
  }

  /** A loop's record stays, and so does its agent. */
  lemma {:induction false} LoopStays(tr: seq<State>, acts: seq<Action>, g: Generation, i: nat, k: nat)
    requires Run(tr, acts) && i <= k < |tr| && g in tr[i].loops
    ensures g in tr[k].loops && tr[k].loops[g].agent == tr[i].loops[g].agent
  {
    if i < k {
      assert StepAt(tr, acts, k - 1);
      LoopStays(tr, acts, g, i, k - 1);
      InvAlong(tr, acts, k - 1);
      StepKeepsLoop(tr[k - 1], acts[k - 1], g);
    }
  }

  lemma StepKeepsLoop(s: State, a: Action, g: Generation)
    requires Inv(s) && Enabled(s, a) && g in s.loops
    ensures g in Apply(s, a).loops && Apply(s, a).loops[g].agent == s.loops[g].agent
  {
    match a
    case Install(h) => assert GenerationOk(s, h);
    case By(h, step) => StepFrame(s, h, step);
    case _ =>
  }

  /** The token of generation g as issued: untouched by any cancellation. */
  predicate Pristine(s: State, g: Generation, t: Token, agent: string, preset: string) {
    && t.owner == g && t.id < s.nextToken && t.root < s.nextToken && Live(s, t)
    && t.root !in s.cancels && g !in s.stops
    && (forall q | q in s.presetTokens && s.presetTokens[q] == t.root :: q == preset)
    && (g in s.births || g in s.loops)
    && (g in s.births ==> s.births[g].token == t && s.births[g].agent == agent)
    && (g in s.loops ==>
          && s.loops[g].token == t && s.loops[g].agent == agent
          && (s.loops[g].phase.Starting? || s.loops[g].phase.Waiting? || s.loops[g].phase.Processing?
              || s.loops[g].phase.Exited?))
  }

  lemma {:induction false} StepStaysPristine(s: State, a: Action, g: Generation, t: Token, agent: string,
                                             preset: string)
    requires Inv(s) && Enabled(s, a) && Pristine(s, g, t, agent, preset)
    requires a != ReadForCancel(preset) && a != RemoveSlot(agent)
    ensures Pristine(Apply(s, a), g, t, agent, preset)
  {
    match a
    case Install(h) => assert GenerationOk(s, h);
    case RemoveSlot(other) => assert SlotOk(s, other);
    case FireSlot(h) => assert GenerationOk(s, h);
    case By(h, step) => StepFrame(s, h, step);
    case _ => assert GenerationOk(s, g);
  }

  /** The preset has no entry, as Preset::stop leaves it, or one that nobody has cancelled or
      read for cancelling. */
  predicate EntryUsable(s: State, preset: string) {
    preset in s.presetTokens ==>
      var root := s.presetTokens[preset];
      root !in s.firedRoots && root !in s.cancels
  }

  /** After Preset::stop dropped the entry, the next start_agent derives a live token, and so
      does each later one; only a later stop of that agent or cancellation of that preset can
      end it. */
  lemma {:induction false} NextStartIsLive(tr: seq<State>, acts: seq<Action>, agent: string, preset: string, i: nat,
                                           k: nat)
    requires Run(tr, acts) && i < k < |tr|
    requires acts[i] == Derive(agent, preset) && EntryUsable(tr[i], preset)
    requires forall j | i < j < k :: acts[j] != ReadForCancel(preset) && acts[j] != RemoveSlot(agent)
    ensures var g := tr[i].nextGeneration;
      && g in tr[i + 1].births
      && Pristine(tr[k], g, tr[i + 1].births[g].token, agent, preset)
  {
    InvAlong(tr, acts, k - 1);
    assert StepAt(tr, acts, k - 1);
    if i + 1 == k {
      assert GenerationOk(tr[i], tr[i].nextGeneration);
    } else {
      NextStartIsLive(tr, acts, agent, preset, i, k - 1);
      var g := tr[i].nextGeneration;
      StepStaysPristine(tr[k - 1], acts[k - 1], g, tr[i + 1].births[g].token, agent, preset);
    }
  }

  // ------------------------------------------------ whole operations, uninterrupted

  /** cancel_preset_token: a preset without an entry has nothing to cancel. */
  function CancelledPreset(s: State, preset: string): State {
    if preset !in s.presetTokens then s
    else Apply(Apply(s, ReadForCancel(preset)), FirePreset(s.presetTokens[preset]))
  }

  /** stop_agent up to the agent's lock. */
  function StoppedAgent(s: State, agent: string): State {
    if agent !in s.agentTokens then s
    else Apply(Apply(s, RemoveSlot(agent)), FireSlot(s.agentTokens[agent].generation))
  }

  function StoppedAgents(s: State, agents: seq<string>): State
    decreases |agents|
  {
    if agents == [] then s else StoppedAgents(StoppedAgent(s, agents[0]), agents[1..])
  }

  lemma {:induction false} StoppedAgentsSnoc(s: State, agents: seq<string>, agent: string)
    ensures StoppedAgents(s, agents + [agent]) == StoppedAgent(StoppedAgents(s, agents), agent)
    decreases |agents|
  {
    if agents != [] {
      assert (agents + [agent])[1..] == agents[1..] + [agent];
      StoppedAgentsSnoc(StoppedAgent(s, agents[0]), agents[1..], agent);
    } else {
      assert [agent][1..] == [];
      assert StoppedAgents(s, [agent]) == StoppedAgents(StoppedAgent(s, agent), []);
    }
  }

  /** renew_agent_token followed by the loop's own assignment. */
  function Renewed(s: State, g: Generation): State
    requires StepEnabled(s, g, ReadParent)
  {
    var s1 := ApplyStep(s, g, ReadParent);
    if !StepEnabled(s1, g, WriteSlot) then s1 else
    var s2 := ApplyStep(s1, g, WriteSlot);
    if StepEnabled(s2, g, Adopt) then ApplyStep(s2, g, Adopt) else s2
  }

  /** An uninterrupted create_agent_token: a live-or-born-cancelled child in the slot and in the loop. */
  lemma CreatedState(s: State, preset: string, agent: string)
    requires s.nextGeneration !in s.births
    ensures var g := s.nextGeneration;
      var r := if preset in s.presetTokens then s else FreshRoot(s, preset);
      var t := Token(r.nextToken, r.presetTokens[preset], g);
      Enabled(Apply(s, Derive(agent, preset)), Install(g)) &&
      Apply(Apply(s, Derive(agent, preset)), Install(g))
      == r.(nextToken := r.nextToken + 1, nextGeneration := g + 1,
            agentTokens := r.agentTokens[agent := Slot(g, t)],
            loops := r.loops[g := Loop(agent, preset, t, Starting)])
  {
    var g := s.nextGeneration;
    var s1 := Apply(s, Derive(agent, preset));
    assert s1.births - {g} == s.births;
  }

  /** An uninterrupted renewal either installs the same fresh child in slot and loop, or
      leaves both as they were and sends the loop back to its queue. */
  lemma RenewedState(s: State, g: Generation)
    requires StepEnabled(s, g, ReadParent)
    ensures var l := s.loops[g];
      Renewed(s, g) ==
      if l.preset !in s.presetTokens then SetLoop(s, g, l.(phase := Waiting))
      else
        var child := Token(s.nextToken, s.presetTokens[l.preset], g);
        if !Owns(s, g, l.agent) then SetLoop(s.(nextToken := s.nextToken + 1), g, l.(phase := Waiting))
        else s.(nextToken := s.nextToken + 1,
                agentTokens := s.agentTokens[l.agent := Slot(g, child)],
                loops := s.loops[g := l.(token := child, phase := Waiting)])
  {
    var l := s.loops[g];
    if l.preset in s.presetTokens {
      var child := Token(s.nextToken, s.presetTokens[l.preset], g);
      var renewing: map<Generation, Loop> := s.loops[g := l.(phase := Renewing(child))];
      assert renewing[g := l.(phase := Waiting)] == s.loops[g := l.(phase := Waiting)];
      assert renewing[g := l.(phase := Adopting(child))][g := l.(token := child, phase := Waiting)]
          == s.loops[g := l.(token := child, phase := Waiting)];
    }
  }

  lemma {:induction false} RenewedKeepsInv(s: State, g: Generation)
    requires Inv(s) && StepEnabled(s, g, ReadParent)
    ensures Inv(Renewed(s, g))
  {
    var s1 := ApplyStep(s, g, ReadParent);
    StepKeepsInv(s, By(g, ReadParent));
    if StepEnabled(s1, g, WriteSlot) {
      StepKeepsInv(s1, By(g, WriteSlot));
      if StepEnabled(ApplyStep(s1, g, WriteSlot), g, Adopt) {
        StepKeepsInv(ApplyStep(s1, g, WriteSlot), By(g, Adopt));
      }
    }
  }

  /** Stopping one agent with no other stop in flight. */
  lemma StoppedAgentState(s: State, agent: string)
    requires Inv(s) && s.stops == map[]
    ensures var s' := StoppedAgent(s, agent);
      && Inv(s') && s'.stops == map[] && s'.presetTokens == s.presetTokens
      && s'.agentTokens == s.agentTokens - {agent} && s'.loops == s.loops
      && (forall a | NoneEscaped(s, a) :: NoneEscaped(s', a))
  {
    if agent in s.agentTokens {
      var g := s.agentTokens[agent].generation;
      var s1 := Apply(s, RemoveSlot(agent));
      StepKeepsInv(s, RemoveSlot(agent));
      StepKeepsInv(s1, FireSlot(g));
      assert s1.stops - {g} == map[];
      forall a | NoneEscaped(s, a) ensures NoneEscaped(StoppedAgent(s, agent), a) {
        forall h | h in s.loops && s.loops[h].agent == a ensures LostMeansQuiet(StoppedAgent(s, agent), h) {
          StepKeepsLost(s, RemoveSlot(agent), h);
          StepKeepsLost(s1, FireSlot(g), h);
        }
      }
    } else {
      assert s.agentTokens - {agent} == s.agentTokens;
    }
  }

  /** The stops of a list of agents, with nothing else in flight, vacate exactly those agents
      and let no loop escape. */
  lemma {:induction false} PresetStopAlone(s: State, agents: seq<string>)
    requires Inv(s) && s.stops == map[]
    ensures var s' := StoppedAgents(s, agents);
      && Inv(s') && s'.stops == map[] && s'.presetTokens == s.presetTokens && s'.loops == s.loops
      && s'.firedRoots == s.firedRoots && s'.cancels == s.cancels && s'.births == s.births
      && (forall a | a in agents :: a !in s'.agentTokens)
      && (forall a :: a !in agents ==>
            && (a in s'.agentTokens <==> a in s.agentTokens)
            && (a in s.agentTokens ==> s'.agentTokens[a] == s.agentTokens[a]))
      && (forall a :: a !in s.agentTokens ==> a !in s'.agentTokens)
      && (forall a | NoneEscaped(s, a) :: NoneEscaped(s', a))
    decreases |agents|
  {
    if agents != [] {
      StoppedAgentState(s, agents[0]);
      PresetStopAlone(StoppedAgent(s, agents[0]), agents[1..]);
    }
  }

  /** Exactly the tokens in the slots of the listed agents are cancelled. */
  lemma {:induction false} StopsFire(s: State, agents: seq<string>)
    requires Inv(s) && s.stops == map[]
    ensures forall t :: t in StoppedAgents(s, agents).firedTokens <==> t in s.firedTokens || TokenOfOne(s, agents, t)
    decreases |agents|
  {
    if agents != [] {
      var s1, rest := StoppedAgent(s, agents[0]), agents[1..];
      StoppedAgentState(s, agents[0]);
      StopsFire(s1, rest);
      forall t
        ensures t in s1.firedTokens || TokenOfOne(s1, rest, t) <==> t in s.firedTokens || TokenOfOne(s, agents, t)
      {
        if a :| a in agents && a in s.agentTokens && s.agentTokens[a].token == t {
          if a != agents[0] { assert a in rest && a in s1.agentTokens; }
        }
        if a :| a in rest && a in s1.agentTokens && s1.agentTokens[a].token == t { assert a in agents; }
      }
    }
  }

  predicate TokenOfOne(s: State, agents: seq<string>, t: Token) {
    exists a | a in agents :: a in s.agentTokens && s.agentTokens[a].token == t
  }

  lemma CancelledPresetState(s: State, preset: string)
    requires Inv(s) && s.cancels == {}
    ensures var s' := CancelledPreset(s, preset);
      && Inv(s') && s'.stops == s.stops && s'.agentTokens == s.agentTokens && s'.loops == s.loops
      && s'.births == s.births && s'.cancels == {} && s'.presetTokens == s.presetTokens
      && s'.firedTokens == s.firedTokens
      && (forall r :: r in s'.firedRoots <==>
            r in s.firedRoots || (preset in s.presetTokens && s.presetTokens[preset] == r))
      && (forall a | NoneEscaped(s, a) :: NoneEscaped(s', a))
  {
    if preset in s.presetTokens {
      StepKeepsInv(s, ReadForCancel(preset));
      StepKeepsInv(Apply(s, ReadForCancel(preset)), FirePreset(s.presetTokens[preset]));
    }
    var s' := CancelledPreset(s, preset);
    forall a | NoneEscaped(s, a) ensures NoneEscaped(s', a) {
      forall h | h in s.loops && s.loops[h].agent == a ensures LostMeansQuiet(s', h) {
        assert LostMeansQuiet(s, h);
      }
    }
  }

  /** Preset::stop by itself. */
  function StoppedPreset(s: State, preset: string, agents: seq<string>): State {
    Apply(StoppedAgents(CancelledPreset(s, preset), agents), RemovePreset(preset))
  }

  /** It vacates exactly the listed agents, and each is quiet unless a loop had escaped before. */
  lemma StoppedPresetState(s: State, preset: string, agents: seq<string>)
    requires Inv(s) && s.stops == map[] && s.cancels == {}
    ensures var s' := StoppedPreset(s, preset, agents);
      && Inv(s') && preset !in s'.presetTokens && (forall p | p != preset :: SamePresetToken(s, s', p))
      && s'.loops == s.loops && s'.births == s.births && s'.stops == map[] && s'.cancels == {}
      && (forall a | a in agents :: a !in s'.agentTokens && (NoneEscaped(s, a) ==> AgentQuiet(s', a)))
      && (forall a | a !in agents :: SameSlot(s, s', a))
      && (forall r :: r in s'.firedRoots <==>
            r in s.firedRoots || (preset in s.presetTokens && s.presetTokens[preset] == r))
      && (forall t :: t in s'.firedTokens <==>
            t in s.firedTokens || exists a | a in agents :: a in s.agentTokens && s.agentTokens[a].token == t)
  {
    var s1 := CancelledPreset(s, preset);
    var s2 := StoppedAgents(s1, agents);
    CancelledPresetState(s, preset);
    PresetStopAlone(s1, agents);
    StopsFire(s1, agents);
    assert forall t :: TokenOfOne(s1, agents, t) <==> TokenOfOne(s, agents, t);
    StepKeepsInv(s2, RemovePreset(preset));
    forall a | a in agents && NoneEscaped(s, a) ensures AgentQuiet(StoppedPreset(s, preset, agents), a) {
      VacantIsSilenced(s2, a);
    }
  }

  /** The tables of `ModularAgent` that cancellation uses, with the operations that
      update them in place. */
  class Runtime {
    var nextToken: nat
    var firedRoots: set<Root>
    var firedTokens: set<Token>
    var presetTokens: map<string, Root>
    var agentTokens: map<string, Slot>
    var cancels: set<Root>
    var births: map<Generation, Birth>
    var stops: map<Generation, Token>
    var loops: map<Generation, Loop>
    var nextGeneration: Generation

    ghost function View(): State
      reads this
    {
      State(nextToken, firedRoots, firedTokens, presetTokens, agentTokens, cancels, births, stops, loops,
            nextGeneration)
    }

    constructor ()
      ensures View() == INITIAL && Inv(View())
    {
      nextToken, firedRoots, firedTokens, presetTokens, agentTokens := 0, {}, {}, map[], map[];
      cancels, births, stops, loops, nextGeneration := {}, map[], map[], map[], 1;
      new;
      InitialInv();
    }

    method PresetToken(preset: string) returns (root: Root)
      modifies this
      ensures View() == if preset in old(presetTokens) then old(View()) else FreshRoot(old(View()), preset)
      ensures preset in presetTokens && root == presetTokens[preset]
    {
      if preset !in presetTokens {
        presetTokens := presetTokens[preset := nextToken];
        nextToken := nextToken + 1;
      }
      root := presetTokens[preset];
    }

    method ResetPresetToken(preset: string)
      modifies this
      ensures View() == Apply(old(View()), ResetPreset(preset))
    {
      presetTokens := presetTokens[preset := nextToken];
      nextToken := nextToken + 1;
    }

    method CancelPresetToken(preset: string)
      modifies this
      ensures View() ==
        if preset in old(presetTokens) then old(View()).(firedRoots := old(firedRoots) + {old(presetTokens[preset])})
        else old(View())
      ensures cancels == {} ==> View() == CancelledPreset(old(View()), preset)
    {
      if preset in presetTokens {
        firedRoots := firedRoots + {presetTokens[preset]};
      }
    }

    method RemovePresetToken(preset: string)
      modifies this
      ensures View() == Apply(old(View()), RemovePreset(preset))
    {
      presetTokens := presetTokens - {preset};
    }

    /** create_agent_token, followed by the spawn of the loop that receives its result. */
    method CreateAgentToken(preset: string, agent: string) returns (generation: Generation, token: Token)
      requires GenerationOk(View(), nextGeneration)
      modifies this
      ensures generation == old(nextGeneration) && generation in loops && loops[generation].token == token
      ensures View() == Apply(Apply(old(View()), Derive(agent, preset)), Install(generation))
    {
      CreatedState(View(), preset, agent);
      generation := nextGeneration;
      nextGeneration := nextGeneration + 1;
      var root := PresetToken(preset);
      token := Token(nextToken, root, generation);
      nextToken := nextToken + 1;
      agentTokens := agentTokens[agent := Slot(generation, token)];
      loops := loops[generation := Loop(agent, preset, token, Starting)];
    }

    /** renew_agent_token as called by loop g, which stores a token it is given. */
    method RenewAgentToken(g: Generation) returns (renewed: bool)
      requires Inv(View()) && StepEnabled(View(), g, ReadParent)
      modifies this
      ensures Inv(View()) && View() == Renewed(old(View()), g)
      ensures var l := old(loops[g]);
        renewed <==> l.preset in old(presetTokens) && Owns(old(View()), g, l.agent)
    {
      ghost var s := View();
      RenewedKeepsInv(s, g);
      RenewedState(s, g);
      var l := loops[g];
      if l.preset !in presetTokens {
        loops := loops[g := l.(phase := Waiting)];
        return false;
      }
      var child := Token(nextToken, presetTokens[l.preset], g);
      nextToken := nextToken + 1;
      if l.agent !in agentTokens || agentTokens[l.agent].generation != g {
        loops := loops[g := l.(phase := Waiting)];
        return false;
      }
      agentTokens := agentTokens[l.agent := Slot(g, child)];
      loops := loops[g := l.(token := child, phase := Waiting)];
      return true;
    }

    method StopAgent(agent: string)
      modifies this
      ensures View() ==
        if agent in old(agentTokens) then
          old(View()).(agentTokens := old(agentTokens) - {agent},
                       firedTokens := old(firedTokens) + {old(agentTokens[agent].token)})
        else old(View())
      ensures stops == map[] ==> View() == StoppedAgent(old(View()), agent)
    {
      if agent in agentTokens {
        var slot := agentTokens[agent];
        agentTokens := agentTokens - {agent};
        firedTokens := firedTokens + {slot.token};
        assert stops == map[] ==> stops == stops[slot.generation := slot.token] - {slot.generation};
      }
    }

    /** Preset::stop by itself: cancel the root, stop every agent, drop the root. */
    method PresetStop(preset: string, agents: seq<string>)
      requires Inv(View()) && stops == map[] && cancels == {}
      modifies this
      ensures Inv(View()) && View() == StoppedPreset(old(View()), preset, agents)
      ensures forall a | a in agents :: a !in agentTokens && (old(NoneEscaped(View(), a)) ==> AgentQuiet(View(), a))
      ensures forall a | a !in agents ::
        && (a in agentTokens <==> a in old(agentTokens))
        && (a in agentTokens ==> agentTokens[a] == old(agentTokens[a]))
    {
      ghost var s0 := View();
      StoppedPresetState(s0, preset, agents);
      CancelPresetToken(preset);
      ghost var s1 := View();
      CancelledPresetState(s0, preset);
      for i := 0 to |agents|
        invariant View() == StoppedAgents(s1, agents[..i]) && stops == map[]
      {
        StopAgent(agents[i]);
        StoppedAgentsSnoc(s1, agents[..i], agents[i]);
        assert agents[..i + 1] == agents[..i] + [agents[i]];
        PresetStopAlone(s1, agents[..i + 1]);
      }
      assert agents[..|agents|] == agents;
      RemovePresetToken(preset);
    }
  }

  /** An agent of a preset's spec. */
  datatype Member = Member(id: string, disabled: bool)

  /** The agent has a loop that is starting with a live token of the preset's current root. */
  predicate StartedIn(s: State, preset: string, agent: string) {
    && preset in s.presetTokens && agent in s.agentTokens
    && var slot := s.agentTokens[agent];
    && slot.generation in s.loops
    && s.loops[slot.generation] == Loop(agent, preset, slot.token, Starting)
    && slot.token.root == s.presetTokens[preset]
    && Live(s, slot.token)
  }

  /** Starting another agent leaves a started one as it is. */
  lemma StartKeepsStarted(s: State, preset: string, agent: string, other: string)
    requires Inv(s) && StartedIn(s, preset, agent) && other != agent
    ensures var s1 := Apply(s, Derive(other, preset));
      Enabled(s1, Install(s.nextGeneration)) && StartedIn(Apply(s1, Install(s.nextGeneration)), preset, agent)
  {
    assert SlotOk(s, agent) && GenerationOk(s, s.nextGeneration);
  }

  /** Starting an agent under a root that is not cancelled; no loop escapes if its slot is free. */
  lemma StartStarts(s: State, preset: string, agent: string)
    requires Inv(s) && preset in s.presetTokens && s.presetTokens[preset] !in s.firedRoots
    ensures var s1 := Apply(s, Derive(agent, preset));
      && Enabled(s1, Install(s.nextGeneration))
      && var s2 := Apply(s1, Install(s.nextGeneration));
      && Inv(s2) && StartedIn(s2, preset, agent)
      && s2.presetTokens == s.presetTokens && s2.firedRoots == s.firedRoots
      && (forall a | a != agent && SlotFree(s, a) :: SlotFree(s2, a))
      && (forall a | NoneEscaped(s, a) && (a == agent ==> SlotFree(s, a)) :: NoneEscaped(s2, a))
  {
    var s1 := Apply(s, Derive(agent, preset));
    var s2 := Apply(s1, Install(s.nextGeneration));
    assert GenerationOk(s, s.nextGeneration);
    StepKeepsInv(s, Derive(agent, preset));
    StepKeepsInv(s1, Install(s.nextGeneration));
    forall a | a != agent && SlotFree(s, a) ensures SlotFree(s2, a) {
      assert SlotOk(s, a);
    }
    forall a | NoneEscaped(s, a) && (a == agent ==> SlotFree(s, a)) ensures NoneEscaped(s2, a) {
      forall h | h in s2.loops && s2.loops[h].agent == a ensures LostMeansQuiet(s2, h) {
        assert GenerationOk(s, h) && SlotOk(s, a);
      }
    }
  }

  /** `create_agent_token` and the spawn of the loop, in one go. */
  function StartedAgent(s: State, preset: string, agent: string): State {
    Apply(Apply(s, Derive(agent, preset)), Install(s.nextGeneration))
  }

  predicate SameSlot(s: State, s': State, agent: string) {
    && (agent in s'.agentTokens <==> agent in s.agentTokens)
    && (agent in s.agentTokens ==> s'.agentTokens[agent] == s.agentTokens[agent])
  }

  predicate SamePresetToken(s: State, s': State, preset: string) {
    && (preset in s'.presetTokens <==> preset in s.presetTokens)
    && (preset in s.presetTokens ==> s'.presetTokens[preset] == s.presetTokens[preset])
  }

  class Preset {
    const id: string
    const agents: seq<Member>
    var running: bool

    constructor (id: string, agents: seq<Member>)
      ensures this.id == id && this.agents == agents && !running
    {
      this.id, this.agents, this.running := id, agents, false;
    }

    ghost predicate DistinctIds()
    {
      forall i, j | 0 <= i < j < |agents| :: agents[i].id != agents[j].id
    }

    /** Member i is one to start. */
    predicate Starts(startable: set<string>, i: nat) {
      i < |agents| && !agents[i].disabled && agents[i].id in startable
    }

    predicate StartedBefore(startable: set<string>, k: nat, agent: string) {
      exists i | 0 <= i < k :: Starts(startable, i) && agents[i].id == agent
    }

    /** The first k members started where they are to be. */
    function StartedMembers(s: State, startable: set<string>, k: nat): State {
      if k == 0 then s
      else
        var before := StartedMembers(s, startable, k - 1);
        if Starts(startable, k - 1) then StartedAgent(before, id, agents[k - 1].id) else before
    }

    predicate UnderLiveRoot(s: State) { id in s.presetTokens && s.presetTokens[id] !in s.firedRoots }

    lemma {:induction false} MembersStart(s: State, startable: set<string>, k: nat)
      requires Inv(s) && UnderLiveRoot(s) && k <= |agents|
      ensures var s' := StartedMembers(s, startable, k);
        && Inv(s') && s'.presetTokens == s.presetTokens && s'.firedRoots == s.firedRoots
        && (forall i | 0 <= i < k && Starts(startable, i) :: StartedIn(s', id, agents[i].id))
    {
      if k > 0 {
        MembersStart(s, startable, k - 1);
        var before := StartedMembers(s, startable, k - 1);
        if Starts(startable, k - 1) {
          StartStarts(before, id, agents[k - 1].id);
          forall i | 0 <= i < k && Starts(startable, i)
            ensures StartedIn(StartedMembers(s, startable, k), id, agents[i].id)
          {
            if agents[i].id != agents[k - 1].id { StartKeepsStarted(before, id, agents[i].id, agents[k - 1].id); }
          }
        }
      }
    }

    lemma {:induction false} MembersEscapeNothing(s: State, startable: set<string>, k: nat)
      requires Inv(s) && UnderLiveRoot(s) && k <= |agents| && DistinctIds()
      ensures forall a | NoneEscaped(s, a) && SlotFree(s, a) ::
        var s' := StartedMembers(s, startable, k);
        NoneEscaped(s', a) && (SlotFree(s', a) || StartedBefore(startable, k, a))
    {
      if k > 0 {
        MembersEscapeNothing(s, startable, k - 1);
        MembersStart(s, startable, k - 1);
        var before := StartedMembers(s, startable, k - 1);
        if Starts(startable, k - 1) {
          StartStarts(before, id, agents[k - 1].id);
          forall a | NoneEscaped(s, a) && SlotFree(s, a)
            ensures NoneEscaped(StartedMembers(s, startable, k), a)
            ensures SlotFree(StartedMembers(s, startable, k), a) || StartedBefore(startable, k, a)
          {
            if a == agents[k - 1].id { assert !StartedBefore(startable, k - 1, a); }
          }
        }
      }
    }

    /** From s to s' only members before k that are to be started have been started. */
    ghost predicate StartedOnly(s: State, s': State, startable: set<string>, k: nat) {
      && s'.stops == s.stops && s'.cancels == s.cancels && s'.births == s.births
      && s'.firedTokens == s.firedTokens && s'.firedRoots == s.firedRoots && s'.presetTokens == s.presetTokens
      && (forall a :: SameSlot(s, s', a) || StartedBefore(startable, k, a))
      && (forall g | g in s.loops :: g in s'.loops && s'.loops[g] == s.loops[g])
      && (forall g | g in s'.loops && g !in s.loops :: NewLoop(s', startable, k, g))
    }

    predicate NewLoop(s': State, startable: set<string>, k: nat, g: Generation)
      requires g in s'.loops
    {
      s'.loops[g].preset == id && StartedBefore(startable, k, s'.loops[g].agent)
    }

    ghost predicate NewLoopsOwn(s: State, s': State) {
      forall g | g in s'.loops && g !in s.loops :: Owns(s', g, s'.loops[g].agent)
    }

    lemma {:induction false} OnlyMembersStart(s: State, startable: set<string>, k: nat)
      requires Inv(s) && UnderLiveRoot(s) && k <= |agents|
      ensures StartedOnly(s, StartedMembers(s, startable, k), startable, k)
      ensures DistinctIds() ==> NewLoopsOwn(s, StartedMembers(s, startable, k))
    {
      if k > 0 {
        OnlyMembersStart(s, startable, k - 1);
        MembersStart(s, startable, k - 1);
        var before := StartedMembers(s, startable, k - 1);
        assert GenerationOk(before, before.nextGeneration);
        var s' := StartedMembers(s, startable, k);
        assert forall a | StartedBefore(startable, k - 1, a) :: StartedBefore(startable, k, a);
        if Starts(startable, k - 1) { OneMoreStarts(s, before, s', startable, k - 1); }
        else { assert forall g | g in s'.loops && g !in s.loops :: NewLoop(before, startable, k - 1, g); }
      }
    }

    lemma OneMoreStarts(s: State, before: State, s': State, startable: set<string>, k: nat)
      requires StartedOnly(s, before, startable, k) && Starts(startable, k)
      requires GenerationOk(before, before.nextGeneration) && id in before.presetTokens
      requires s' == StartedAgent(before, id, agents[k].id)
      ensures StartedOnly(s, s', startable, k + 1)
      ensures DistinctIds() && NewLoopsOwn(s, before) ==> NewLoopsOwn(s, s')
    {
      assert StartedBefore(startable, k + 1, agents[k].id);
      assert forall a | StartedBefore(startable, k, a) :: StartedBefore(startable, k + 1, a);
      forall a ensures SameSlot(s, s', a) || StartedBefore(startable, k + 1, a) {
        assert SameSlot(s, before, a) || StartedBefore(startable, k, a);
        if a != agents[k].id { assert SameSlot(before, s', a); }
      }
      forall g | g in s'.loops && g !in s.loops
        ensures NewLoop(s', startable, k + 1, g)
        ensures DistinctIds() && NewLoopsOwn(s, before) ==> Owns(s', g, s'.loops[g].agent)
      {
        if g in before.loops { assert NewLoop(before, startable, k, g); }
      }
    }

    /** `Preset::start` by itself. `startable` are the agents that exist and are in their initial
        status; start_agent does nothing for the others. */
    method Start(ma: Runtime, startable: set<string>)
      requires Inv(ma.View())
      modifies this, ma
      ensures Inv(ma.View()) && running
      ensures old(running) ==> ma.View() == old(ma.View())
      ensures !old(running) ==>
        forall i | 0 <= i < |agents| && !agents[i].disabled && agents[i].id in startable ::
          StartedIn(ma.View(), id, agents[i].id)
      // no other agent is touched: not one that is disabled or cannot start, not one of another preset
      ensures forall a | forall i | 0 <= i < |agents| && agents[i].id == a :: agents[i].disabled || a !in startable ::
        && (a in ma.agentTokens <==> a in old(ma.agentTokens))
        && (a in ma.agentTokens ==> ma.agentTokens[a] == old(ma.agentTokens[a]))
      ensures forall g | g in old(ma.loops) :: g in ma.loops && ma.loops[g] == old(ma.loops[g])
      ensures forall g | g in ma.loops && g !in old(ma.loops) ::
        && ma.loops[g].preset == id
        && exists i | 0 <= i < |agents| ::
          ma.loops[g].agent == agents[i].id && !agents[i].disabled && agents[i].id in startable
      ensures DistinctIds() ==> forall g | g in ma.loops && g !in old(ma.loops) :: Owns(ma.View(), g, ma.loops[g].agent)
      ensures ma.stops == old(ma.stops) && ma.cancels == old(ma.cancels) && ma.births == old(ma.births)
      ensures ma.firedTokens == old(ma.firedTokens) && ma.firedRoots == old(ma.firedRoots)
      ensures forall p | p != id ::
        && (p in ma.presetTokens <==> p in old(ma.presetTokens))
        && (p in ma.presetTokens ==> ma.presetTokens[p] == old(ma.presetTokens[p]))
      ensures DistinctIds() ==>
        forall a | old(NoneEscaped(ma.View(), a) && SlotFree(ma.View(), a)) :: NoneEscaped(ma.View(), a)
    {
      if running { return; }
      running := true;
      ghost var s := ma.View();
      ResetKeeps(s);
      ma.ResetPresetToken(id);
      StartMembers(ma, startable);
      ghost var s' := ma.View();
      StartEffect(s, startable);
      forall p | p != id
        ensures p in ma.presetTokens <==> p in s.presetTokens
        ensures p in ma.presetTokens ==> ma.presetTokens[p] == s.presetTokens[p]
      {
        assert SamePresetToken(s, s', p);
      }
      forall a | forall i | 0 <= i < |agents| && agents[i].id == a :: agents[i].disabled || a !in startable
        ensures a in ma.agentTokens <==> a in s.agentTokens
        ensures a in ma.agentTokens ==> ma.agentTokens[a] == s.agentTokens[a]
      {
        assert SameSlot(s, s', a);
      }
    }

    /** The loop of `Preset::start`: disabled agents are skipped. */
    method StartMembers(ma: Runtime, startable: set<string>)
      requires Inv(ma.View()) && UnderLiveRoot(ma.View())
      modifies ma
      ensures ma.View() == StartedMembers(old(ma.View()), startable, |agents|)
    {
      ghost var s := ma.View();
      for k := 0 to |agents|
        invariant ma.View() == StartedMembers(s, startable, k)
      {
        MembersStart(s, startable, k);
        if !agents[k].disabled && agents[k].id in startable { StartAgent(ma, agents[k].id); }
      }
    }

    /** What `Start` does, when not running. */
    lemma StartEffect(s: State, startable: set<string>)
      requires Inv(s)
      ensures var s' := StartedMembers(Apply(s, ResetPreset(id)), startable, |agents|);
        && Inv(s') && StartFrame(s, s', startable)
        && (forall i | 0 <= i < |agents| && !agents[i].disabled && agents[i].id in startable ::
              StartedIn(s', id, agents[i].id))
        && (DistinctIds() ==> forall a | NoneEscaped(s, a) && SlotFree(s, a) :: NoneEscaped(s', a))
    {
      ResetKeeps(s);
      var s1, n := Apply(s, ResetPreset(id)), |agents|;
      var s' := StartedMembers(s1, startable, n);
      MembersStart(s1, startable, n);
      OnlyMembersStart(s1, startable, n);
      FrameOfStart(s, s', startable);
      if DistinctIds() { MembersEscapeNothing(s1, startable, n); }
    }

    /** What `Start` leaves as it was, and whose loops it adds. */
    ghost predicate StartFrame(s: State, s': State, startable: set<string>) {
      && (forall a | forall i | 0 <= i < |agents| && agents[i].id == a :: agents[i].disabled || a !in startable ::
            SameSlot(s, s', a))
      && (forall g | g in s.loops :: g in s'.loops && s'.loops[g] == s.loops[g])
      && (forall g | g in s'.loops && g !in s.loops ::
            && s'.loops[g].preset == id
            && exists i | 0 <= i < |agents| ::
              s'.loops[g].agent == agents[i].id && !agents[i].disabled && agents[i].id in startable)
      && (DistinctIds() ==> NewLoopsOwn(s, s'))
      && s'.stops == s.stops && s'.cancels == s.cancels && s'.births == s.births
      && s'.firedTokens == s.firedTokens && s'.firedRoots == s.firedRoots
      && (forall p | p != id :: SamePresetToken(s, s', p))
    }

    lemma FrameOfStart(s: State, s': State, startable: set<string>)
      requires StartedOnly(Apply(s, ResetPreset(id)), s', startable, |agents|)
      requires DistinctIds() ==> NewLoopsOwn(Apply(s, ResetPreset(id)), s')
      ensures StartFrame(s, s', startable)
    {
      var s1, n: nat := Apply(s, ResetPreset(id)), |agents|;
      forall a | forall i | 0 <= i < |agents| && agents[i].id == a :: agents[i].disabled || a !in startable
        ensures SameSlot(s, s', a)
      {
        assert SameSlot(s1, s', a) || StartedBefore(startable, n, a);
      }
      forall g | g in s'.loops && g !in s.loops
        ensures s'.loops[g].preset == id
        ensures exists i | 0 <= i < |agents| ::
          s'.loops[g].agent == agents[i].id && !agents[i].disabled && agents[i].id in startable
      {
        assert NewLoop(s', startable, n, g);
      }
    }

    lemma ResetKeeps(s: State)
      requires Inv(s)
      ensures var s' := Apply(s, ResetPreset(id));
        && Inv(s') && UnderLiveRoot(s')
        && (forall a :: NoneEscaped(s, a) ==> NoneEscaped(s', a)) && (forall a :: SlotFree(s, a) ==> SlotFree(s', a))
    {
      var s' := Apply(s, ResetPreset(id));
      StepKeepsInv(s, ResetPreset(id));
      forall a | NoneEscaped(s, a) ensures NoneEscaped(s', a) {
        forall h | h in s.loops && s.loops[h].agent == a ensures LostMeansQuiet(s', h) { assert LostMeansQuiet(s, h); }
      }
    }

    /** `start_agent`, up to the loop it spawns. */
    method StartAgent(ma: Runtime, agent: string)
      requires Inv(ma.View())
      requires id in ma.presetTokens && ma.presetTokens[id] !in ma.firedRoots
      modifies ma
      ensures Inv(ma.View()) && StartedIn(ma.View(), id, agent)
      ensures ma.View() == StartedAgent(old(ma.View()), id, agent)
      ensures ma.presetTokens == old(ma.presetTokens) && ma.firedRoots == old(ma.firedRoots)
      ensures forall a | a != agent && old(SlotFree(ma.View(), a)) :: SlotFree(ma.View(), a)
      ensures forall a | old(StartedIn(ma.View(), id, a)) :: StartedIn(ma.View(), id, a)
      ensures forall a | old(NoneEscaped(ma.View(), a)) && (a == agent ==> old(SlotFree(ma.View(), a))) ::
        NoneEscaped(ma.View(), a)
    {
      ghost var s := ma.View();
      StartStarts(s, id, agent);
      assert GenerationOk(s, s.nextGeneration);
      forall a | a != agent && StartedIn(s, id, a)
        ensures StartedIn(Apply(Apply(s, Derive(agent, id)), Install(s.nextGeneration)), id, a)
      {
        StartKeepsStarted(s, id, a, agent);
      }
      var _, _ := ma.CreateAgentToken(id, agent);
    }

    /** `Preset::stop` by itself: afterwards no loop of its agents is live, unless one had escaped
        before, and other agents are as they were. */
    method Stop(ma: Runtime)
      requires Inv(ma.View()) && ma.stops == map[] && ma.cancels == {}
      modifies this, ma
      ensures Inv(ma.View()) && !running && id !in ma.presetTokens
      ensures forall i | 0 <= i < |agents| ::
        && agents[i].id !in ma.agentTokens
        && (old(NoneEscaped(ma.View(), agents[i].id)) ==> AgentQuiet(ma.View(), agents[i].id))
      // nothing else is stopped, cancelled or changed
      ensures forall a | forall i | 0 <= i < |agents| :: agents[i].id != a ::
        && (a in ma.agentTokens <==> a in old(ma.agentTokens))
        && (a in ma.agentTokens ==> ma.agentTokens[a] == old(ma.agentTokens[a]))
      ensures ma.loops == old(ma.loops) && ma.births == old(ma.births)
      ensures forall r :: r in ma.firedRoots <==>
        r in old(ma.firedRoots) || (id in old(ma.presetTokens) && old(ma.presetTokens)[id] == r)
      ensures forall t | t in ma.firedTokens && t !in old(ma.firedTokens) ::
        exists i | 0 <= i < |agents| ::
          agents[i].id in old(ma.agentTokens) && old(ma.agentTokens)[agents[i].id].token == t
      ensures forall i | 0 <= i < |agents| ::
        agents[i].id in old(ma.agentTokens) ==> old(ma.agentTokens)[agents[i].id].token in ma.firedTokens
    {
      var ids := seq(|agents|, i requires 0 <= i < |agents| => agents[i].id);
      ghost var s := ma.View();
      ma.PresetStop(id, ids);
      StoppedPresetState(s, id, ids);
      running := false;
      forall i | 0 <= i < |agents|
        ensures agents[i].id !in ma.agentTokens
        ensures old(NoneEscaped(ma.View(), agents[i].id)) ==> AgentQuiet(ma.View(), agents[i].id)
      {
        assert ids[i] in ids;
      }
    }
  }
}
