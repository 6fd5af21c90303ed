/** The registry of per-flow cancellation tokens.

    The registry keeps weak references: a token lives exactly as long as some context of
    its flow (or a lookup in progress) holds a strong one. `holders` counts the strong
    references, so a token is alive iff it occurs in `holders`. */
module ContextTokens {
  import opened Options

  const PRUNE_THRESHOLD := 1024

  /** A token, with the context it was issued for; `id` distinguishes reissues. */
  datatype Token = Token(id: nat, ctx: nat)

  datatype State = State(
    registry: map<nat, Token>,
    holders: multiset<Token>,
    fired: set<Token>,
    next: nat)

  const INITIAL := State(map[], multiset{}, {}, 0)

  datatype Action =
    | Lookup(ctx: nat)       // context_token: the caller keeps the reference
    | Clone(token: Token)    // a context is cloned
    | Drop(token: Token)     // a context is dropped
    | Abort(ctx: nat)        // abort_context

  predicate Enabled(s: State, a: Action) {
    match a
    case Clone(t) => t in s.holders
    case Drop(t) => t in s.holders
    case _ => true
  }

  /** The entry of a context, if it can still be upgraded. */
  function Upgraded(s: State, ctx: nat): (t: Option<Token>) {
    if ctx in s.registry && s.registry[ctx] in s.holders then Some(s.registry[ctx]) else None
  }

  function Pruned(s: State): map<nat, Token> {
    if |s.registry| >= PRUNE_THRESHOLD then map c | c in s.registry && s.registry[c] in s.holders :: s.registry[c]
    else s.registry
  }

  /** The token a lookup hands out. */
  function Issued(s: State, ctx: nat): Token {
    match Upgraded(s, ctx)
    case Some(t) => t
    case None => Token(s.next, ctx)
  }

  function Apply(s: State, a: Action): State
    requires Enabled(s, a)
  {
    match a
    case Lookup(ctx) => (
      match Upgraded(s, ctx)
      case Some(t) => s.(holders := s.holders + multiset{t})
      case None =>
        var t := Token(s.next, ctx);
        s.(registry := Pruned(s)[ctx := t], holders := s.holders + multiset{t}, next := s.next + 1)
      )
    case Clone(t) => s.(holders := s.holders + multiset{t})
    case Drop(t) => s.(holders := s.holders - multiset{t})
    case Abort(ctx) => (
      match Upgraded(s, ctx)
      case Some(t) => s.(fired := s.fired + {t})
      case None => s
      )
  }

  /** A live token is the registered one of its own context. */
  predicate HolderOk(s: State, t: Token) {
    t in s.holders ==> t.id < s.next && t.ctx in s.registry && s.registry[t.ctx] == t
  }

  predicate EntryOk(s: State, ctx: nat) {
    ctx in s.registry ==> s.registry[ctx].ctx == ctx && s.registry[ctx].id < s.next
  }

  ghost predicate Inv(s: State) {
    (forall t :: HolderOk(s, t)) && (forall ctx :: EntryOk(s, ctx))
  }

  lemma {:induction false} StepKeepsInv(s: State, a: Action)
    requires Inv(s) && Enabled(s, a)
    ensures Inv(Apply(s, a))
  {
    var s' := Apply(s, a);
    forall t ensures HolderOk(s', t) {
      assert HolderOk(s, t);
      if a.Lookup? { assert EntryOk(s, a.ctx); }
    }
    forall ctx ensures EntryOk(s', ctx) { assert EntryOk(s, ctx); }
  }

  ghost predicate StepAt(tr: seq<State>, acts: seq<Action>, i: nat)
    requires |tr| == |acts| + 1 && i < |acts|
  {
    Enabled(tr[i], acts[i]) && tr[i + 1] == Apply(tr[i], acts[i])
  }

  ghost predicate Run(tr: seq<State>, acts: seq<Action>) {
    |tr| == |acts| + 1 && Inv(tr[0]) && forall i | 0 <= i < |acts| :: StepAt(tr, acts, i)
  }

  lemma {:induction false} InvAlong(tr: seq<State>, acts: seq<Action>, k: nat)
    requires Run(tr, acts) && k < |tr|
    ensures Inv(tr[k])
  {
    if k > 0 {
      InvAlong(tr, acts, k - 1);
      assert StepAt(tr, acts, k - 1);
      StepKeepsInv(tr[k - 1], acts[k - 1]);
    }
  }

  /** While a flow holds its token, every lookup of its context returns that token and
      abort_context cancels it; and nothing else is ever returned or cancelled. */
  lemma HeldTokenIsTheEntry(s: State, t: Token)
    requires Inv(s) && t in s.holders
    ensures Upgraded(s, t.ctx) == Some(t) && Issued(s, t.ctx) == t
    ensures Apply(s, Abort(t.ctx)).fired == s.fired + {t}
    ensures forall c | c != t.ctx :: Issued(s, c) != t
  {
    assert HolderOk(s, t);
    forall c | c != t.ctx ensures Issued(s, c) != t { assert EntryOk(s, c); }
  }

  /** A token that is no longer held is gone for good: no lookup returns it again. */
  lemma {:induction false} DroppedTokenStaysGone(tr: seq<State>, acts: seq<Action>, t: Token, i: nat, k: nat)
    requires Run(tr, acts) && i <= k < |tr|
    requires t !in tr[i].holders && t.id < tr[i].next
    ensures t !in tr[k].holders && t.id < tr[k].next
  {
    if i < k {
      DroppedTokenStaysGone(tr, acts, t, i, k - 1);
      assert StepAt(tr, acts, k - 1);
    }
  }

  /** Two lookups of one context, at steps i < k of a run, return the same token exactly
      when the first one's token was held all the way in between. */
  lemma SameTokenIffHeld(tr: seq<State>, acts: seq<Action>, ctx: nat, i: nat, k: nat)
    requires Run(tr, acts) && i < k < |acts|
    requires acts[i] == Lookup(ctx) && acts[k] == Lookup(ctx)
    ensures Issued(tr[k], ctx) == Issued(tr[i], ctx) <==> forall j | i < j <= k :: Issued(tr[i], ctx) in tr[j].holders
  {
    var t := Issued(tr[i], ctx);
    assert StepAt(tr, acts, i) && StepAt(tr, acts, k);
    InvAlong(tr, acts, i);
    assert EntryOk(tr[i], ctx);
    InvAlong(tr, acts, i + 1);
    InvAlong(tr, acts, k);
    assert t in tr[i + 1].holders && t.ctx == ctx && t.id < tr[i + 1].next;
    if t in tr[k].holders {
      HeldTokenIsTheEntry(tr[k], t);
    } else {
      NextGrows(tr, acts, i + 1, k);
    }
    forall j | i < j <= k && t !in tr[j].holders ensures t !in tr[k].holders {
      NextGrows(tr, acts, i + 1, j);
      DroppedTokenStaysGone(tr, acts, t, j, k);
    }
  }

  lemma {:induction false} NextGrows(tr: seq<State>, acts: seq<Action>, i: nat, k: nat)
    requires Run(tr, acts) && i <= k < |tr|
    ensures tr[i].next <= tr[k].next
  {
    if i < k {
      NextGrows(tr, acts, i, k - 1);
      assert StepAt(tr, acts, k - 1);
    }
  }

  /** An aborted flow stays aborted: whatever looks its context up later, while the flow is
      alive, receives a cancelled token. */
  lemma {:induction false} AbortReachesLaterLookups(tr: seq<State>, acts: seq<Action>, t: Token, i: nat, k: nat)
    requires Run(tr, acts) && i < k < |tr|
    requires acts[i] == Abort(t.ctx) && t in tr[i].holders && t in tr[k].holders
    ensures Issued(tr[k], t.ctx) == t && t in tr[k].fired
  {
    InvAlong(tr, acts, i);
    InvAlong(tr, acts, k);
    HeldTokenIsTheEntry(tr[i], t);
    HeldTokenIsTheEntry(tr[k], t);
    assert StepAt(tr, acts, i);
    FiredStays(tr, acts, t, i + 1, k);
  }

  lemma {:induction false} FiredStays(tr: seq<State>, acts: seq<Action>, t: Token, i: nat, k: nat)
    requires Run(tr, acts) && i <= k < |tr| && t in tr[i].fired
    ensures t in tr[k].fired
  {
    if i < k {
      FiredStays(tr, acts, t, i, k - 1);
      assert StepAt(tr, acts, k - 1);
    }
  }

  /** The contexts whose flow is alive. */
  function LiveContexts(s: State): set<nat> {
    set c | c in s.registry && s.registry[c] in s.holders
  }

  /** Pruning drops only dead entries and never changes a live one. */
  lemma InsertionKeepsLiveFlows(s: State, ctx: nat)
    requires Inv(s) && Upgraded(s, ctx) == None
    ensures var s' := Apply(s, Lookup(ctx));
      && (forall c | c in LiveContexts(s) :: c in s'.registry && s'.registry[c] == s.registry[c])
      && LiveContexts(s') == LiveContexts(s) + {ctx}
  {
    var s' := Apply(s, Lookup(ctx));
    var t := Token(s.next, ctx);
    assert HolderOk(s, t);
    forall c ensures c in LiveContexts(s') <==> c in LiveContexts(s) + {ctx} { assert EntryOk(s, c); }
  }

  /** An insertion leaves the registry within the threshold or within the number of live flows. */
  lemma RegistryIsBounded(s: State, ctx: nat)
    requires Inv(s) && Upgraded(s, ctx) == None
    ensures var s' := Apply(s, Lookup(ctx));
      |s'.registry| <= 1024 || |s'.registry| == |LiveContexts(s')|
  {
    var s' := Apply(s, Lookup(ctx));
    InsertionKeepsLiveFlows(s, ctx);
    assert s'.registry.Keys == Pruned(s).Keys + {ctx};
    if |s.registry| >= PRUNE_THRESHOLD {
      assert Pruned(s).Keys == LiveContexts(s);
      assert s'.registry.Keys == LiveContexts(s');
    }
  }

  /** The registry of `ModularAgent`, updated in place. */
  class Registry {
    var tokens: map<nat, Token>
    var holders: multiset<Token>
    var fired: set<Token>
    var next: nat

    ghost function View(): State
      reads this
    {
      State(tokens, holders, fired, next)
    }

    constructor ()
      ensures View() == INITIAL && Inv(View())
    {
      tokens, holders, fired, next := map[], multiset{}, {}, 0;
    }

    method ContextToken(ctx: nat) returns (token: Token)
      requires Inv(View())
      modifies this
      ensures Inv(View()) && View() == Apply(old(View()), Lookup(ctx))
      ensures token == Issued(old(View()), ctx) && token.ctx == ctx && token in holders && tokens[ctx] == token
    {
      StepKeepsInv(View(), Lookup(ctx));
      assert EntryOk(View(), ctx);
      if ctx in tokens && tokens[ctx] in holders {
        token := tokens[ctx];
        holders := holders + multiset{token};
        return;
      }
      if |tokens| >= PRUNE_THRESHOLD {
        tokens := map c | c in tokens && tokens[c] in holders :: tokens[c];
      }
      token := Token(next, ctx);
      next := next + 1;
      holders := holders + multiset{token};
      tokens := tokens[ctx := token];
    }

    method AbortContext(ctx: nat) returns (aborted: bool)
      requires Inv(View())
      modifies this
      ensures Inv(View()) && View() == Apply(old(View()), Abort(ctx))
      ensures aborted <==> exists t :: t in old(holders) && t.ctx == ctx
    {
      StepKeepsInv(View(), Abort(ctx));
      if ctx in tokens && tokens[ctx] in holders {
        assert EntryOk(View(), ctx);
        fired := fired + {tokens[ctx]};
        return true;
      }
      assert forall t | t in holders && t.ctx == ctx :: HolderOk(View(), t);
      return false;
    }
  }
}
