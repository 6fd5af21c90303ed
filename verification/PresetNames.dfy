/** The preset name index.

    `preset_names` is the single source of truth for lookup and uniqueness. A lock-order
    rule forbids holding it together with `presets`, so add, rename and remove reserve,
    re-check and roll back in separate critical sections. One action below is one critical
    section; any number of operations may be in flight. */
module PresetNames {
  import opened Options

  type Id = nat

  /** An operation between two critical sections, at the section it enters next. An add is
      filed under the id it allocated; ids come from a counter and are never reused. */
  datatype Op =
    | Adding(initial: Option<string>)       // name reserved; presets is entered next
    | Renaming(id: Id, name: string)      // preset found; the name is reserved next
    | Reserved(id: Id, name: string)      // name reserved; liveness is re-checked next
    | RollingBack(id: Id, name: string)   // preset found gone; the reservation is undone next
    | Setting(id: Id, name: string)       // preset found live; Preset.name is set next
    | Removing(id: Id)                    // preset found; it leaves presets next
    | Dropped(id: Id)                     // out of presets; the index is cleaned next

  datatype State = State(
    presets: set<Id>,
    names: map<string, Id>,           // preset_names
    labels: map<Id, Option<string>>,  // Preset.name of the preset object
    ops: map<nat, Op>,
    named: set<Id>,                   // ids that ever reserved a name
    next: nat)

  const INITIAL := State({}, map[], map[], map[], {}, 1)

  datatype Action =
    | Add(initial: Option<string>)
    | Insert(op: nat)
    | Find(id: Id, name: string)
    | Reserve(op: nat)
    | Recheck(op: nat)
    | RollBack(op: nat)
    | SetName(op: nat)
    | BeginRemove(id: Id)
    | DropPreset(op: nat)
    | CleanIndex(op: nat)

  predicate Enabled(s: State, a: Action) {
    match a
    case Add(_) => true
    case Insert(o) => o in s.ops && s.ops[o].Adding?
    case Find(id, _) => id in s.presets
    case Reserve(o) => o in s.ops && s.ops[o].Renaming?
    case Recheck(o) => o in s.ops && s.ops[o].Reserved?
    case RollBack(o) => o in s.ops && s.ops[o].RollingBack?
    case SetName(o) => o in s.ops && s.ops[o].Setting?
    case BeginRemove(id) => id in s.presets
    case DropPreset(o) => o in s.ops && s.ops[o].Removing?
    case CleanIndex(o) => o in s.ops && s.ops[o].Dropped?
  }

  function WithoutOwner(names: map<string, Id>, id: Id): map<string, Id> {
    map n | n in names && names[n] != id :: names[n]
  }

  predicate Taken(s: State, name: string, id: Id) {
    name in s.names && s.names[name] != id
  }

  function Apply(s: State, a: Action): State
    requires Enabled(s, a)
  {
    match a
    case Add(name) =>
      var id := s.next;
      if name.Some? && name.value in s.names then s.(next := id + 1)
      else
        var s' := s.(ops := s.ops[id := Adding(name)], next := id + 1);
        if name.None? then s'
        else s'.(names := s.names[name.value := id], named := s.named + {id})
    case Insert(id) =>
      var name := s.ops[id].initial;
      var s' := s.(ops := s.ops - {id});
      if id in s.presets then (if name.Some? then s'.(names := s.names - {name.value}) else s')
      else s'.(presets := s.presets + {id}, labels := s.labels[id := name])
    case Find(id, name) => s.(ops := s.ops[s.next := Renaming(id, name)], next := s.next + 1)
    case Reserve(o) =>
      var Renaming(id, name) := s.ops[o];
      if Taken(s, name, id) then s.(ops := s.ops - {o})
      else
        s.(names := WithoutOwner(s.names, id)[name := id],
           ops := s.ops[o := Reserved(id, name)], named := s.named + {id})
    case Recheck(o) =>
      var Reserved(id, name) := s.ops[o];
      s.(ops := s.ops[o := if id in s.presets then Setting(id, name) else RollingBack(id, name)])
    case RollBack(o) =>
      var RollingBack(id, name) := s.ops[o];
      s.(ops := s.ops - {o}, names := if name in s.names && s.names[name] == id then s.names - {name} else s.names)
    case SetName(o) =>
      var Setting(id, name) := s.ops[o];
      s.(ops := s.ops - {o}, labels := s.labels[id := Some(name)])
    case BeginRemove(id) => s.(ops := s.ops[s.next := Removing(id)], next := s.next + 1)
    case DropPreset(o) => s.(presets := s.presets - {s.ops[o].id}, ops := s.ops[o := Dropped(s.ops[o].id)])
    case CleanIndex(o) => s.(names := WithoutOwner(s.names, s.ops[o].id), ops := s.ops - {o})
  }

  // ---------------------------------------------------------------- invariant

  predicate IsAdding(s: State, id: Id) { id in s.ops && s.ops[id].Adding? }

  /** The id was issued and its add, if any, has finished. */
  predicate Settled(s: State, id: Id) { id < s.next && !IsAdding(s, id) }

  predicate OpOk(s: State, o: nat) {
    o in s.ops ==>
      && o < s.next
      && (match s.ops[o]
          case Adding(name) =>
            && o !in s.presets
            && (name.Some? ==> o in s.named && name.value in s.names && s.names[name.value] == o)
            && (name.None? ==> o !in s.named)
          case RollingBack(id, _) => Settled(s, id) && id !in s.presets
          case Dropped(id) => Settled(s, id) && id !in s.presets
          case op => Settled(s, op.id))
  }

  /** Operation o is going to remove the entry n of the dead (or not yet live) preset id. */
  predicate Answers(s: State, o: nat, n: string, id: Id) {
    o in s.ops && (s.ops[o] == Reserved(id, n) || s.ops[o] == RollingBack(id, n) || s.ops[o] == Dropped(id)
                   || (o == id && s.ops[o] == Adding(Some(n))))
  }

  ghost predicate NameOk(s: State, n: string) {
    n in s.names ==>
      && s.names[n] < s.next && s.names[n] in s.named
      && (s.names[n] in s.presets || exists o :: Answers(s, o, n, s.names[n]))
  }

  /** No preset owns two names. */
  predicate OwnerOk(s: State, n: string, m: string) {
    n in s.names && m in s.names && s.names[n] == s.names[m] ==> n == m
  }

  predicate Owned(s: State, n: string, id: Id) { n in s.names && s.names[n] == id }

  /** A live preset that ever reserved a name has an entry. */
  ghost predicate PresetOk(s: State, id: Id) {
    && (id in s.presets ==> Settled(s, id) && id in s.labels)
    && (id in s.presets && id in s.named ==> exists n :: Owned(s, n, id))
    && (id in s.named ==> id < s.next)
  }

  ghost predicate Inv(s: State) {
    && (forall o :: OpOk(s, o))
    && (forall n :: NameOk(s, n))
    && (forall n, m :: OwnerOk(s, n, m))
    && (forall id :: PresetOk(s, id))
  }

  lemma RenameStepKeepsOps(s: State, a: Action, o: nat)
    requires Inv(s) && Enabled(s, a) && (a.Find? || a.Reserve? || a.Recheck? || a.RollBack? || a.SetName?)
    ensures OpOk(Apply(s, a), o)
  {
    assert OpOk(s, o);
    if a.Find? { assert PresetOk(s, a.id); } else { assert OpOk(s, a.op); }
  }

  lemma StepKeepsOps(s: State, a: Action, o: nat)
    requires Inv(s) && Enabled(s, a)
    ensures OpOk(Apply(s, a), o)
  {
    assert OpOk(s, o) && PresetOk(s, o);
    match a
    case Add(_) =>
    case Insert(p) => assert OpOk(s, p);
    case BeginRemove(id) => assert PresetOk(s, id);
    case DropPreset(p) => assert OpOk(s, p);
    case CleanIndex(p) => assert OpOk(s, p);
    case _ => RenameStepKeepsOps(s, a, o);
  }

  lemma StepKeepsOwners(s: State, a: Action, n: string, m: string)
    requires Inv(s) && Enabled(s, a)
    ensures OwnerOk(Apply(s, a), n, m)
  {
    assert OwnerOk(s, n, m) && NameOk(s, n) && NameOk(s, m);
  }

  lemma StepKeepsNames(s: State, a: Action, n: string)
    requires Inv(s) && Enabled(s, a)
    ensures NameOk(Apply(s, a), n)
  {
    var s' := Apply(s, a);
    assert NameOk(s, n);
    if n in s.names && s.names[n] !in s.presets {
      var o :| Answers(s, o, n, s.names[n]);
      assert OpOk(s, o);
      if n in s'.names && s'.names[n] == s.names[n] && s'.names[n] !in s'.presets {
        assert Answers(s', o, n, s'.names[n]);
      }
    }
    match a
    case Add(_) => assert n in s'.names && n !in s.names ==> Answers(s', s.next, n, s.next);
    case Reserve(o) =>
      assert OpOk(s, o);
      assert s.ops[o].name == n && n in s'.names ==> Answers(s', o, n, s'.names[n]) || s'.names == s.names;
    case DropPreset(o) => assert n in s'.names && s'.names[n] == s.ops[o].id ==> Answers(s', o, n, s'.names[n]);
    case _ =>
  }

  lemma StepKeepsPresets(s: State, a: Action, id: Id)
    requires Inv(s) && Enabled(s, a)
    ensures PresetOk(Apply(s, a), id)
  {
    var s' := Apply(s, a);
    assert PresetOk(s, id) && OpOk(s, id);
    if id in s.presets && id in s.named {
      var n :| Owned(s, n, id);
      if Owned(s', n, id) {}
      match a
      case Insert(o) => assert OpOk(s, o);
      case Reserve(o) => assert OpOk(s, o); if !Owned(s', n, id) { assert Owned(s', s.ops[o].name, id); }
      case RollBack(o) => assert OpOk(s, o);
      case CleanIndex(o) => assert OpOk(s, o);
      case _ =>
    }
    match a
    case Insert(o) =>
      assert OpOk(s, o);
      assert o == id && s.ops[o].initial.Some? ==> Owned(s', s.ops[o].initial.value, id);
    case Reserve(o) => assert OpOk(s, o); assert Owned(s', s.ops[o].name, s.ops[o].id) || s'.names == s.names;
    case _ =>
  }

  lemma StepKeepsInv(s: State, a: Action)
    requires Inv(s) && Enabled(s, a)
    ensures Inv(Apply(s, a))
  {
    forall o { StepKeepsOps(s, a, o); }
    forall n { StepKeepsNames(s, a, n); }
    forall n, m { StepKeepsOwners(s, a, n, m); }
    forall id { StepKeepsPresets(s, a, id); }
  }

  // ------------------------------------------------------------ runs

  ghost predicate StepAt(tr: seq<State>, acts: seq<Action>, i: nat)
    requires |tr| == |acts| + 1 && i < |acts|
  {
    Enabled(tr[i], acts[i]) && tr[i + 1] == Apply(tr[i], acts[i])
  }

  ghost predicate Run(tr: seq<State>, acts: seq<Action>) {
    |tr| == |acts| + 1 && tr[0] == INITIAL && forall i | 0 <= i < |acts| :: StepAt(tr, acts, i)
  }

  lemma {:induction false} InvAlong(tr: seq<State>, acts: seq<Action>, k: nat)
    requires Run(tr, acts) && k < |tr|
    ensures Inv(tr[k])
  {
    if k > 0 {
      InvAlong(tr, acts, k - 1);
      assert StepAt(tr, acts, k - 1);
      StepKeepsInv(tr[k - 1], acts[k - 1]);
    }
  }

  /** At every moment of every run: no preset owns two names, a live preset that was ever
      named keeps exactly one entry, and an entry whose preset is not live has an operation
      in flight that will remove it or make its preset live. */
  lemma IndexAtEveryMoment(tr: seq<State>, acts: seq<Action>, k: nat)
    requires Run(tr, acts) && k < |tr|
    ensures forall n, m | n in tr[k].names && m in tr[k].names && tr[k].names[n] == tr[k].names[m] :: n == m
    ensures forall id | id in tr[k].presets && id in tr[k].named :: exists n :: Owned(tr[k], n, id)
    ensures forall n | n in tr[k].names && tr[k].names[n] !in tr[k].presets ::
      exists o :: Answers(tr[k], o, n, tr[k].names[n])
  {
    InvAlong(tr, acts, k);
    forall n, m | n in tr[k].names && m in tr[k].names && tr[k].names[n] == tr[k].names[m] ensures n == m {
      assert OwnerOk(tr[k], n, m);
    }
    forall id | id in tr[k].presets && id in tr[k].named ensures exists n :: Owned(tr[k], n, id) {
      assert PresetOk(tr[k], id);
    }
    forall n | n in tr[k].names && tr[k].names[n] !in tr[k].presets
      ensures exists o :: Answers(tr[k], o, n, tr[k].names[n])
    {
      assert NameOk(tr[k], n);
    }
  }

  /** Whenever nothing is in flight, the index is exactly a bijection between its names and
      the live presets that were ever named. */
  lemma QuiescentIndex(tr: seq<State>, acts: seq<Action>, k: nat)
    requires Run(tr, acts) && k < |tr| && tr[k].ops == map[]
    ensures forall n | n in tr[k].names :: tr[k].names[n] in tr[k].presets * tr[k].named
    ensures forall id | id in tr[k].presets * tr[k].named :: exists n :: Owned(tr[k], n, id)
    ensures forall n, m | n in tr[k].names && m in tr[k].names && tr[k].names[n] == tr[k].names[m] :: n == m
  {
    IndexAtEveryMoment(tr, acts, k);
    InvAlong(tr, acts, k);
    forall n | n in tr[k].names ensures tr[k].names[n] in tr[k].presets * tr[k].named { assert NameOk(tr[k], n); }
  }

  /** The duplicate-id branch of add_preset_raw is never taken: ids are not reused, so an
      add always finds its id free, and its reserved name is never rolled back. */
  lemma AddNeverCollides(tr: seq<State>, acts: seq<Action>, k: nat, id: Id)
    requires Run(tr, acts) && k < |acts| && acts[k] == Insert(id)
    ensures id !in tr[k].presets && id in tr[k + 1].presets && tr[k + 1].names == tr[k].names
  {
    InvAlong(tr, acts, k);
    assert StepAt(tr, acts, k);
    assert OpOk(tr[k], id);
  }

  /** A roll-back removes the reservation only of a preset that is gone for good: no entry of
      a live preset is ever touched by it, nor by the clean-up of a removal. */
  lemma CleanupSparesLivePresets(tr: seq<State>, acts: seq<Action>, k: nat, n: string)
    requires Run(tr, acts) && k < |acts| && (acts[k].RollBack? || acts[k].CleanIndex?)
    requires n in tr[k].names && tr[k].names[n] in tr[k].presets
    ensures n in tr[k + 1].names && tr[k + 1].names[n] == tr[k].names[n]
  {
    InvAlong(tr, acts, k);
    assert StepAt(tr, acts, k);
    assert OpOk(tr[k], acts[k].op);
  }

  // ------------------------------------------ agreement with Preset.name

  /** A rename of the preset holds a reservation or is about to set Preset.name. */
  predicate MidRename(s: State, o: nat, id: Id) {
    o in s.ops && (s.ops[o].Reserved? || s.ops[o].Setting?) && s.ops[o].id == id
  }

  /** Renames of one preset do not overlap past their reservation. */
  ghost predicate NoOverlap(s: State, a: Action) {
    a.Reserve? && a.op in s.ops && s.ops[a.op].Renaming? ==> forall o :: !MidRename(s, o, s.ops[a.op].id)
  }

  /** Index and Preset.name of one preset: they agree unless a rename is halfway, and then
      the index is already where the rename is going. */
  ghost predicate LabelOk(s: State, id: Id) {
    && (forall o, p | MidRename(s, o, id) && MidRename(s, p, id) :: o == p)
    && (id in s.presets ==> (forall o | MidRename(s, o, id) :: Owned(s, s.ops[o].name, id)))
    && (id in s.presets && (forall o :: !MidRename(s, o, id)) ==> Agrees(s, id))
    && (IsAdding(s, id) ==> forall n :: Owned(s, n, id) <==> s.ops[id].initial == Some(n))
  }

  ghost predicate Agrees(s: State, id: Id) {
    id in s.labels && forall n :: Owned(s, n, id) <==> s.labels[id] == Some(n)
  }

  /** The action reserves the name of rename o for the preset. */
  predicate ReservesFor(s: State, a: Action, o: nat, id: Id) {
    && a == Reserve(o) && o in s.ops && s.ops[o].Renaming?
    && s.ops[o].id == id && !Taken(s, s.ops[o].name, id)
  }

  lemma StepMovesRename(s: State, a: Action, o: nat, id: Id)
    requires Inv(s) && Enabled(s, a)
    ensures var s' := Apply(s, a);
      && (MidRename(s', o, id) && !MidRename(s, o, id) ==> ReservesFor(s, a, o, id))
      && (MidRename(s, o, id) && !MidRename(s', o, id) ==> a == SetName(o) || (a == Recheck(o) && id !in s.presets))
      && (MidRename(s, o, id) && MidRename(s', o, id) ==> s'.ops[o].name == s.ops[o].name)
  {
    assert OpOk(s, o);
  }

  /** Actions on other presets, and those that do not write the index, leave ownership alone. */
  lemma StepMovesOwner(s: State, a: Action, id: Id)
    requires Inv(s) && Enabled(s, a)
    requires match a
      case Add(_) => id != s.next
      case Insert(o) => true
      case Reserve(o) => s.ops[o].id != id || Taken(s, s.ops[o].name, id)
      case RollBack(o) => s.ops[o].id != id
      case CleanIndex(o) => s.ops[o].id != id
      case _ => true
    ensures forall n :: Owned(Apply(s, a), n, id) <==> Owned(s, n, id)
  {
    if a.Insert? { assert OpOk(s, a.op); }
  }

  lemma RenamesAreSettled(s: State, o: nat, id: Id)
    requires Inv(s) && MidRename(s, o, id)
    ensures Settled(s, id)
  {
    assert OpOk(s, o);
  }

  lemma StepMovesRenames(s: State, a: Action, id: Id)
    requires Inv(s) && Enabled(s, a)
    ensures var s' := Apply(s, a);
      && (forall o :: MidRename(s', o, id) && !MidRename(s, o, id) ==> ReservesFor(s, a, o, id))
      && (forall o :: MidRename(s, o, id) && !MidRename(s', o, id) ==>
            a == SetName(o) || (a == Recheck(o) && id !in s.presets))
      && (forall o :: MidRename(s, o, id) && MidRename(s', o, id) ==> s'.ops[o].name == s.ops[o].name)
      && (forall o :: MidRename(s, o, id) ==> Settled(s, id))
  {
    var s' := Apply(s, a);
    forall o
      ensures MidRename(s', o, id) && !MidRename(s, o, id) ==> ReservesFor(s, a, o, id)
      ensures MidRename(s, o, id) && !MidRename(s', o, id) ==> a == SetName(o) || (a == Recheck(o) && id !in s.presets)
      ensures MidRename(s, o, id) && MidRename(s', o, id) ==> s'.ops[o].name == s.ops[o].name
      ensures MidRename(s, o, id) ==> Settled(s, id)
    {
      StepMovesRename(s, a, o, id);
      if MidRename(s, o, id) { RenamesAreSettled(s, o, id); }
    }
  }

  lemma RenameStepKeepsLabel(s: State, a: Action, id: Id)
    requires Inv(s) && Enabled(s, a) && NoOverlap(s, a) && LabelOk(s, id) && (a.Reserve? || a.SetName?)
    ensures LabelOk(Apply(s, a), id)
  {
    var s', o := Apply(s, a), a.op;
    StepMovesRenames(s, a, id);
    assert PresetOk(s, id) && OpOk(s, id) && OpOk(s, o);
    if a.SetName? {
      StepMovesOwner(s, a, id);
      if s.ops[o].id == id && id in s.presets { assert MidRename(s, o, id); SetNameAgrees(s, o); }
    } else if s.ops[o].id != id || Taken(s, s.ops[o].name, id) {
      StepMovesOwner(s, a, id);
    } else {
      assert MidRename(s', o, id);
    }
  }

  lemma StepKeepsLabel(s: State, a: Action, id: Id)
    requires Inv(s) && Enabled(s, a) && NoOverlap(s, a) && LabelOk(s, id)
    ensures LabelOk(Apply(s, a), id)
  {
    if a.Reserve? || a.SetName? {
      RenameStepKeepsLabel(s, a, id);
    } else if a.Add? && id == s.next {
      AddStartsAgreeing(s, a.initial);
    } else {
      OtherStepKeepsLabel(s, a, id);
    }
  }

  lemma OtherStepKeepsLabel(s: State, a: Action, id: Id)
    requires Inv(s) && Enabled(s, a) && LabelOk(s, id) && !a.Reserve? && !a.SetName? && (a.Add? ==> id != s.next)
    ensures LabelOk(Apply(s, a), id)
  {
    StepMovesRenames(s, a, id);
    assert PresetOk(s, id) && OpOk(s, id);
    if a.Insert? || a.RollBack? || a.CleanIndex? { assert OpOk(s, a.op); }
    if (a.RollBack? || a.CleanIndex?) && s.ops[a.op].id == id {
      GoneStepKeepsLabel(s, a, id);
    } else {
      StepMovesOwner(s, a, id);
    }
  }

  lemma GoneStepKeepsLabel(s: State, a: Action, id: Id)
    requires Inv(s) && Enabled(s, a) && LabelOk(s, id) && (a.RollBack? || a.CleanIndex?) && s.ops[a.op].id == id
    ensures LabelOk(Apply(s, a), id)
  {
    StepMovesRenames(s, a, id);
    assert OpOk(s, a.op);
  }

  lemma AddStartsAgreeing(s: State, name: Option<string>)
    requires Inv(s)
    ensures LabelOk(Apply(s, Add(name)), s.next)
  {
    var s' := Apply(s, Add(name));
    assert PresetOk(s, s.next) && OpOk(s, s.next);
    forall o ensures !MidRename(s', o, s.next) { assert OpOk(s, o); }
    forall n ensures Owned(s', n, s.next) ==> name == Some(n) { assert NameOk(s, n); }
    forall n ensures IsAdding(s', s.next) && name == Some(n) ==> Owned(s', n, s.next) {}
  }

  lemma SetNameAgrees(s: State, o: nat)
    requires Inv(s) && Enabled(s, SetName(o)) && s.ops[o].id in s.presets && Owned(s, s.ops[o].name, s.ops[o].id)
    ensures Agrees(Apply(s, SetName(o)), s.ops[o].id)
  {
    var s' := Apply(s, SetName(o));
    forall n ensures Owned(s', n, s.ops[o].id) <==> n == s.ops[o].name { assert OwnerOk(s, n, s.ops[o].name); }
  }

  /** In general, overlapping or not, the last rename of a preset to finish leaves index and
      Preset.name in agreement exactly when the index still points its name at the preset. */
  lemma LastRenameAgreesIff(s: State, o: nat)
    requires Inv(s) && Enabled(s, SetName(o)) && s.ops[o].id in s.presets
    ensures Agrees(Apply(s, SetName(o)), s.ops[o].id) <==> Owned(s, s.ops[o].name, s.ops[o].id)
  {
    var s' := Apply(s, SetName(o));
    if Owned(s, s.ops[o].name, s.ops[o].id) { SetNameAgrees(s, o); }
    else { assert !Owned(s', s.ops[o].name, s.ops[o].id); }
  }

  lemma {:induction false} LabelsAlong(tr: seq<State>, acts: seq<Action>, k: nat, id: Id)
    requires Run(tr, acts) && k < |tr| && forall i | 0 <= i < k :: NoOverlap(tr[i], acts[i])
    ensures LabelOk(tr[k], id)
  {
    if k > 0 {
      LabelsAlong(tr, acts, k - 1, id);
      InvAlong(tr, acts, k - 1);
      assert StepAt(tr, acts, k - 1);
      StepKeepsLabel(tr[k - 1], acts[k - 1], id);
    }
  }

  /** If renames of one preset never overlap, then whenever nothing is in flight the index and
      Preset.name of every live preset say the same. */
  lemma IndexAgreesWithLabels(tr: seq<State>, acts: seq<Action>, k: nat, id: Id, n: string)
    requires Run(tr, acts) && k < |tr| && forall i | 0 <= i < k :: NoOverlap(tr[i], acts[i])
    requires tr[k].ops == map[] && id in tr[k].presets
    ensures id in tr[k].labels
    ensures Owned(tr[k], n, id) <==> tr[k].labels[id] == Some(n)
  {
    LabelsAlong(tr, acts, k, id);
    assert forall o :: !MidRename(tr[k], o, id);
  }

  // The reservation that succeeded last and the name that was set last, read off the actions.

  /** The name under which the action reserves an entry for the preset, if it does. */
  function ReservedBy(s: State, a: Action, id: Id): Option<Option<string>> {
    match a
    case Add(name) => if id == s.next && !(name.Some? && name.value in s.names) then Some(name) else None
    case Reserve(o) =>
      if ReservesFor(s, a, o, id) then Some(Some(s.ops[o].name)) else None
    case _ => None
  }

  /** The Preset.name that the action writes, if it does. */
  function SetBy(s: State, a: Action, id: Id): Option<Option<string>> {
    match a
    case Insert(o) => if o == id && IsAdding(s, o) then Some(s.ops[o].initial) else None
    case SetName(o) => if o in s.ops && s.ops[o].Setting? && s.ops[o].id == id then Some(Some(s.ops[o].name)) else None
    case _ => None
  }

  function LastReserved(tr: seq<State>, acts: seq<Action>, k: nat, id: Id): Option<string>
    requires |tr| == |acts| + 1 && k <= |acts|
  {
    if k == 0 then None
    else
      var now := ReservedBy(tr[k - 1], acts[k - 1], id);
      if now.Some? then now.value else LastReserved(tr, acts, k - 1, id)
  }

  function LastSet(tr: seq<State>, acts: seq<Action>, k: nat, id: Id): Option<string>
    requires |tr| == |acts| + 1 && k <= |acts|
  {
    if k == 0 then None
    else
      var now := SetBy(tr[k - 1], acts[k - 1], id);
      if now.Some? then now.value else LastSet(tr, acts, k - 1, id)
  }

  /** The index holds exactly this name for the preset, if any. */
  ghost predicate IndexHolds(s: State, id: Id, name: Option<string>) {
    forall n :: Owned(s, n, id) <==> name == Some(n)
  }

  predicate Exists(s: State, id: Id) { id in s.presets || IsAdding(s, id) }

  lemma StepMovesIndex(s: State, a: Action, id: Id, name: Option<string>)
    requires Inv(s) && Enabled(s, a) && Exists(Apply(s, a), id)
    requires Exists(s, id) ==> IndexHolds(s, id, name)
    ensures var now := ReservedBy(s, a, id); IndexHolds(Apply(s, a), id, if now.Some? then now.value else name)
  {
    var s' := Apply(s, a);
    assert PresetOk(s, id) && OpOk(s, id);
    match a
    case Add(initial) => if id == s.next { AddReserves(s, initial); } else { StepMovesOwner(s, a, id); }
    case Insert(o) => assert OpOk(s, o); StepMovesOwner(s, a, id);
    case Reserve(o) => assert OpOk(s, o); if ReservedBy(s, a, id).None? { StepMovesOwner(s, a, id); }
    case RollBack(o) => assert OpOk(s, o); StepMovesOwner(s, a, id);
    case CleanIndex(o) => assert OpOk(s, o); StepMovesOwner(s, a, id);
    case _ => StepMovesOwner(s, a, id);
  }

  lemma AddReserves(s: State, name: Option<string>)
    requires Inv(s) && IsAdding(Apply(s, Add(name)), s.next)
    ensures ReservedBy(s, Add(name), s.next) == Some(name)
    ensures IndexHolds(Apply(s, Add(name)), s.next, name)
  {
    var s' := Apply(s, Add(name));
    assert OpOk(s, s.next);
    forall n ensures Owned(s', n, s.next) <==> name == Some(n) { assert NameOk(s, n); }
  }

  lemma StepMovesLabel(s: State, a: Action, id: Id, name: Option<string>)
    requires Inv(s) && Enabled(s, a) && id in Apply(s, a).presets
    requires id in s.presets ==> id in s.labels && s.labels[id] == name
    ensures var now := SetBy(s, a, id); var s' := Apply(s, a);
      id in s'.labels && s'.labels[id] == if now.Some? then now.value else name
  {
    assert PresetOk(s, id);
    if a.Insert? { assert OpOk(s, a.op); }
  }

  lemma {:induction false} LastAlong(tr: seq<State>, acts: seq<Action>, k: nat, id: Id)
    requires Run(tr, acts) && k < |tr|
    ensures Exists(tr[k], id) ==> IndexHolds(tr[k], id, LastReserved(tr, acts, k, id))
    ensures id in tr[k].presets ==> id in tr[k].labels && tr[k].labels[id] == LastSet(tr, acts, k, id)
  {
    if k > 0 {
      LastAlong(tr, acts, k - 1, id);
      InvAlong(tr, acts, k - 1);
      assert StepAt(tr, acts, k - 1);
      if Exists(tr[k], id) { StepMovesIndex(tr[k - 1], acts[k - 1], id, LastReserved(tr, acts, k - 1, id)); }
      if id in tr[k].presets { StepMovesLabel(tr[k - 1], acts[k - 1], id, LastSet(tr, acts, k - 1, id)); }
    }
  }

  /** At every moment of every run, whatever overlaps: the index and Preset.name of a live
      preset agree exactly when the last reservation that succeeded for it and the last name
      that was set for it are the same. */
  lemma AgreesIffLastReservedIsLastSet(tr: seq<State>, acts: seq<Action>, k: nat, id: Id)
    requires Run(tr, acts) && k < |tr| && id in tr[k].presets
    ensures Agrees(tr[k], id) <==> LastReserved(tr, acts, k, id) == LastSet(tr, acts, k, id)
  {
    LastAlong(tr, acts, k, id);
    var held, written := LastReserved(tr, acts, k, id), LastSet(tr, acts, k, id);
    if held.Some? { assert Owned(tr[k], held.value, id); }
    if written.Some? && held.None? { assert !Owned(tr[k], written.value, id); }
  }

  /** The state after a list of actions, if each was enabled in its turn. */
  function Outcome(s: State, acts: seq<Action>): Option<State>
    decreases |acts|
  {
    if acts == [] then Some(s)
    else if !Enabled(s, acts[0]) then None
    else Outcome(Apply(s, acts[0]), acts[1..])
  }

  /** Two overlapping renames of one preset leave the index and Preset.name apart. */
  lemma OverlappingRenamesDisagree()
    ensures Outcome(INITIAL, [Add(None), Insert(1), Find(1, "x"), Find(1, "y"), Reserve(2), Reserve(3),
                              Recheck(2), Recheck(3), SetName(3), SetName(2)])
         == Some(State({1}, map["y" := 1], map[1 := Some("x")], map[], {1}, 4))
  {
    var s1 := Apply(Apply(INITIAL, Add(None)), Insert(1));
    var s2 := Apply(Apply(s1, Find(1, "x")), Find(1, "y"));
    var s3 := Apply(Apply(s2, Reserve(2)), Reserve(3));
    assert s3 == BothReserved();
    BothFinish();
    assert Outcome(s2, [Reserve(2), Reserve(3), Recheck(2), Recheck(3), SetName(3), SetName(2)])
        == Outcome(s3, [Recheck(2), Recheck(3), SetName(3), SetName(2)]);
    assert Outcome(s1, [Find(1, "x"), Find(1, "y"), Reserve(2), Reserve(3),
                        Recheck(2), Recheck(3), SetName(3), SetName(2)])
        == Outcome(s3, [Recheck(2), Recheck(3), SetName(3), SetName(2)]);
  }

  /** Two renames of one preset have reserved their names, one after the other. */
  function BothReserved(): State {
    State({1}, map["y" := 1], map[1 := None], map[2 := Reserved(1, "x"), 3 := Reserved(1, "y")], {1}, 4)
  }

  lemma BothFinish()
    ensures Outcome(BothReserved(), [Recheck(2), Recheck(3), SetName(3), SetName(2)])
         == Some(State({1}, map["y" := 1], map[1 := Some("x")], map[], {1}, 4))
  {
    var s4 := Apply(Apply(BothReserved(), Recheck(2)), Recheck(3));
    var s5 := Apply(Apply(s4, SetName(3)), SetName(2));
    assert s5 == State({1}, map["y" := 1], map[1 := Some("x")], map[], {1}, 4);
    assert Outcome(s4, [SetName(3), SetName(2)]) == Some(s5);
  }

  // ------------------------------------------------------------ the operations of the runtime

  datatype Error = PresetNameExists(name: string) | DuplicateId(id: Id) | PresetNotFound(id: Id)

  /** The tables of `ModularAgent` that hold presets and their names. Each method up to
      `CleanNames` is one critical section; the three after it are the public operations,
      here run without interference. */
  class Index {
    var presets: set<Id>
    var names: map<string, Id>
    var labels: map<Id, Option<string>>
    var ops: map<nat, Op>
    ghost var named: set<Id>
    var next: nat

    ghost function View(): State
      reads this
    {
      State(presets, names, labels, ops, named, next)
    }

    constructor ()
      ensures View() == INITIAL && Inv(View())
    {
      presets, names, labels, ops, named, next := {}, map[], map[], map[], {}, 1;
    }

    method ReserveNew(name: Option<string>) returns (r: Result<Id, Error>)
      requires Inv(View())
      modifies this
      ensures Inv(View()) && View() == Apply(old(View()), Add(name))
      ensures r == if name.Some? && name.value in old(names) then Err(PresetNameExists(name.value)) else Ok(old(next))
    {
      StepKeepsInv(View(), Add(name));
      var id := next;
      next := next + 1;
      if name.Some? {
        if name.value in names {
          return Err(PresetNameExists(name.value));
        }
        names := names[name.value := id];
        named := named + {id};
      }
      ops := ops[id := Adding(name)];
      return Ok(id);
    }

    method InsertPreset(id: Id) returns (inserted: bool)
      requires Inv(View()) && Enabled(View(), Insert(id))
      modifies this
      ensures Inv(View()) && View() == Apply(old(View()), Insert(id))
      ensures inserted && id in presets && names == old(names)
    {
      StepKeepsInv(View(), Insert(id));
      assert OpOk(View(), id);
      var name := ops[id].initial;
      ops := ops - {id};
      if id in presets {
        assert false;  // the duplicate-id roll-back is unreachable
      }
      presets := presets + {id};
      labels := labels[id := name];
      inserted := true;
    }

    method FindForRename(id: Id, name: string) returns (op: Option<nat>)
      requires Inv(View())
      modifies this
      ensures Inv(View()) && (op.Some? <==> id in old(presets))
      ensures View() == if op.None? then old(View()) else Apply(old(View()), Find(id, name))
      ensures op.Some? ==> op.value == old(next)
    {
      if id !in presets {
        return None;
      }
      StepKeepsInv(View(), Find(id, name));
      op := Some(next);
      ops := ops[next := Renaming(id, name)];
      next := next + 1;
    }

    method ReserveName(op: nat) returns (reserved: bool)
      requires Inv(View()) && Enabled(View(), Reserve(op))
      modifies this
      ensures Inv(View()) && View() == Apply(old(View()), Reserve(op))
      ensures reserved <==> !Taken(old(View()), old(ops[op].name), old(ops[op].id))
    {
      StepKeepsInv(View(), Reserve(op));
      var Renaming(id, name) := ops[op];
      if name in names && names[name] != id {
        ops := ops - {op};
        return false;
      }
      names := map n | n in names && names[n] != id :: names[n];
      names := names[name := id];
      named := named + {id};
      ops := ops[op := Reserved(id, name)];
      return true;
    }

    method RecheckLive(op: nat) returns (live: bool)
      requires Inv(View()) && Enabled(View(), Recheck(op))
      modifies this
      ensures Inv(View()) && View() == Apply(old(View()), Recheck(op))
      ensures live <==> old(ops[op].id) in presets
    {
      StepKeepsInv(View(), Recheck(op));
      var Reserved(id, name) := ops[op];
      live := id in presets;
      ops := ops[op := if live then Setting(id, name) else RollingBack(id, name)];
    }

    method RollBackName(op: nat)
      requires Inv(View()) && Enabled(View(), RollBack(op))
      modifies this
      ensures Inv(View()) && View() == Apply(old(View()), RollBack(op))
      ensures forall n | n in old(names) && old(names[n]) in presets :: n in names && names[n] == old(names[n])
    {
      StepKeepsInv(View(), RollBack(op));
      assert OpOk(View(), op);
      var RollingBack(id, name) := ops[op];
      ops := ops - {op};
      if name in names && names[name] == id {
        names := names - {name};
      }
    }

    method SetPresetName(op: nat)
      requires Inv(View()) && Enabled(View(), SetName(op))
      modifies this
      ensures Inv(View()) && View() == Apply(old(View()), SetName(op))
    {
      StepKeepsInv(View(), SetName(op));
      var Setting(id, name) := ops[op];
      labels := labels[id := Some(name)];
      ops := ops - {op};
    }

    method FindForRemoval(id: Id) returns (op: Option<nat>)
      requires Inv(View())
      modifies this
      ensures Inv(View()) && (op.Some? <==> id in old(presets))
      ensures View() == if op.None? then old(View()) else Apply(old(View()), BeginRemove(id))
      ensures op.Some? ==> op.value == old(next)
    {
      if id !in presets {
        return None;
      }
      StepKeepsInv(View(), BeginRemove(id));
      op := Some(next);
      ops := ops[next := Removing(id)];
      next := next + 1;
    }

    method DropFromPresets(op: nat)
      requires Inv(View()) && Enabled(View(), DropPreset(op))
      modifies this
      ensures Inv(View()) && View() == Apply(old(View()), DropPreset(op))
    {
      StepKeepsInv(View(), DropPreset(op));
      var id := ops[op].id;
      presets := presets - {id};
      ops := ops[op := Dropped(id)];
    }

    method CleanNames(op: nat)
      requires Inv(View()) && Enabled(View(), CleanIndex(op))
      modifies this
      ensures Inv(View()) && View() == Apply(old(View()), CleanIndex(op))
    {
      StepKeepsInv(View(), CleanIndex(op));
      var id := ops[op].id;
      names := map n | n in names && names[n] != id :: names[n];
      ops := ops - {op};
    }

    method AddPresetRaw(name: Option<string>) returns (r: Result<Id, Error>)
      requires Inv(View())
      modifies this
      ensures Inv(View())
      ensures r.Err? <==> name.Some? && name.value in old(names)
      ensures r.Err? ==> r.error == PresetNameExists(name.value)
      ensures ops == old(ops)
      ensures r.Err? ==> names == old(names) && presets == old(presets) && labels == old(labels)
      ensures r.Ok? ==>
        && r.value !in old(presets) && presets == old(presets) + {r.value}
        && names == (if name.None? then old(names) else old(names)[name.value := r.value])
        && labels == old(labels)[r.value := name]
    {
      assert PresetOk(View(), next) && OpOk(View(), next);
      r := ReserveNew(name);
      if r.Ok? {
        var inserted := InsertPreset(r.value);
      }
      assert ops == old(ops);
    }

    method RenamePreset(id: Id, name: string) returns (r: Result<(), Error>)
      requires Inv(View())
      modifies this
      ensures Inv(View()) && presets == old(presets) && ops == old(ops)
      ensures r == if id !in presets then Err(PresetNotFound(id))
                   else if name in old(names) && old(names)[name] != id then Err(PresetNameExists(name))
                   else Ok(())
      ensures r.Err? ==> names == old(names) && labels == old(labels)
      ensures r.Ok? ==>
        && labels == old(labels)[id := Some(name)]
        && Owned(View(), name, id)
        && (forall n | n != name :: n in names <==> n in old(names) && old(names[n]) != id)
        && (forall n | n in names && n != name :: names[n] == old(names[n]))
    {
      assert OpOk(View(), next);
      var op := FindForRename(id, name);
      if op.None? {
        return Err(PresetNotFound(id));
      }
      var reserved := ReserveName(op.value);
      if !reserved {
        assert ops == old(ops);
        return Err(PresetNameExists(name));
      }
      var live := RecheckLive(op.value);
      assert live;  // without interference no removal can have come in between
      SetPresetName(op.value);
      assert ops == old(ops);
      return Ok(());
    }

    method RemovePreset(id: Id) returns (r: Result<(), Error>)
      requires Inv(View())
      modifies this
      ensures Inv(View())
      ensures r == (if id in old(presets) then Ok(()) else Err(PresetNotFound(id))) && ops == old(ops)
      ensures r.Err? ==> View() == old(View())
      ensures r.Ok? ==>
        && presets == old(presets) - {id}
        && (forall n :: n in names <==> n in old(names) && old(names[n]) != id)
        && (forall n | n in names :: names[n] == old(names[n]))
    {
      assert OpOk(View(), next);
      var op := FindForRemoval(id);
      if op.None? {
        return Err(PresetNotFound(id));
      }
      DropFromPresets(op.value);
      CleanNames(op.value);
      assert ops == old(ops);
      return Ok(());
    }
  }
}
