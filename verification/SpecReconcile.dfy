/** Reconciling an old agent spec with its current definition.

    Configs are an insertion-ordered map. Old keys that the definition no longer has are kept
    under a `_` prefix, so that an agent can still migrate them while it is constructed; the
    constructor then drops every prefixed key. */
module SpecReconcile {
  import opened Options
  import opened Sequences

  /** An opaque config value. */
  type Value = string

  /** An ordered map: pairs with different keys. */
  type Configs = seq<(string, Value)>

  function Keys(c: Configs): seq<string> {
    seq(|c|, i requires 0 <= i < |c| => c[i].0)
  }

  predicate Unique(c: Configs) { Distinct(Keys(c)) }

  function Lookup(c: Configs, key: string): Option<Value> {
    if c == [] then None else if c[0].0 == key then Some(c[0].1) else Lookup(c[1..], key)
  }

  /** `set`: in place, or at the end for a new key. */
  function Put(c: Configs, key: string, value: Value): Configs {
    if c == [] then [(key, value)]
    else if c[0].0 == key then [(key, value)] + c[1..]
    else [c[0]] + Put(c[1..], key, value)
  }

  /** `remove`: the other keys keep their order. */
  function Drop(c: Configs, key: string): Configs {
    if c == [] then [] else if c[0].0 == key then c[1..] else [c[0]] + Drop(c[1..], key)
  }

  /** `retain` by key. */
  function Retained(c: Configs, keep: string -> bool): Configs {
    if c == [] then [] else (if keep(c[0].0) then [c[0]] else []) + Retained(c[1..], keep)
  }

  function Select(ks: seq<string>, keep: string -> bool): seq<string> {
    if ks == [] then [] else (if keep(ks[0]) then [ks[0]] else []) + Select(ks[1..], keep)
  }

  function NotIn(ks: seq<string>): string -> bool { k => k !in ks }

  // ---------------------------------------------------------------- ordered maps

  lemma KeysCons(c: Configs)
    requires c != []
    ensures Keys(c) == [c[0].0] + Keys(c[1..])
  {}

  lemma {:induction false} LookupInKeys(c: Configs, key: string)
    ensures Lookup(c, key).Some? <==> key in Keys(c)
  {
    if c != [] {
      KeysCons(c);
      LookupInKeys(c[1..], key);
    }
  }

  lemma {:induction false} LookupPut(c: Configs, key: string, value: Value, k: string)
    ensures Lookup(Put(c, key, value), k) == if k == key then Some(value) else Lookup(c, k)
  {
    if c != [] && c[0].0 != key { LookupPut(c[1..], key, value, k); }
  }

  lemma {:induction false} KeysPut(c: Configs, key: string, value: Value)
    ensures Keys(Put(c, key, value)) == if key in Keys(c) then Keys(c) else Keys(c) + [key]
  {
    if c != [] {
      KeysCons(c);
      if c[0].0 == key {
        assert Keys([(key, value)] + c[1..]) == [key] + Keys(c[1..]);
      } else {
        KeysPut(c[1..], key, value);
        KeysCons(Put(c, key, value));
      }
    }
  }

  /** A key of a pair further on. */
  lemma {:induction false} LookupAt(c: Configs, i: nat)
    requires i < |c| && Unique(c)
    ensures Lookup(c, c[i].0) == Some(c[i].1)
  {
    KeysCons(c);
    if i > 0 {
      assert Keys(c)[0] != Keys(c)[i];
      UniqueTail(c);
      LookupAt(c[1..], i - 1);
    }
  }

  lemma DistinctCons(k: string, ks: seq<string>)
    ensures Distinct([k] + ks) <==> k !in ks && Distinct(ks)
  {
    var all := [k] + ks;
    assert forall i | 0 <= i < |ks| :: all[i + 1] == ks[i];
    if Distinct(all) {
      forall i | 0 <= i < |ks| ensures ks[i] != k { assert all[0] != all[i + 1]; }
    }
  }

  lemma UniqueTail(c: Configs)
    requires Unique(c) && c != []
    ensures Unique(c[1..]) && c[0].0 !in Keys(c[1..])
  {
    KeysCons(c);
    DistinctCons(c[0].0, Keys(c[1..]));
  }

  lemma {:induction false} LookupDrop(c: Configs, key: string, k: string)
    requires Unique(c)
    ensures Lookup(Drop(c, key), k) == if k == key then None else Lookup(c, k)
  {
    if c != [] {
      UniqueTail(c);
      if c[0].0 == key {
        LookupInKeys(c[1..], key);
      } else {
        LookupDrop(c[1..], key, k);
      }
    }
  }

  lemma {:induction false} KeysDrop(c: Configs, key: string)
    requires Unique(c)
    ensures Keys(Drop(c, key)) == Select(Keys(c), NotIn([key]))
  {
    if c != [] {
      UniqueTail(c);
      KeysCons(c);
      if c[0].0 == key {
        SelectAll(Keys(c[1..]), NotIn([key]));
      } else {
        KeysDrop(c[1..], key);
        KeysCons(Drop(c, key));
      }
    }
  }

  lemma {:induction false} SelectAll(ks: seq<string>, keep: string -> bool)
    requires forall k | k in ks :: keep(k)
    ensures Select(ks, keep) == ks
  {
    if ks != [] {
      assert forall k | k in ks[1..] :: k in ks;
      SelectAll(ks[1..], keep);
    }
  }

  lemma {:induction false} SelectConcat(a: seq<string>, b: seq<string>, keep: string -> bool)
    ensures Select(a + b, keep) == Select(a, keep) + Select(b, keep)
  {
    if a == [] {
      assert a + b == b;
    } else {
      SelectConcat(a[1..], b, keep);
      SelectCons(a + b, a[0], a[1..] + b, keep);
      Associate(if keep(a[0]) then [a[0]] else [], Select(a[1..], keep), Select(b, keep));
    }
  }

  lemma SelectCons(ks: seq<string>, k: string, rest: seq<string>, keep: string -> bool)
    requires ks == [k] + rest
    ensures Select(ks, keep) == (if keep(k) then [k] else []) + Select(rest, keep)
  {
    assert ks[1..] == rest;
  }

  lemma {:induction false} InSelect(ks: seq<string>, keep: string -> bool, k: string)
    ensures k in Select(ks, keep) <==> k in ks && keep(k)
  {
    if ks != [] {
      InSelect(ks[1..], keep, k);
      assert ks == [ks[0]] + ks[1..];
    }
  }

  lemma {:induction false} SelectDistinct(ks: seq<string>, keep: string -> bool)
    requires Distinct(ks)
    ensures Distinct(Select(ks, keep))
  {
    if ks != [] {
      assert forall i | 0 <= i < |ks| - 1 :: ks[1..][i] == ks[i + 1];
      SelectDistinct(ks[1..], keep);
      InSelect(ks[1..], keep, ks[0]);
      DistinctCons(ks[0], Select(ks[1..], keep));
    }
  }

  lemma {:induction false} SelectSame(ks: seq<string>, p: string -> bool, q: string -> bool)
    requires forall k | k in ks :: p(k) == q(k)
    ensures Select(ks, p) == Select(ks, q)
  {
    if ks != [] {
      assert forall k | k in ks[1..] :: k in ks;
      SelectSame(ks[1..], p, q);
    }
  }

  lemma {:induction false} SelectTwice(ks: seq<string>, p: string -> bool, q: string -> bool, both: string -> bool)
    requires forall k :: both(k) <==> p(k) && q(k)
    ensures Select(Select(ks, p), q) == Select(ks, both)
  {
    if ks != [] {
      SelectTwice(ks[1..], p, q, both);
      if p(ks[0]) {
        SelectCons(Select(ks, p), ks[0], Select(ks[1..], p), q);
      } else {
        assert Select(ks, p) == Select(ks[1..], p);
      }
    }
  }

  /** An ordered map is its keys in order and what each maps to. */
  lemma SameConfigs(a: Configs, b: Configs)
    requires Unique(a) && Keys(a) == Keys(b)
    requires forall k | k in Keys(a) :: Lookup(a, k) == Lookup(b, k)
    ensures a == b
  {
    assert |a| == |Keys(a)| == |Keys(b)| == |b|;
    forall i | 0 <= i < |a| ensures a[i] == b[i] {
      assert a[i].0 == Keys(a)[i] == Keys(b)[i] == b[i].0;
      assert a[i].0 in Keys(a);
      LookupAt(a, i);
      LookupAt(b, i);
    }
  }

  // ---------------------------------------------------------------- reconciling configs

  predicate Prefixed(k: string) { k != "" && k[0] == '_' }

  predicate IsStale(k: string, defined: seq<string>) { !Prefixed(k) && k !in defined }

  function Stale(defined: seq<string>): string -> bool { k => IsStale(k, defined) }

  function Hide(k: string): string { "_" + k }

  function Hidden(ks: seq<string>): seq<string> { seq(|ks|, i requires 0 <= i < |ks| => Hide(ks[i])) }

  function RenameOne(c: Configs, key: string): Configs {
    match Lookup(c, key)
    case Some(value) => Put(Drop(c, key), Hide(key), value)
    case None => c
  }

  function RenameAll(c: Configs, stale: seq<string>): Configs
    decreases |stale|
  {
    if stale == [] then c else RenameAll(RenameOne(c, stale[0]), stale[1..])
  }

  /** Adds the pairs whose keys are missing, in their order. */
  function AddMissing(c: Configs, items: Configs): Configs
    decreases |items|
  {
    if items == [] then c
    else AddMissing(if items[0].0 in Keys(c) then c else Put(c, items[0].0, items[0].1), items[1..])
  }

  /** Adds the values of the defined keys, in the definition's order. */
  function PickDefined(picked: Configs, c: Configs, def: Configs): Configs
    decreases |def|
  {
    if def == [] then picked
    else
      var k := def[0].0;
      PickDefined(if Lookup(c, k).Some? then Put(picked, k, Lookup(c, k).value) else picked, c, def[1..])
  }

  function Reorder(c: Configs, def: Configs): Configs { AddMissing(PickDefined([], c, def), c) }

  function DefinedKeys(def: Option<Configs>): seq<string> { if def.Some? then Keys(def.value) else [] }

  /** `reconcile_spec` on the configs. */
  function Reconcile(def: Option<Configs>, c: Option<Configs>): Option<Configs> {
    match c
    case None => if def.Some? then Some(Reorder(def.value, def.value)) else None
    case Some(configs) =>
      var renamed := RenameAll(configs, Select(Keys(configs), Stale(DefinedKeys(def))));
      if def.Some? then Some(Reorder(AddMissing(renamed, def.value), def.value)) else Some(renamed)
  }

  /** Stale keys: not prefixed, present, each once. */
  predicate Renameable(c: Configs, stale: seq<string>) {
    && Unique(c) && Distinct(stale)
    && forall k | k in stale :: k in Keys(c) && !Prefixed(k)
  }

  lemma HideIsPrefixed(k: string)
    ensures Prefixed(Hide(k)) && Hide(k)[1..] == k && Hide(k) != k
  {
    assert |Hide(k)| == |k| + 1;
  }

  lemma UnhideHides(x: string)
    requires Prefixed(x)
    ensures Hide(x[1..]) == x
  {}

  function RenamedValue(c: Configs, k: string, x: string): Option<Value> {
    if x == Hide(k) then Lookup(c, k) else if x == k then None else Lookup(c, x)
  }

  lemma RenamedOne(c: Configs, k: string)
    requires Unique(c) && k in Keys(c) && !Prefixed(k)
    ensures Unique(RenameOne(c, k))
    ensures Keys(RenameOne(c, k)) == Select(Keys(c), NotIn([k])) + (if Hide(k) in Keys(c) then [] else [Hide(k)])
    ensures forall x :: Lookup(RenameOne(c, k), x) == RenamedValue(c, k, x)
  {
    LookupInKeys(c, k);
    HideIsPrefixed(k);
    var rest, value := Drop(c, k), Lookup(c, k).value;
    KeysDrop(c, k);
    SelectDistinct(Keys(c), NotIn([k]));
    KeysPut(rest, Hide(k), value);
    InSelect(Keys(c), NotIn([k]), Hide(k));
    if Hide(k) !in Keys(rest) { DistinctSnoc(Keys(rest), Hide(k)); }
    forall x ensures Lookup(RenameOne(c, k), x) == RenamedValue(c, k, x) {
      LookupPut(rest, Hide(k), value, x);
      LookupDrop(c, k, x);
    }
  }

  lemma DistinctSnoc(ks: seq<string>, k: string)
    requires Distinct(ks) && k !in ks
    ensures Distinct(ks + [k])
  {}

  lemma RenameableTail(c: Configs, stale: seq<string>)
    requires Renameable(c, stale) && stale != []
    ensures Renameable(RenameOne(c, stale[0]), stale[1..])
    ensures stale[0] !in stale[1..]
  {
    var k := stale[0];
    RenamedOne(c, k);
    assert stale == [k] + stale[1..];
    DistinctCons(k, stale[1..]);
    forall x | x in stale[1..] ensures x in Keys(RenameOne(c, k)) && !Prefixed(x) {
      assert x in stale;
      InSelect(Keys(c), NotIn([k]), x);
    }
  }

  /** Where a value goes: out of every stale key, into its prefixed name. */
  lemma {:induction false} RenamedLookup(c: Configs, stale: seq<string>, x: string)
    requires Renameable(c, stale)
    ensures Unique(RenameAll(c, stale))
    ensures Lookup(RenameAll(c, stale), x) ==
      if x in stale then None
      else if Prefixed(x) && x[1..] in stale then Lookup(c, x[1..])
      else Lookup(c, x)
    decreases |stale|
  {
    if stale != [] {
      var k := stale[0];
      RenamedOne(c, k);
      RenameableTail(c, stale);
      RenamedLookup(RenameOne(c, k), stale[1..], x);
      assert stale == [k] + stale[1..];
      RenamedStep(c, stale, k, stale[1..], x);
    }
  }

  lemma RenamedStep(c: Configs, stale: seq<string>, k: string, rest: seq<string>, x: string)
    requires Renameable(c, stale) && stale == [k] + rest && k !in rest
    requires forall y :: Lookup(RenameOne(c, k), y) == RenamedValue(c, k, y)
    ensures (if x in rest then None
             else if Prefixed(x) && x[1..] in rest then Lookup(RenameOne(c, k), x[1..])
             else Lookup(RenameOne(c, k), x)) ==
      if x in stale then None
      else if Prefixed(x) && x[1..] in stale then Lookup(c, x[1..])
      else Lookup(c, x)
  {
    HideIsPrefixed(k);
    if Prefixed(x) {
      UnhideHides(x);
      if x[1..] in stale { HideIsPrefixed(x[1..]); }
    }
  }

  /** The keys after renaming: the others in place, new names at the end. */
  lemma {:induction false} RenamedKeys(c: Configs, stale: seq<string>)
    requires Renameable(c, stale)
    ensures Keys(RenameAll(c, stale)) == Select(Keys(c), NotIn(stale)) + Select(Hidden(stale), NotIn(Keys(c)))
    decreases |stale|
  {
    var ks := Keys(c);
    if stale == [] {
      SelectAll(ks, NotIn([]));
      assert Hidden(stale) == [];
      assert ks + [] == ks;
    } else {
      var k, rest := stale[0], stale[1..];
      var added := if Hide(k) in ks then [] else [Hide(k)];
      var ks1 := Keys(RenameOne(c, k));
      RenamedOne(c, k);
      RenameableTail(c, stale);
      RenamedKeys(RenameOne(c, k), rest);
      RenamedKeysStep(ks, k, rest, ks1, added, Keys(RenameAll(RenameOne(c, k), rest)), stale);
    }
  }

  lemma {:induction false} RenamedKeysStep(ks: seq<string>, k: string, rest: seq<string>, ks1: seq<string>,
                                           added: seq<string>,
                                           result: seq<string>, stale: seq<string>)
    requires k !in rest && forall x | x in rest :: !Prefixed(x)
    requires !Prefixed(k) && added == if Hide(k) in ks then [] else [Hide(k)]
    requires ks1 == Select(ks, NotIn([k])) + added && stale == [k] + rest
    requires result == Select(ks1, NotIn(rest)) + Select(Hidden(rest), NotIn(ks1))
    ensures result == Select(ks, NotIn(stale)) + Select(Hidden(stale), NotIn(ks))
  {
    KeptKeys(ks, k, rest, added);
    NewKeys(ks, k, rest, ks1, added);
    Associate(Select(ks, NotIn(stale)), added, Select(Hidden(rest), NotIn(ks1)));
  }

  lemma KeptKeys(ks: seq<string>, k: string, rest: seq<string>, added: seq<string>)
    requires forall x | x in rest :: !Prefixed(x)
    requires added == [] || added == [Hide(k)]
    ensures Select(Select(ks, NotIn([k])) + added, NotIn(rest)) == Select(ks, NotIn([k] + rest)) + added
  {
    SelectConcat(Select(ks, NotIn([k])), added, NotIn(rest));
    SelectTwice(ks, NotIn([k]), NotIn(rest), NotIn([k] + rest));
    HideIsPrefixed(k);
    SelectAll(added, NotIn(rest));
  }

  lemma NewKeys(ks: seq<string>, k: string, rest: seq<string>, ks1: seq<string>, added: seq<string>)
    requires k !in rest && forall x | x in rest :: !Prefixed(x)
    requires !Prefixed(k) && added == if Hide(k) in ks then [] else [Hide(k)]
    requires ks1 == Select(ks, NotIn([k])) + added
    ensures Select(Hidden([k] + rest), NotIn(ks)) == added + Select(Hidden(rest), NotIn(ks1))
  {
    assert Hidden([k] + rest) == [Hide(k)] + Hidden(rest);
    SelectCons(Hidden([k] + rest), Hide(k), Hidden(rest), NotIn(ks));
    forall x | x in Hidden(rest) ensures NotIn(ks)(x) == NotIn(ks1)(x) {
      var i :| 0 <= i < |rest| && x == Hide(rest[i]);
      HideIsPrefixed(rest[i]);
      HideIsPrefixed(k);
      InSelect(ks, NotIn([k]), x);
    }
    SelectSame(Hidden(rest), NotIn(ks), NotIn(ks1));
  }

  lemma {:induction false} AddedLookup(c: Configs, items: Configs, x: string)
    ensures Lookup(AddMissing(c, items), x) == if Lookup(c, x).Some? then Lookup(c, x) else Lookup(items, x)
    decreases |items|
  {
    if items != [] {
      var (k, v) := items[0];
      LookupInKeys(c, k);
      LookupPut(c, k, v, x);
      AddedLookup(if k in Keys(c) then c else Put(c, k, v), items[1..], x);
    }
  }

  lemma {:induction false} AddedKeys(c: Configs, items: Configs)
    requires Unique(c) && Unique(items)
    ensures Keys(AddMissing(c, items)) == Keys(c) + Select(Keys(items), NotIn(Keys(c)))
    ensures Unique(AddMissing(c, items))
    decreases |items|
  {
    if items == [] {
      assert Keys(items) == [];
      assert Keys(c) + [] == Keys(c);
    } else {
      var (k, v) := items[0];
      var rest := Keys(items[1..]);
      KeysCons(items);
      UniqueTail(items);
      SelectCons(Keys(items), k, rest, NotIn(Keys(c)));
      if k in Keys(c) {
        AddedKeys(c, items[1..]);
      } else {
        KeysPut(c, k, v);
        DistinctSnoc(Keys(c), k);
        AddedKeys(Put(c, k, v), items[1..]);
        SelectSame(rest, NotIn(Keys(c)), NotIn(Keys(c) + [k]));
        Associate(Keys(c), [k], Select(rest, NotIn(Keys(c))));
      }
    }
  }

  lemma {:induction false} Picked(picked: Configs, c: Configs, def: Configs)
    requires Unique(picked) && Unique(def)
    requires forall k | k in Keys(def) :: k !in Keys(picked) && k in Keys(c)
    ensures Keys(PickDefined(picked, c, def)) == Keys(picked) + Keys(def)
    ensures Unique(PickDefined(picked, c, def))
    ensures forall x ::
      Lookup(PickDefined(picked, c, def), x) == if x in Keys(def) then Lookup(c, x) else Lookup(picked, x)
    decreases |def|
  {
    if def == [] {
      assert Keys(def) == [] && Keys(picked) + [] == Keys(picked);
    } else {
      var k := def[0].0;
      KeysCons(def);
      UniqueTail(def);
      LookupInKeys(c, k);
      var v := Lookup(c, k).value;
      KeysPut(picked, k, v);
      DistinctSnoc(Keys(picked), k);
      Picked(Put(picked, k, v), c, def[1..]);
      Associate(Keys(picked), [k], Keys(def[1..]));
      forall x
        ensures Lookup(PickDefined(picked, c, def), x) == if x in Keys(def) then Lookup(c, x) else Lookup(picked, x)
      {
        LookupPut(picked, k, v, x);
      }
    }
  }

  /** Reordering changes no value: the defined keys come first, in the definition's order. */
  lemma Reordered(c: Configs, def: Configs)
    requires Unique(c) && Unique(def) && forall k | k in Keys(def) :: k in Keys(c)
    ensures Keys(Reorder(c, def)) == Keys(def) + Select(Keys(c), NotIn(Keys(def)))
    ensures Unique(Reorder(c, def))
    ensures forall x :: Lookup(Reorder(c, def), x) == Lookup(c, x)
  {
    var picked := PickDefined([], c, def);
    assert Keys([]) == [];
    Picked([], c, def);
    assert [] + Keys(def) == Keys(def);
    AddedKeys(picked, c);
    forall x ensures Lookup(Reorder(c, def), x) == Lookup(c, x) {
      AddedLookup(picked, c, x);
      LookupInKeys(c, x);
    }
  }

  // ---------------------------------------------------------------- what reconciling does

  function Defined(def: Option<Configs>): Configs { if def.Some? then def.value else [] }

  function Given(c: Option<Configs>): Configs { if c.Some? then c.value else [] }

  /** The value of a key after reconciling. */
  function ValueAfter(def: Configs, c: Configs, k: string): Option<Value> {
    if Prefixed(k) && k[1..] in Keys(c) && IsStale(k[1..], Keys(def)) then Lookup(c, k[1..])
    else if IsStale(k, Keys(def)) then None
    else if Lookup(c, k).Some? then Lookup(c, k)
    else Lookup(def, k)
  }

  predicate PrefixedOnly(k: string, defined: seq<string>) { Prefixed(k) && k !in defined }

  function Migrated(defined: seq<string>): string -> bool { k => PrefixedOnly(k, defined) }

  function NewName(defined: seq<string>, present: seq<string>): string -> bool {
    k => k !in present && k !in defined
  }

  /** The keys after reconciling: the definition's, then the prefixed ones that were there, then
      the stale ones under their new names; each group in its own order. */
  function KeysAfter(def: Configs, c: Configs): seq<string> {
    Keys(def)
    + Select(Keys(c), Migrated(Keys(def)))
    + Select(Hidden(Select(Keys(c), Stale(Keys(def)))), NewName(Keys(def), Keys(c)))
  }

  lemma StaleRenameable(c: Configs, defined: seq<string>)
    requires Unique(c)
    ensures Renameable(c, Select(Keys(c), Stale(defined)))
    ensures forall k :: k in Select(Keys(c), Stale(defined)) <==> k in Keys(c) && IsStale(k, defined)
  {
    SelectDistinct(Keys(c), Stale(defined));
    forall k ensures k in Select(Keys(c), Stale(defined)) <==> k in Keys(c) && IsStale(k, defined) {
      InSelect(Keys(c), Stale(defined), k);
    }
  }

  /** The keys outside the definition after renaming. */
  lemma RenamedOutside(c: Configs, defined: seq<string>)
    requires Unique(c)
    ensures var stale := Select(Keys(c), Stale(defined));
      Select(Keys(RenameAll(c, stale)), NotIn(defined)) ==
      Select(Keys(c), Migrated(defined)) + Select(Hidden(stale), NewName(defined, Keys(c)))
  {
    var ks := Keys(c);
    var stale := Select(ks, Stale(defined));
    StaleRenameable(c, defined);
    RenamedKeys(c, stale);
    SelectConcat(Select(ks, NotIn(stale)), Select(Hidden(stale), NotIn(ks)), NotIn(defined));
    SelectTwice(Hidden(stale), NotIn(ks), NotIn(defined), NewName(defined, ks));
    var kept := (k: string) => k !in stale && k !in defined;
    SelectTwice(ks, NotIn(stale), NotIn(defined), kept);
    SelectSame(ks, kept, Migrated(defined));
  }

  lemma {:induction false} SelectNone(ks: seq<string>, keep: string -> bool)
    requires forall k | k in ks :: !keep(k)
    ensures Select(ks, keep) == []
  {
    if ks != [] {
      assert forall k | k in ks[1..] :: k in ks;
      SelectNone(ks[1..], keep);
    }
  }

  lemma {:induction false} RenamedValues(c: Configs, defined: seq<string>, k: string)
    requires Unique(c)
    ensures var o := RenameAll(c, Select(Keys(c), Stale(defined)));
      && Unique(o)
      && Lookup(o, k) ==
        (if Prefixed(k) && k[1..] in Keys(c) && IsStale(k[1..], defined) then Lookup(c, k[1..])
         else if IsStale(k, defined) then None
         else Lookup(c, k))
  {
    StaleRenameable(c, defined);
    RenamedLookup(c, Select(Keys(c), Stale(defined)), k);
    LookupInKeys(c, k);
  }

  /** Filling in the defaults. */
  lemma {:induction false} Filled(renamed: Configs, def: Configs, k: string)
    requires Unique(renamed) && Unique(def)
    ensures var filled := AddMissing(renamed, def);
      && Unique(filled)
      && (forall x | x in Keys(def) :: x in Keys(filled))
      && Select(Keys(filled), NotIn(Keys(def))) == Select(Keys(renamed), NotIn(Keys(def))) + []
      && Lookup(filled, k) == if Lookup(renamed, k).Some? then Lookup(renamed, k) else Lookup(def, k)
  {
    var defined := Keys(def);
    var missing := Select(defined, NotIn(Keys(renamed)));
    AddedKeys(renamed, def);
    AddedLookup(renamed, def, k);
    forall x ensures x in missing <==> x in defined && x !in Keys(renamed) {
      InSelect(defined, NotIn(Keys(renamed)), x);
    }
    SelectConcat(Keys(renamed), missing, NotIn(defined));
    SelectNone(missing, NotIn(defined));
  }

  /** Renaming, filling and reordering, for a definition with configs. */
  lemma {:induction false} FilledAndReordered(def: Configs, c: Configs, k: string)
    requires Unique(def) && Unique(c)
    ensures var o := Reconcile(Some(def), Some(c)).value;
      Unique(o) && Keys(o) == KeysAfter(def, c) && Lookup(o, k) == ValueAfter(def, c, k)
  {
    var defined := Keys(def);
    var renamed := RenameAll(c, Select(Keys(c), Stale(defined)));
    RenamedValues(c, defined, k);
    RenamedOutside(c, defined);
    Filled(renamed, def, k);
    Reordered(AddMissing(renamed, def), def);
    LookupInKeys(def, k);
    LookupInKeys(c, k);
    if Prefixed(k) { LookupInKeys(c, k[1..]); }
    Regrouped(defined, Select(Keys(renamed), NotIn(defined)),
              Select(Keys(c), Migrated(defined)),
              Select(Hidden(Select(Keys(c), Stale(defined))), NewName(defined, Keys(c))));
  }

  lemma Regrouped(a: seq<string>, bc: seq<string>, b: seq<string>, c: seq<string>)
    requires bc == b + c
    ensures a + (bc + []) == a + b + c
  {}

  /** A definition without configs: every unprefixed key is renamed. */
  lemma OnlyRenamed(c: Configs, k: string)
    requires Unique(c)
    ensures var o := Reconcile(None, Some(c)).value;
      Unique(o) && Keys(o) == KeysAfter([], c) && Lookup(o, k) == ValueAfter([], c, k)
  {
    assert Keys([]) == [];
    RenamedValues(c, [], k);
    RenamedOutside(c, []);
    var renamed := RenameAll(c, Select(Keys(c), Stale([])));
    SelectAll(Keys(renamed), NotIn([]));
    Regrouped([], Keys(renamed), Select(Keys(c), Migrated([])),
              Select(Hidden(Select(Keys(c), Stale([]))), NewName([], Keys(c))));
    assert [] + (Keys(renamed) + []) == Keys(renamed);
  }

  /** A spec without configs gets the definition's. */
  lemma OnlyDefaults(def: Configs, k: string)
    requires Unique(def)
    ensures var o := Reconcile(Some(def), None).value;
      Unique(o) && Keys(o) == KeysAfter(def, []) && Lookup(o, k) == ValueAfter(def, [], k)
  {
    assert Keys([]) == [];
    Reordered(def, def);
    SelectNone(Keys(def), NotIn(Keys(def)));
    LookupInKeys(def, k);
    assert KeysAfter(def, []) == Keys(def);
  }

  /** What reconciling makes of the configs, exactly: the order of the keys, and the value of
      every key. */
  lemma {:induction false} ReconcileExactly(def: Option<Configs>, c: Option<Configs>, k: string)
    requires Unique(Defined(def)) && Unique(Given(c))
    ensures Reconcile(def, c).None? <==> def.None? && c.None?
    ensures Reconcile(def, c).Some? ==>
      var o := Reconcile(def, c).value;
      && Unique(o)
      && Keys(o) == KeysAfter(Defined(def), Given(c))
      && Lookup(o, k) == ValueAfter(Defined(def), Given(c), k)
  {
    if def.Some? && c.Some? {
      FilledAndReordered(def.value, c.value, k);
    } else if c.Some? {
      OnlyRenamed(c.value, k);
    } else if def.Some? {
      OnlyDefaults(def.value, k);
    }
  }

  /** Every key that is left belongs to the definition or is prefixed, and every key of the
      definition is there. */
  lemma KeysLeft(def: Configs, c: Configs, k: string)
    ensures k in Keys(def) ==> k in KeysAfter(def, c)
    ensures k in KeysAfter(def, c) ==> k in Keys(def) || PrefixedOnly(k, Keys(def))
  {
    var stale := Select(Keys(c), Stale(Keys(def)));
    InSelect(Keys(c), Migrated(Keys(def)), k);
    InSelect(Hidden(stale), NewName(Keys(def), Keys(c)), k);
    if k in Hidden(stale) {
      var i :| 0 <= i < |stale| && Hide(stale[i]) == k;
      HideIsPrefixed(stale[i]);
    }
  }

  /** A value the user had set survives under its own name, or under the prefixed name if the
      definition has no such key any more; it is lost only where a stale key takes its place. */
  lemma {:induction false} NothingElseIsLost(def: Option<Configs>, c: Configs, k: string)
    requires Unique(Defined(def)) && Unique(c) && k in Keys(c)
    ensures var o := Reconcile(def, Some(c)).value;
      var defined := Keys(Defined(def));
      if !("_" <= k) && k !in defined then
        Lookup(o, "_" + k) == Lookup(c, k) && Lookup(o, k) == None
      else if "_" <= k && k[1..] in Keys(c) && !("_" <= k[1..]) && k[1..] !in defined then
        Lookup(o, k) == Lookup(c, k[1..])
      else
        Lookup(o, k) == Lookup(c, k)
  {
    HideIsPrefixed(k);
    LookupInKeys(c, k);
    assert Hide(k) == "_" + k;
    ReconcileExactly(def, Some(c), k);
    ReconcileExactly(def, Some(c), Hide(k));
  }

  /** A key of the definition that the user had not set gets its default, unless a stale key is
      renamed to it. */
  lemma {:induction false} DefaultsFillGaps(def: Configs, c: Configs, k: string)
    requires Unique(def) && Unique(c) && k in Keys(def) && k !in Keys(c)
    ensures var o := Reconcile(Some(def), Some(c)).value;
      Lookup(o, k) ==
        if "_" <= k && k[1..] in Keys(c) && !("_" <= k[1..]) && k[1..] !in Keys(def) then Lookup(c, k[1..])
        else Lookup(def, k)
  {
    HideIsPrefixed(k);
    LookupInKeys(c, k);
    LookupInKeys(def, k);
    ReconcileExactly(Some(def), Some(c), k);
  }

  /** Nothing is stale after reconciling, and nothing is missing. */
  lemma {:induction false} Settled(def: Configs, o: Configs, k: string)
    requires Unique(def) && Unique(o)
    requires forall x :: x in Keys(def) ==> x in Keys(o)
    requires forall x :: x in Keys(o) ==> x in Keys(def) || PrefixedOnly(x, Keys(def))
    ensures ValueAfter(def, o, k) == Lookup(o, k)
    ensures KeysAfter(def, o) == Keys(def) + Select(Keys(o), Migrated(Keys(def)))
  {
    LookupInKeys(o, k);
    LookupInKeys(def, k);
    SelectNone(Keys(o), Stale(Keys(def)));
    assert Hidden([]) == [];
  }

  /** Reconciling again changes nothing, in the values or in the order. */
  lemma ReconcileIsIdempotent(def: Option<Configs>, c: Option<Configs>)
    requires Unique(Defined(def)) && Unique(Given(c))
    ensures Reconcile(def, Reconcile(def, c)) == Reconcile(def, c)
  {
    ReconcileExactly(def, c, "");
    if Reconcile(def, c).Some? {
      var d, o := Defined(def), Reconcile(def, c).value;
      forall x ensures x in Keys(d) ==> x in Keys(o)
        ensures x in Keys(o) ==> x in Keys(d) || PrefixedOnly(x, Keys(d))
      {
        KeysLeft(d, Given(c), x);
      }
      ReconcileExactly(def, Some(o), "");
      var again := Reconcile(def, Some(o)).value;
      forall k ensures Lookup(again, k) == Lookup(o, k) {
        ReconcileExactly(def, Some(o), k);
        Settled(d, o, k);
      }
      Settled(d, o, "");
      KeysSettle(d, Given(c));
      SameConfigs(again, o);
    }
  }

  /** The order of the keys is settled after one pass. */
  lemma KeysSettle(d: Configs, c: Configs)
    ensures Keys(d) + Select(KeysAfter(d, c), Migrated(Keys(d))) == KeysAfter(d, c)
  {
    var defined := Keys(d);
    var stale := Select(Keys(c), Stale(defined));
    var a, b := Select(Keys(c), Migrated(defined)), Select(Hidden(stale), NewName(defined, Keys(c)));
    SelectConcat(defined + a, b, Migrated(defined));
    SelectConcat(defined, a, Migrated(defined));
    SelectNone(defined, Migrated(defined));
    forall x | x in a ensures Migrated(defined)(x) { InSelect(Keys(c), Migrated(defined), x); }
    SelectAll(a, Migrated(defined));
    forall x | x in b ensures Migrated(defined)(x) {
      InSelect(Hidden(stale), NewName(defined, Keys(c)), x);
      var i :| 0 <= i < |stale| && Hide(stale[i]) == x;
      HideIsPrefixed(stale[i]);
    }
    SelectAll(b, Migrated(defined));
    assert [] + a == a;
    Associate(defined, a, b);
  }

  // ---------------------------------------------------------------- constructing the agent

  function Unprefixed(): string -> bool { k => !Prefixed(k) }

  lemma {:induction false} RetainedKeys(c: Configs, keep: string -> bool)
    ensures Keys(Retained(c, keep)) == Select(Keys(c), keep)
  {
    if c != [] {
      KeysCons(c);
      RetainedKeys(c[1..], keep);
      if keep(c[0].0) { KeysCons(Retained(c, keep)); }
    }
  }

  lemma {:induction false} RetainedLookup(c: Configs, keep: string -> bool, k: string)
    ensures keep(k) ==> Lookup(Retained(c, keep), k) == Lookup(c, k)
  {
    if c != [] {
      RetainedLookup(c[1..], keep, k);
      if keep(c[0].0) {
        assert Retained(c, keep)[1..] == Retained(c[1..], keep);
      } else {
        assert Retained(c, keep) == Retained(c[1..], keep);
      }
    }
  }

  /** The constructed agent has exactly the definition's keys, in the definition's order, if and
      only if no key of the definition is prefixed; it has the unprefixed ones in any case, each
      with the value the user had set, or the default. */
  lemma {:induction false} ConstructedHasDefinedKeysIff(def: Option<Configs>, c: Option<Configs>, k: string)
    requires Unique(Defined(def)) && Unique(Given(c)) && (def.Some? || c.Some?)
    ensures var built := Retained(Reconcile(def, c).value, Unprefixed());
      && Keys(built) == Select(Keys(Defined(def)), Unprefixed())
      && (Keys(built) == Keys(Defined(def)) <==> forall x | x in Keys(Defined(def)) :: !Prefixed(x))
      && (k in Keys(built) ==>
            Lookup(built, k) == UserValueOr(Given(c), Defined(def), k))
  {
    var d, g := Defined(def), Given(c);
    var o := Reconcile(def, c).value;
    ReconcileExactly(def, c, k);
    RetainedKeys(o, Unprefixed());
    RetainedLookup(o, Unprefixed(), k);
    OutsideIsPrefixed(d, g);
    LookupInKeys(g, k);
    InSelect(Keys(d), Unprefixed(), k);
    if forall x | x in Keys(d) :: !Prefixed(x) {
      SelectAll(Keys(d), Unprefixed());
    } else {
      var x :| x in Keys(d) && Prefixed(x);
      InSelect(Keys(d), Unprefixed(), x);
    }
  }

  lemma OutsideIsPrefixed(d: Configs, c: Configs)
    ensures Select(KeysAfter(d, c), Unprefixed()) == Select(Keys(d), Unprefixed())
  {
    var defined := Keys(d);
    var stale := Select(Keys(c), Stale(defined));
    var a, b := Select(Keys(c), Migrated(defined)), Select(Hidden(stale), NewName(defined, Keys(c)));
    SelectConcat(defined + a, b, Unprefixed());
    SelectConcat(defined, a, Unprefixed());
    forall x | x in a ensures Prefixed(x) { InSelect(Keys(c), Migrated(defined), x); }
    SelectNone(a, Unprefixed());
    forall x | x in b ensures Prefixed(x) {
      InSelect(Hidden(stale), NewName(defined, Keys(c)), x);
      var i :| 0 <= i < |stale| && Hide(stale[i]) == x;
      HideIsPrefixed(stale[i]);
    }
    SelectNone(b, Unprefixed());
  }

  // ---------------------------------------------------------------- in place

  lemma {:induction false} PutAt(c: Configs, key: string, value: Value, i: nat)
    requires i < |c| && c[i].0 == key && forall j | 0 <= j < i :: c[j].0 != key
    ensures Put(c, key, value) == c[i := (key, value)]
  {
    if i > 0 {
      PutAt(c[1..], key, value, i - 1);
      assert c[i := (key, value)] == [c[0]] + c[1..][i - 1 := (key, value)];
    }
  }

  lemma {:induction false} PutNew(c: Configs, key: string, value: Value)
    requires forall j | 0 <= j < |c| :: c[j].0 != key
    ensures Put(c, key, value) == c + [(key, value)]
  {
    if c != [] {
      PutNew(c[1..], key, value);
      assert c + [(key, value)] == [c[0]] + (c[1..] + [(key, value)]);
    }
  }

  lemma {:induction false} DropAt(c: Configs, key: string, i: nat)
    requires i < |c| && c[i].0 == key && forall j | 0 <= j < i :: c[j].0 != key
    ensures Drop(c, key) == c[..i] + c[i + 1..] && Lookup(c, key) == Some(c[i].1)
  {
    if i > 0 {
      DropAt(c[1..], key, i - 1);
      assert c[..i] + c[i + 1..] == [c[0]] + (c[1..][..i - 1] + c[1..][i..]);
    }
  }

  lemma {:induction false} DropAbsent(c: Configs, key: string)
    requires forall j | 0 <= j < |c| :: c[j].0 != key
    ensures Drop(c, key) == c && Lookup(c, key) == None
  {
    if c != [] { DropAbsent(c[1..], key); }
  }

  lemma {:induction false} DropUnknown(c: Configs, key: string)
    requires Lookup(c, key) == None
    ensures Drop(c, key) == c
  {
    if c != [] { DropUnknown(c[1..], key); }
  }

  /** `AgentConfigs`: the ordered map as an object. */
  class AgentConfigs {
    var items: Configs

    constructor (items: Configs)
      ensures this.items == items
    {
      this.items := items;
    }

    method IndexOf(key: string) returns (i: nat)
      ensures i <= |items| && (forall j | 0 <= j < i :: items[j].0 != key) && (i < |items| ==> items[i].0 == key)
    {
      i := 0;
      while i < |items| && items[i].0 != key
        invariant i <= |items|
        invariant forall j | 0 <= j < i :: items[j].0 != key
      {
        i := i + 1;
      }
    }

    method Set(key: string, value: Value)
      modifies this
      ensures items == Put(old(items), key, value)
    {
      var i := IndexOf(key);
      if i < |items| {
        PutAt(items, key, value, i);
        items := items[i := (key, value)];
      } else {
        PutNew(items, key, value);
        items := items + [(key, value)];
      }
    }

    method Remove(key: string) returns (removed: Option<Value>)
      modifies this
      ensures items == Drop(old(items), key) && removed == Lookup(old(items), key)
    {
      var i := IndexOf(key);
      if i == |items| {
        DropAbsent(items, key);
        return None;
      }
      DropAt(items, key, i);
      removed := Some(items[i].1);
      items := items[..i] + items[i + 1..];
    }

    method Retain(keep: string -> bool)
      modifies this
      ensures items == Retained(old(items), keep)
    {
      var i, kept := 0, [];
      assert items[0..] == items;
      while i < |items|
        invariant 0 <= i <= |items| && items == old(items)
        invariant Retained(items, keep) == kept + Retained(items[i..], keep)
      {
        assert items[i..][1..] == items[i + 1..];
        if keep(items[i].0) { kept := kept + [items[i]]; }
        i := i + 1;
      }
      items := kept;
    }
  }

  /** The ports and configs that a definition fixes; `configs` maps each key to its default. */
  datatype Definition = Definition(inputs: Option<seq<string>>, outputs: Option<seq<string>>, configs: Option<Configs>)

  class AgentSpec {
    var inputs: Option<seq<string>>
    var outputs: Option<seq<string>>
    var configSpecs: Option<Configs>
    var configs: AgentConfigs?

    constructor (inputs: Option<seq<string>>, outputs: Option<seq<string>>, configSpecs: Option<Configs>,
                 configs: AgentConfigs?)
      ensures this.inputs == inputs && this.outputs == outputs && this.configSpecs == configSpecs
      ensures this.configs == configs
    {
      this.inputs, this.outputs, this.configSpecs, this.configs := inputs, outputs, configSpecs, configs;
    }

    ghost function ConfigValues(): Option<Configs>
      reads this, configs
    {
      if configs == null then None else Some(configs.items)
    }
  }

  method StaleKeys(c: Configs, defined: seq<string>) returns (stale: seq<string>)
    ensures stale == Select(Keys(c), Stale(defined))
  {
    stale := [];
    var i := 0;
    ghost var all := Keys(c);
    assert all[0..] == all;
    while i < |c|
      invariant 0 <= i <= |c|
      invariant Select(all, Stale(defined)) == stale + Select(all[i..], Stale(defined))
    {
      assert all[i..][1..] == all[i + 1..] && all[i] == c[i].0;
      if IsStale(c[i].0, defined) { stale := stale + [c[i].0]; }
      i := i + 1;
    }
    assert all[i..] == [] && stale + [] == stale;
  }

  method RenameStaleKeys(c: AgentConfigs, defined: seq<string>)
    modifies c
    ensures c.items == RenameAll(old(c.items), Select(Keys(old(c.items)), Stale(defined)))
  {
    var stale := StaleKeys(c.items, defined);
    var i := 0;
    assert stale[0..] == stale;
    while i < |stale|
      invariant 0 <= i <= |stale|
      invariant RenameAll(c.items, stale[i..]) == RenameAll(old(c.items), stale)
    {
      assert stale[i..][1..] == stale[i + 1..];
      if Lookup(c.items, stale[i]).None? { DropUnknown(c.items, stale[i]); }
      var value := c.Remove(stale[i]);
      if value.Some? { c.Set(Hide(stale[i]), value.value); }
      i := i + 1;
    }
    assert stale[i..] == [];
  }

  method FillMissing(c: AgentConfigs, items: Configs)
    modifies c
    ensures c.items == AddMissing(old(c.items), items)
  {
    ghost var filled := AddMissing(c.items, items);
    var rest := items;
    while rest != []
      invariant AddMissing(c.items, rest) == filled
      decreases |rest|
    {
      var (key, value) := rest[0];
      var at := c.IndexOf(key);
      assert at < |c.items| ==> Keys(c.items)[at] == key;
      if at == |c.items| { c.Set(key, value); }
      rest := rest[1..];
    }
  }

  method ReorderConfigs(c: AgentConfigs, def: Configs)
    modifies c
    ensures c.items == Reorder(old(c.items), def)
  {
    var reordered := new AgentConfigs([]);
    var i := 0;
    assert def[0..] == def;
    while i < |def|
      invariant 0 <= i <= |def|
      invariant c.items == old(c.items)
      invariant PickDefined(reordered.items, c.items, def[i..]) == PickDefined([], c.items, def)
    {
      assert def[i..][1..] == def[i + 1..];
      var value := Lookup(c.items, def[i].0);
      if value.Some? { reordered.Set(def[i].0, value.value); }
      i := i + 1;
    }
    assert def[i..] == [];
    FillMissing(reordered, c.items);
    c.items := reordered.items;
  }

  /** `reconcile_spec`. */
  method ReconcileSpec(def: Definition, spec: AgentSpec)
    modifies spec, spec.configs
    ensures spec.inputs == if def.inputs.Some? then def.inputs else old(spec.inputs)
    ensures spec.outputs == if def.outputs.Some? then def.outputs else old(spec.outputs)
    ensures spec.configSpecs == def.configs
    ensures spec.configs == old(spec.configs) || fresh(spec.configs)
    ensures spec.ConfigValues() == Reconcile(def.configs, old(spec.ConfigValues()))
  {
    if def.inputs.Some? { spec.inputs := def.inputs; }
    if def.outputs.Some? { spec.outputs := def.outputs; }
    spec.configSpecs := def.configs;
    var c := spec.configs;
    if c != null {
      RenameStaleKeys(c, DefinedKeys(def.configs));
      if def.configs.Some? { FillMissing(c, def.configs.value); }
    } else if def.configs.Some? {
      c := new AgentConfigs(def.configs.value);
      spec.configs := c;
    }
    if c != null && def.configs.Some? { ReorderConfigs(c, def.configs.value); }
  }

  /** `AgentData::new`, on the spec of a definition that was just reconciled: the agent has the
      definition's unprefixed keys in order, with the user's values or the defaults. */
  method ConstructAgent(def: Definition, spec: AgentSpec)
    requires Unique(Defined(def.configs)) && Unique(Given(spec.ConfigValues()))
    modifies spec, spec.configs
    ensures spec.inputs == if def.inputs.Some? then def.inputs else old(spec.inputs)
    ensures spec.outputs == if def.outputs.Some? then def.outputs else old(spec.outputs)
    ensures spec.configSpecs == def.configs
    ensures spec.configs == null <==> def.configs.None? && old(spec.configs) == null
    ensures spec.configs != null ==>
      && Keys(spec.configs.items) == Select(Keys(Defined(def.configs)), Unprefixed())
      && forall k | k in Keys(spec.configs.items) ::
          var given := Given(old(spec.ConfigValues()));
          && !("_" <= k)
          && Lookup(spec.configs.items, k) ==
            if k in Keys(given) then Lookup(given, k) else Lookup(Defined(def.configs), k)
  {
    ghost var given := spec.ConfigValues();
    ReconcileSpec(def, spec);
    ReconcileExactly(def.configs, given, "");
    if spec.configs != null {
      spec.configs.Retain(Unprefixed());
      forall k | k in Keys(spec.configs.items)
        ensures Lookup(spec.configs.items, k) == UserValueOr(Given(given), Defined(def.configs), k) && !Prefixed(k)
      {
        ConstructedHasDefinedKeysIff(def.configs, given, k);
        InSelect(Keys(Defined(def.configs)), Unprefixed(), k);
      }
      ConstructedHasDefinedKeysIff(def.configs, given, "");
    }
  }

  function UserValueOr(c: Configs, def: Configs, k: string): Option<Value> {
    if k in Keys(c) then Lookup(c, k) else Lookup(def, k)
  }
}
