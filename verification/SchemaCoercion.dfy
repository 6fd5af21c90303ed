/** Schema-directed repair of tool-call arguments.

    `Valid` is the reference: the draft 2020-12 meaning of `type`, `required`,
    `properties`, `items`, `anyOf` and `oneOf`, with every other keyword left to an arbitrary
    predicate of the environment. `Coerce` is the rewrite `coerce_by_schema` performs in place. */
module SchemaCoercion {
  import opened Options
  import Decimal

  datatype Number = Int(i: int) | Float(f: real)

  datatype Json =
    | Null
    | Bool(b: bool)
    | Num(n: Number)
    | Str(s: string)
    | Arr(items: seq<Json>)
    | Obj(fields: map<string, Json>)

  /** What the model takes as given: the finite number a text denotes as f64 (if any), and
      how the keywords outside the modelled ones are compiled and judged. */
  datatype Env = Env(
    parseF64: string -> Option<real>,
    othersCompile: Json -> bool,
    othersHold: (Json, Json) -> bool)

  // ---------------------------------------------------------------- the validator

  const TYPE_NAMES := {"null", "boolean", "object", "array", "number", "string", "integer"}

  /** Validation, section 6.1.1: integral numbers count as integers. */
  predicate HasType(v: Json, name: string) {
    match v
    case Null => name == "null"
    case Bool(_) => name == "boolean"
    case Num(Int(_)) => name == "number" || name == "integer"
    case Num(Float(f)) => name == "number" || (name == "integer" && f == f.Floor as real)
    case Str(_) => name == "string"
    case Arr(_) => name == "array"
    case Obj(_) => name == "object"
  }

  predicate TypeHolds(t: Json, v: Json) {
    match t
    case Str(name) => HasType(v, name)
    case Arr(names) => exists i | 0 <= i < |names| :: names[i].Str? && HasType(v, names[i].s)
    case _ => false
  }

  predicate TypeCompiles(t: Json) {
    match t
    case Str(name) => name in TYPE_NAMES
    case Arr(names) => names != [] && forall i | 0 <= i < |names| :: names[i].Str? && names[i].s in TYPE_NAMES
    case _ => false
  }

  predicate IsStringList(j: Json) { j.Arr? && forall i | 0 <= i < |j.items| :: j.items[i].Str? }

  /** The schema compiles on its own. */
  predicate Compiles(env: Env, schema: Json) {
    match schema
    case Bool(_) => true
    case Obj(kw) =>
      && env.othersCompile(schema)
      && ("type" in kw ==> TypeCompiles(kw["type"]))
      && ("required" in kw ==> IsStringList(kw["required"]))
      && ("properties" in kw ==>
            && kw["properties"].Obj?
            && forall k | k in kw["properties"].fields :: Compiles(env, kw["properties"].fields[k]))
      && ("items" in kw ==> Compiles(env, kw["items"]))
      && ("anyOf" in kw ==>
            && kw["anyOf"].Arr? && kw["anyOf"].items != []
            && forall i | 0 <= i < |kw["anyOf"].items| :: Compiles(env, kw["anyOf"].items[i]))
      && ("oneOf" in kw ==>
            && kw["oneOf"].Arr? && kw["oneOf"].items != []
            && forall i | 0 <= i < |kw["oneOf"].items| :: Compiles(env, kw["oneOf"].items[i]))
    case _ => false
  }

  /** The value validates against the schema. */
  predicate Valid(env: Env, schema: Json, v: Json) {
    match schema
    case Bool(b) => b
    case Obj(kw) =>
      && env.othersHold(schema, v)
      && ("type" in kw ==> TypeHolds(kw["type"], v))
      && ("required" in kw && kw["required"].Arr? && v.Obj? ==>
            forall i | 0 <= i < |kw["required"].items| && kw["required"].items[i].Str? ::
              kw["required"].items[i].s in v.fields)
      && ("properties" in kw && kw["properties"].Obj? && v.Obj? ==>
            forall k | k in kw["properties"].fields && k in v.fields ::
              Valid(env, kw["properties"].fields[k], v.fields[k]))
      && ("items" in kw && v.Arr? ==>
            forall i | 0 <= i < |v.items| :: Valid(env, kw["items"], v.items[i]))
      && ("anyOf" in kw && kw["anyOf"].Arr? ==>
            exists i | 0 <= i < |kw["anyOf"].items| :: Valid(env, kw["anyOf"].items[i], v))
      && ("oneOf" in kw && kw["oneOf"].Arr? ==>
            exists i | 0 <= i < |kw["oneOf"].items| ::
              && Valid(env, kw["oneOf"].items[i], v)
              && forall j | 0 <= j < |kw["oneOf"].items| && j != i :: !Valid(env, kw["oneOf"].items[j], v))
    case _ => false
  }

  /** schema_accepts: a schema that does not compile accepts nothing. */
  predicate Accepts(env: Env, schema: Json, v: Json) {
    Compiles(env, schema) && Valid(env, schema, v)
  }

  // ---------------------------------------------------------------- the coercion

  const MIN_I64 := -0x8000_0000_0000_0000
  const MAX_I64 := 0x7fff_ffff_ffff_ffff

  /** `s.parse::<i64>()`: an optional sign, at least one digit, and nothing else. */
  function ParseI64(s: string): Option<int> {
    var negative := s != [] && s[0] == '-';
    var digits := if s != [] && (s[0] == '-' || s[0] == '+') then s[1..] else s;
    if digits == [] || !Decimal.AllDigits(digits) then None
    else
      var n: int := if negative then -(Decimal.Value(digits) as int) else Decimal.Value(digits);
      if MIN_I64 <= n <= MAX_I64 then Some(n) else None
  }

  function CoerceLeaf(env: Env, v: Json, typeName: string): Json {
    if !v.Str? then v
    else if typeName == "integer" then (match ParseI64(v.s) case Some(i) => Num(Int(i)) case None => v)
    else if typeName == "number" then (match env.parseF64(v.s) case Some(f) => Num(Float(f)) case None => v)
    else if typeName == "boolean" then (if v.s == "true" then Bool(true) else if v.s == "false" then Bool(false) else v)
    else v
  }

  /** The variants of the first of `anyOf` and `oneOf` that is an array. */
  function Variants(kw: map<string, Json>): Option<seq<Json>> {
    if "anyOf" in kw && kw["anyOf"].Arr? then Some(kw["anyOf"].items)
    else if "oneOf" in kw && kw["oneOf"].Arr? then Some(kw["oneOf"].items)
    else None
  }

  /** coerce_by_schema, as the composition of its four stages. */
  function Coerce(env: Env, v: Json, schema: Json): Json
    decreases schema, 1
  {
    if !schema.Obj? then v
    else
      var typed := CoerceType(env, CoerceVariants(env, v, schema), schema);
      CoerceItems(env, CoerceProperties(env, typed, schema), schema)
  }

  /** A value some variant accepts is kept; otherwise the first repair that its variant accepts. */
  function CoerceVariants(env: Env, v: Json, schema: Json): Json
    requires schema.Obj?
    decreases schema, 0
  {
    match Variants(schema.fields)
    case Some(variants) =>
      if exists i | 0 <= i < |variants| :: Accepts(env, variants[i], v) then v else FirstRepair(env, v, variants)
    case None => v
  }

  function CoerceType(env: Env, v: Json, schema: Json): Json
    requires schema.Obj?
  {
    if "type" in schema.fields && schema.fields["type"].Str? then CoerceLeaf(env, v, schema.fields["type"].s) else v
  }

  predicate HasProperties(schema: Json) {
    schema.Obj? && "properties" in schema.fields && schema.fields["properties"].Obj?
  }

  function CoerceProperties(env: Env, v: Json, schema: Json): Json
    requires schema.Obj?
    decreases schema, 0
  {
    if !HasProperties(schema) || !v.Obj? then v else
    var props := schema.fields["properties"].fields;
    Obj(map k | k in v.fields :: if k in props then Coerce(env, v.fields[k], props[k]) else v.fields[k])
  }

  function CoerceItems(env: Env, v: Json, schema: Json): Json
    requires schema.Obj?
    decreases schema, 0
  {
    if "items" !in schema.fields || !v.Arr? then v else
    Arr(seq(|v.items|, i requires 0 <= i < |v.items| => Coerce(env, v.items[i], schema.fields["items"])))
  }

  /** The first variant's repair that its variant accepts. */
  function FirstRepair(env: Env, v: Json, variants: seq<Json>): Json
    decreases variants, 0
  {
    if variants == [] then v else
    var candidate := Coerce(env, v, variants[0]);
    if Accepts(env, variants[0], candidate) then candidate else FirstRepair(env, v, variants[1..])
  }

  // ---------------------------------------------------------------- valid values are kept

  /** An argument that already validates reaches the tool unchanged. */
  lemma {:induction false} ValidValueUnchanged(env: Env, v: Json, schema: Json)
    requires Compiles(env, schema) && Valid(env, schema, v)
    ensures Coerce(env, v, schema) == v
    decreases schema, 1
  {
    if schema.Obj? {
      SomeVariantAccepts(env, v, schema);
      ValidPropertiesUnchanged(env, v, schema);
      ValidItemsUnchanged(env, v, schema);
    }
  }

  lemma SomeVariantAccepts(env: Env, v: Json, schema: Json)
    requires schema.Obj? && Compiles(env, schema) && Valid(env, schema, v)
    ensures CoerceVariants(env, v, schema) == v
  {
    var kw := schema.fields;
    if "anyOf" in kw {
      var i :| 0 <= i < |kw["anyOf"].items| && Valid(env, kw["anyOf"].items[i], v);
      assert Accepts(env, kw["anyOf"].items[i], v);
    } else if "oneOf" in kw {
      var i :| 0 <= i < |kw["oneOf"].items| && Valid(env, kw["oneOf"].items[i], v);
      assert Accepts(env, kw["oneOf"].items[i], v);
    }
  }

  lemma {:induction false} ValidPropertiesUnchanged(env: Env, v: Json, schema: Json)
    requires schema.Obj? && Compiles(env, schema) && Valid(env, schema, v)
    ensures CoerceProperties(env, v, schema) == v
    decreases schema, 0
  {
    if HasProperties(schema) && v.Obj? {
      var props := schema.fields["properties"].fields;
      forall k | k in v.fields && k in props ensures Coerce(env, v.fields[k], props[k]) == v.fields[k] {
        ValidValueUnchanged(env, v.fields[k], props[k]);
      }
      assert CoerceProperties(env, v, schema).fields == v.fields;
    }
  }

  lemma {:induction false} ValidItemsUnchanged(env: Env, v: Json, schema: Json)
    requires schema.Obj? && Compiles(env, schema) && Valid(env, schema, v)
    ensures CoerceItems(env, v, schema) == v
    decreases schema, 0
  {
    if "items" in schema.fields && v.Arr? {
      forall i | 0 <= i < |v.items| ensures Coerce(env, v.items[i], schema.fields["items"]) == v.items[i] {
        ValidValueUnchanged(env, v.items[i], schema.fields["items"]);
      }
      assert CoerceItems(env, v, schema).items == v.items;
    }
  }

  // ---------------------------------------------------------------- what may change

  /** The primitives a string may be replaced by: what it parses to, losslessly. */
  predicate Reads(env: Env, s: string, w: Json) {
    || (ParseI64(s).Some? && w == Num(Int(ParseI64(s).value)))
    || (env.parseF64(s).Some? && w == Num(Float(env.parseF64(s).value)))
    || (s == "true" && w == Bool(true))
    || (s == "false" && w == Bool(false))
  }

  /** w is v with some string leaves replaced by the primitives they read as. */
  predicate Repairs(env: Env, v: Json, w: Json)
    decreases v
  {
    match v
    case Str(s) => w == v || Reads(env, s, w)
    case Arr(items) =>
      w.Arr? && |w.items| == |items| && forall i | 0 <= i < |items| :: Repairs(env, items[i], w.items[i])
    case Obj(fields) =>
      w.Obj? && w.fields.Keys == fields.Keys && forall k | k in fields :: Repairs(env, fields[k], w.fields[k])
    case _ => w == v
  }

  lemma {:induction false} RepairsReflexive(env: Env, v: Json)
    ensures Repairs(env, v, v)
    decreases v
  {
    match v
    case Arr(items) => forall i | 0 <= i < |items| { RepairsReflexive(env, items[i]); }
    case Obj(fields) => forall k | k in fields { RepairsReflexive(env, fields[k]); }
    case _ =>
  }

  lemma {:induction false} RepairsTransitive(env: Env, u: Json, v: Json, w: Json)
    requires Repairs(env, u, v) && Repairs(env, v, w)
    ensures Repairs(env, u, w)
    decreases u
  {
    match u
    case Arr(items) => forall i | 0 <= i < |items| { RepairsTransitive(env, items[i], v.items[i], w.items[i]); }
    case Obj(fields) => forall k | k in fields { RepairsTransitive(env, fields[k], v.fields[k], w.fields[k]); }
    case _ =>
  }

  /** On any value and any schema whatsoever, coercion only replaces string leaves by the
      integer, number or boolean they read as: keys, lengths and other leaves stay. */
  lemma {:induction false} CoercionOnlyRepairs(env: Env, v: Json, schema: Json)
    ensures Repairs(env, v, Coerce(env, v, schema))
    decreases schema, 1
  {
    RepairsReflexive(env, v);
    if schema.Obj? {
      var v1 := CoerceVariants(env, v, schema);
      var v2 := CoerceType(env, v1, schema);
      var v3 := CoerceProperties(env, v2, schema);
      if Variants(schema.fields).Some? { FirstRepairOnlyRepairs(env, v, Variants(schema.fields).value); }
      RepairsReflexive(env, v1);
      RepairsTransitive(env, v, v1, v2);
      PropertiesOnlyRepair(env, v2, schema);
      RepairsTransitive(env, v, v2, v3);
      ItemsOnlyRepair(env, v3, schema);
      RepairsTransitive(env, v, v3, CoerceItems(env, v3, schema));
    }
  }

  lemma {:induction false} PropertiesOnlyRepair(env: Env, v: Json, schema: Json)
    requires schema.Obj?
    ensures Repairs(env, v, CoerceProperties(env, v, schema))
    decreases schema, 0
  {
    RepairsReflexive(env, v);
    if HasProperties(schema) && v.Obj? {
      forall k | k in v.fields && k in schema.fields["properties"].fields {
        CoercionOnlyRepairs(env, v.fields[k], schema.fields["properties"].fields[k]);
      }
    }
  }

  lemma {:induction false} ItemsOnlyRepair(env: Env, v: Json, schema: Json)
    requires schema.Obj?
    ensures Repairs(env, v, CoerceItems(env, v, schema))
    decreases schema, 0
  {
    RepairsReflexive(env, v);
    if "items" in schema.fields && v.Arr? {
      forall i | 0 <= i < |v.items| {
        CoercionOnlyRepairs(env, v.items[i], schema.fields["items"]);
      }
    }
  }

  lemma {:induction false} FirstRepairOnlyRepairs(env: Env, v: Json, variants: seq<Json>)
    ensures Repairs(env, v, FirstRepair(env, v, variants))
    decreases variants, 0
  {
    if variants == [] {
      RepairsReflexive(env, v);
    } else {
      CoercionOnlyRepairs(env, v, variants[0]);
      FirstRepairOnlyRepairs(env, v, variants[1..]);
    }
  }

  // ---------------------------------------------------------------- losslessness

  /** An integer sent as its own decimal text is restored exactly, over the whole i64 range,
      and out-of-range integers are left for validation to report. */
  lemma {:induction false} IntegerTextIsRestored(n: int)
    ensures ParseI64(IntegerText(n)) == if MIN_I64 <= n <= MAX_I64 then Some(n) else None
  {
    var m: nat := if n < 0 then -n else n;
    var digits := Decimal.ToString(m);
    Decimal.ValueOfToString(m);
    assert IntegerText(n) == if n < 0 then "-" + digits else digits;
    if n < 0 {
      assert IntegerText(n)[1..] == digits;
    } else {
      assert Decimal.IsDigit(digits[0]);
    }
  }

  function IntegerText(n: int): string {
    if n < 0 then "-" + Decimal.ToString(-n) else Decimal.ToString(n)
  }

  function Zeros(pad: nat): string { if pad == 0 then "" else Zeros(pad - 1) + "0" }

  lemma {:induction false} PaddedValue(pad: nat, s: string)
    requires Decimal.AllDigits(s)
    ensures Decimal.AllDigits(Zeros(pad) + s) && Decimal.Value(Zeros(pad) + s) == Decimal.Value(s)
    decreases pad, |s|
  {
    if s != [] {
      PaddedValue(pad, s[..|s| - 1]);
      assert (Zeros(pad) + s)[..|Zeros(pad) + s| - 1] == Zeros(pad) + s[..|s| - 1];
    } else if pad > 0 {
      PaddedValue(pad - 1, []);
      assert Zeros(pad) + [] == Zeros(pad) && Zeros(pad - 1) + [] == Zeros(pad - 1);
      assert Zeros(pad)[..|Zeros(pad)| - 1] == Zeros(pad - 1);
    } else {
      assert Zeros(pad) + [] == [];
    }
  }

  lemma DigitsRead(digits: string)
    requires digits != "" && Decimal.AllDigits(digits)
    ensures var n := Decimal.Value(digits);
      && ParseI64(digits) == (if n <= MAX_I64 then Some(n) else None)
      && ParseI64("+" + digits) == (if n <= MAX_I64 then Some(n) else None)
  {
    assert ("+" + digits)[1..] == digits && Decimal.IsDigit(digits[0]);
  }

  lemma NegativeDigitsRead(digits: string)
    requires digits != "" && Decimal.AllDigits(digits)
    ensures var n: int := Decimal.Value(digits); ParseI64("-" + digits) == if -n >= MIN_I64 then Some(-n) else None
  {
    assert ("-" + digits)[1..] == digits;
  }

  /** A plus sign and leading zeros do not matter: "+5" and "05" read as 5, "-05" as -5. */
  lemma SignedTextReads(n: nat, pad: nat)
    ensures var digits := Zeros(pad) + Decimal.ToString(n);
      && ParseI64(digits) == ParseI64("+" + digits) == (if n <= 0x7fff_ffff_ffff_ffff then Some(n) else None)
      && ParseI64("-" + digits) == (if n <= 0x8000_0000_0000_0000 then Some(-(n as int)) else None)
  {
    var digits := Zeros(pad) + Decimal.ToString(n);
    PaddedValue(pad, Decimal.ToString(n));
    Decimal.ValueOfToString(n);
    DigitsRead(digits);
    NegativeDigitsRead(digits);
  }

  /** Without a digit there is no number. */
  lemma SignsAreNoNumbers()
    ensures ParseI64("") == ParseI64("+") == ParseI64("-") == None
  {}

  /** A text with anything but digits behind an optional sign, such as "42.5", is never
      coerced to an integer. */
  lemma FractionsAreNotTruncated(env: Env, s: string, k: nat)
    requires 1 <= k < |s| && !Decimal.IsDigit(s[k])
    ensures CoerceLeaf(env, Str(s), "integer") == Str(s)
  {
    assert s[1..][k - 1] == s[k];
  }

  // ---------------------------------------------------------------- restoring what was sent as text

  /** Alternatives: the first repair that its own variant accepts wins; if there is none the
      value is left as it is. */
  lemma {:induction false} FirstAcceptedRepairWins(env: Env, v: Json, variants: seq<Json>, i: nat)
    requires i <= |variants|
    requires FirstToRepair(env, variants, v, i)
    ensures FirstRepair(env, v, variants) == if i < |variants| then Coerce(env, v, variants[i]) else v
  {
    if i > 0 {
      assert !Accepts(env, variants[0], Coerce(env, v, variants[0]));
      assert forall j | 0 <= j < i - 1 :: variants[1..][j] == variants[j + 1];
      FirstAcceptedRepairWins(env, v, variants[1..], i - 1);
    }
  }

  predicate SomeAccepts(env: Env, variants: seq<Json>, v: Json) {
    exists i | 0 <= i < |variants| :: Compiles(env, variants[i]) && Valid(env, variants[i], v)
  }

  /** Variant i is the first whose repair of v it accepts itself; none if i is their number. */
  predicate FirstToRepair(env: Env, variants: seq<Json>, v: Json, i: nat) {
    && i <= |variants|
    && (forall j | 0 <= j < i :: !(Compiles(env, variants[j]) && Valid(env, variants[j], Coerce(env, v, variants[j]))))
    && (i < |variants| ==> Compiles(env, variants[i]) && Valid(env, variants[i], Coerce(env, v, variants[i])))
  }

  /** The alternatives have nothing to say about v: there are none, one of them accepts v as it
      is, or none accepts its own repair of it. */
  predicate Settled(env: Env, schema: Json, v: Json)
    requires schema.Obj?
  {
    match Variants(schema.fields)
    case Some(variants) => SomeAccepts(env, variants, v) || FirstToRepair(env, variants, v, |variants|)
    case None => true
  }

  /** The text stands for w where a schema asks for this type. */
  predicate TextFor(env: Env, typeName: string, s: string, w: Json) {
    || (typeName == "integer" && ParseI64(s).Some? && w == Num(Int(ParseI64(s).value)))
    || (typeName == "number" && env.parseF64(s).Some? && w == Num(Float(env.parseF64(s).value)))
    || (typeName == "boolean" && w.Bool? && s == if w.b then "true" else "false")
  }

  predicate LeafAsText(env: Env, schema: Json, w: Json, v: Json) {
    && schema.Obj? && v.Str? && "type" in schema.fields && schema.fields["type"].Str?
    && TextFor(env, schema.fields["type"].s, v.s, w)
  }

  /** v is w with any of its leaves written as text, at any depth, where the schema types them:
      from the alternatives comes u, and u is w with leaves written as text for the rest. */
  ghost predicate WrittenAsText(env: Env, schema: Json, w: Json, v: Json)
    decreases schema, 4
  {
    if schema.Obj? then exists u :: WrittenVia(env, schema, w, u, v) else v == w
  }

  ghost predicate WrittenVia(env: Env, schema: Json, w: Json, u: Json, v: Json)
    requires schema.Obj?
    decreases schema, 3
  {
    FromAlternatives(env, schema, u, v) && PlainText(env, schema, w, u)
  }

  /** The alternatives have nothing to say about v, which is u already; or the first one whose
      repair of v it accepts, where none accepts v as it is, accepts u too, and v is u with leaves
      written as text for it. */
  ghost predicate FromAlternatives(env: Env, schema: Json, u: Json, v: Json)
    requires schema.Obj?
    decreases schema, 2
  {
    (Settled(env, schema, v) && u == v) || Repaired(env, schema, u, v)
  }

  ghost predicate Repaired(env: Env, schema: Json, u: Json, v: Json)
    decreases schema, 1
  {
    exists i :: Repairing(env, schema, u, v, i)
  }

  ghost predicate Repairing(env: Env, schema: Json, u: Json, v: Json, i: nat)
    decreases schema, 0
  {
    && schema.Obj? && Variants(schema.fields).Some?
    && var variants := Variants(schema.fields).value;
      && !SomeAccepts(env, variants, v)
      && i < |variants| && FirstToRepair(env, variants, v, i)
      && Compiles(env, variants[i]) && Valid(env, variants[i], u) && WrittenAsText(env, variants[i], u, v)
  }

  /** u is w with leaves written as text where `type`, `properties` and `items` type them. */
  ghost predicate PlainText(env: Env, schema: Json, w: Json, u: Json)
    requires schema.Obj?
    decreases schema, 0
  {
    || u == w
    || LeafAsText(env, schema, w, u)
    || (HasProperties(schema) && w.Obj? && u.Obj? && u.fields.Keys == w.fields.Keys
        && forall k | k in w.fields ::
          var props := schema.fields["properties"].fields;
          if k in props then WrittenAsText(env, props[k], w.fields[k], u.fields[k]) else u.fields[k] == w.fields[k])
    || ("items" in schema.fields && w.Arr? && u.Arr? && |u.items| == |w.items|
        && forall i | 0 <= i < |w.items| :: WrittenAsText(env, schema.fields["items"], w.items[i], u.items[i]))
  }

  lemma SettledIsKept(env: Env, schema: Json, v: Json)
    requires schema.Obj? && Settled(env, schema, v)
    ensures CoerceVariants(env, v, schema) == v
  {
    if Variants(schema.fields).Some? {
      var variants := Variants(schema.fields).value;
      if FirstToRepair(env, variants, v, |variants|) { FirstAcceptedRepairWins(env, v, variants, |variants|); }
    }
  }

  lemma {:induction false} SomeFirstRepair(env: Env, variants: seq<Json>, v: Json, n: nat) returns (i: nat)
    requires n <= |variants| && !FirstToRepair(env, variants, v, |variants|)
    requires forall j | 0 <= j < n :: !Accepts(env, variants[j], Coerce(env, v, variants[j]))
    ensures i < |variants| && FirstToRepair(env, variants, v, i)
    decreases |variants| - n
  {
    if n < |variants| && !Accepts(env, variants[n], Coerce(env, v, variants[n])) {
      i := SomeFirstRepair(env, variants, v, n + 1);
    } else {
      i := n;
    }
  }

  /** For a valid value w: coercion turns v into w exactly if v is w with some of its leaves sent
      as text. */
  lemma {:induction false} TextIsRestoredIff(env: Env, schema: Json, w: Json, v: Json)
    requires Compiles(env, schema) && Valid(env, schema, w)
    ensures Coerce(env, v, schema) == w <==> WrittenAsText(env, schema, w, v)
    decreases schema, 2
  {
    if schema.Obj? {
      var u := CoerceVariants(env, v, schema);
      AlternativesIff(env, schema, u, v);
      LaterStagesIff(env, schema, w, u);
      if WrittenVia(env, schema, w, u, v) {
        assert WrittenAsText(env, schema, w, v);
      } else if WrittenAsText(env, schema, w, v) {
        var x := SomeVia(env, schema, w, v);
        AlternativesIff(env, schema, x, v);
      }
    }
  }

  lemma SomeVia(env: Env, schema: Json, w: Json, v: Json) returns (u: Json)
    requires schema.Obj? && WrittenAsText(env, schema, w, v)
    ensures WrittenVia(env, schema, w, u, v)
  {
    u :| WrittenVia(env, schema, w, u, v);
  }

  /** The stages behind the alternatives. */
  function LaterStages(env: Env, u: Json, schema: Json): Json
    requires schema.Obj?
  {
    CoerceItems(env, CoerceProperties(env, CoerceType(env, u, schema), schema), schema)
  }

  lemma {:induction false} AlternativesIff(env: Env, schema: Json, u: Json, v: Json)
    requires schema.Obj? && Compiles(env, schema)
    ensures CoerceVariants(env, v, schema) == u <==> FromAlternatives(env, schema, u, v)
    decreases schema, 1
  {
    if Settled(env, schema, v) {
      SettledIsKept(env, schema, v);
      SettledIsNotRepaired(env, schema, u, v);
    } else {
      UnsettledIff(env, schema, u, v);
    }
  }

  lemma {:induction false} UnsettledIff(env: Env, schema: Json, u: Json, v: Json)
    requires schema.Obj? && Compiles(env, schema) && !Settled(env, schema, v)
    ensures CoerceVariants(env, v, schema) == u <==> Repaired(env, schema, u, v)
    decreases schema, 0
  {
    var variants := Variants(schema.fields).value;
    var i := SomeFirstRepair(env, variants, v, 0);
    FirstAcceptedRepairWins(env, v, variants, i);
    OnlyFirstRepairs(env, schema, u, v, i);
    if Accepts(env, variants[i], u) { TextIsRestoredIff(env, variants[i], u, v); }
  }

  lemma SettledIsNotRepaired(env: Env, schema: Json, u: Json, v: Json)
    requires schema.Obj? && Settled(env, schema, v)
    ensures !Repaired(env, schema, u, v)
  {}

  lemma OnlyFirstRepairs(env: Env, schema: Json, u: Json, v: Json, i: nat)
    requires schema.Obj? && Variants(schema.fields).Some? && i < |Variants(schema.fields).value|
    requires FirstToRepair(env, Variants(schema.fields).value, v, i)
    ensures Repaired(env, schema, u, v) <==> Repairing(env, schema, u, v, i)
  {
    forall n | Repairing(env, schema, u, v, n) ensures n == i {}
  }

  lemma {:induction false} LaterStagesIff(env: Env, schema: Json, w: Json, u: Json)
    requires schema.Obj? && Compiles(env, schema) && Valid(env, schema, w)
    ensures LaterStages(env, u, schema) == w <==> PlainText(env, schema, w, u)
    decreases schema, 1
  {
    if u == w {
      ValidPropertiesUnchanged(env, w, schema);
      ValidItemsUnchanged(env, w, schema);
    } else if u.Obj? {
      PropertiesIff(env, schema, w, u);
    } else if u.Arr? {
      ItemsIff(env, schema, w, u);
    }
  }

  lemma {:induction false} PropertiesIff(env: Env, schema: Json, w: Json, u: Json)
    requires schema.Obj? && Compiles(env, schema) && Valid(env, schema, w) && u.Obj? && u != w
    ensures CoerceProperties(env, u, schema) == w <==> PlainText(env, schema, w, u)
    decreases schema, 0
  {
    if HasProperties(schema) && w.Obj? && u.fields.Keys == w.fields.Keys {
      var props := schema.fields["properties"].fields;
      forall k | k in w.fields && k in props
        ensures Coerce(env, u.fields[k], props[k]) == w.fields[k] <==>
          WrittenAsText(env, props[k], w.fields[k], u.fields[k])
      {
        TextIsRestoredIff(env, props[k], w.fields[k], u.fields[k]);
      }
      if PlainText(env, schema, w, u) { assert CoerceProperties(env, u, schema).fields == w.fields; }
    }
  }

  lemma {:induction false} ItemsIff(env: Env, schema: Json, w: Json, u: Json)
    requires schema.Obj? && Compiles(env, schema) && Valid(env, schema, w) && u.Arr? && u != w
    ensures CoerceItems(env, u, schema) == w <==> PlainText(env, schema, w, u)
    decreases schema, 0
  {
    if "items" in schema.fields && w.Arr? && |u.items| == |w.items| {
      var item := schema.fields["items"];
      forall i | 0 <= i < |w.items|
        ensures Coerce(env, u.items[i], item) == w.items[i] <==> WrittenAsText(env, item, w.items[i], u.items[i])
      {
        TextIsRestoredIff(env, item, w.items[i], u.items[i]);
      }
      if PlainText(env, schema, w, u) { assert CoerceItems(env, u, schema).items == w.items; }
    }
  }

  // ---------------------------------------------------------------- validation of a call

  /** validate_tool_args: the arguments the tool receives, or a refusal. */
  function Validated(env: Env, schema: Json, args: Json): Result<Json, ()> {
    if !Compiles(env, schema) then Ok(args)
    else
      var repaired := Coerce(env, args, schema);
      if Valid(env, schema, repaired) then Ok(repaired) else Err(())
  }

  /** Valid arguments pass untouched; whatever passes is a repair of what the model sent and,
      if the schema compiles, validates; a refusal means that even the repair does not. */
  lemma ValidationIsSound(env: Env, schema: Json, args: Json)
    ensures Compiles(env, schema) && Valid(env, schema, args) ==> Validated(env, schema, args) == Ok(args)
    ensures Validated(env, schema, args).Ok? ==> Repairs(env, args, Validated(env, schema, args).value)
    ensures Validated(env, schema, args).Ok? && Compiles(env, schema) ==>
      Valid(env, schema, Validated(env, schema, args).value)
    ensures Validated(env, schema, args).Err? ==>
      !Valid(env, schema, args) && !Valid(env, schema, Coerce(env, args, schema))
  {
    RepairsReflexive(env, args);
    CoercionOnlyRepairs(env, args, schema);
    if Compiles(env, schema) && Valid(env, schema, args) { ValidValueUnchanged(env, args, schema); }
  }

  /** A tool receives the valid value w, where its schema compiles, exactly if the arguments sent
      are w with some of its leaves as text. */
  lemma ReceivesIff(env: Env, schema: Json, args: Json, w: Json)
    requires Compiles(env, schema)
    ensures Validated(env, schema, args) == Ok(w) <==> Valid(env, schema, w) && WrittenAsText(env, schema, w, args)
  {
    if Valid(env, schema, w) { TextIsRestoredIff(env, schema, w, args); }
  }

  /** What reaches a tool meets its schema, keyword by keyword: the type, every required key, the
      schema of each property and item, alternative a of `anyOf`, and of `oneOf` o and no other. */
  lemma ReceivedMeetsSchema(env: Env, schema: Json, args: Json, w: Json) returns (a: nat, o: nat)
    requires Compiles(env, schema) && schema.Obj? && Validated(env, schema, args) == Ok(w)
    ensures var kw := schema.fields;
      && env.othersHold(schema, w)
      && ("type" in kw && kw["type"].Str? ==> HasType(w, kw["type"].s))
      && ("required" in kw && kw["required"].Arr? && w.Obj? ==>
            forall k | Str(k) in kw["required"].items :: k in w.fields)
      && ("properties" in kw && kw["properties"].Obj? && w.Obj? ==>
            forall k | k in kw["properties"].fields && k in w.fields ::
              Valid(env, kw["properties"].fields[k], w.fields[k]))
      && ("items" in kw && w.Arr? ==> forall x | x in w.items :: Valid(env, kw["items"], x))
      && ("anyOf" in kw && kw["anyOf"].Arr? ==> a < |kw["anyOf"].items| && Valid(env, kw["anyOf"].items[a], w))
      && ("oneOf" in kw && kw["oneOf"].Arr? ==>
            && o < |kw["oneOf"].items| && Valid(env, kw["oneOf"].items[o], w)
            && forall j | 0 <= j < |kw["oneOf"].items| && j != o :: !Valid(env, kw["oneOf"].items[j], w))
  {
    a, o := 0, 0;
    var kw := schema.fields;
    if "anyOf" in kw && kw["anyOf"].Arr? { a := SomeAlternative(env, kw["anyOf"].items, w); }
    if "oneOf" in kw && kw["oneOf"].Arr? { o := OnlyAlternative(env, kw["oneOf"].items, w); }
  }

  lemma SomeAlternative(env: Env, variants: seq<Json>, w: Json) returns (a: nat)
    requires exists i | 0 <= i < |variants| :: Valid(env, variants[i], w)
    ensures a < |variants| && Valid(env, variants[a], w)
  {
    a :| a < |variants| && Valid(env, variants[a], w);
  }

  lemma OnlyAlternative(env: Env, variants: seq<Json>, w: Json) returns (o: nat)
    requires exists i | 0 <= i < |variants| ::
      && Valid(env, variants[i], w)
      && forall j | 0 <= j < |variants| && j != i :: !Valid(env, variants[j], w)
    ensures o < |variants| && Valid(env, variants[o], w)
    ensures forall j | 0 <= j < |variants| && j != o :: !Valid(env, variants[j], w)
  {
    o :| o < |variants| && Valid(env, variants[o], w)
      && forall j | 0 <= j < |variants| && j != o :: !Valid(env, variants[j], w);
  }

  /** And the other way round: arguments that meet a schema that compiles, keyword by keyword, pass
      untouched. */
  lemma MeetingArgumentsPass(env: Env, schema: Json, v: Json, a: nat, o: nat)
    requires Compiles(env, schema) && schema.Obj? && env.othersHold(schema, v)
    requires "type" in schema.fields ==>
      match schema.fields["type"]
      case Str(name) => name in TypesOf(v)
      case Arr(names) => exists x :: x in names && x.Str? && x.s in TypesOf(v)
      case _ => false
    requires "required" in schema.fields && schema.fields["required"].Arr? && v.Obj? ==>
      forall k | Str(k) in schema.fields["required"].items :: k in v.fields
    requires "properties" in schema.fields && schema.fields["properties"].Obj? && v.Obj? ==>
      forall k | k in schema.fields["properties"].fields && k in v.fields ::
        Valid(env, schema.fields["properties"].fields[k], v.fields[k])
    requires "items" in schema.fields && v.Arr? ==> forall x | x in v.items :: Valid(env, schema.fields["items"], x)
    requires "anyOf" in schema.fields && schema.fields["anyOf"].Arr? ==>
      a < |schema.fields["anyOf"].items| && Valid(env, schema.fields["anyOf"].items[a], v)
    requires "oneOf" in schema.fields && schema.fields["oneOf"].Arr? ==>
      && o < |schema.fields["oneOf"].items| && Valid(env, schema.fields["oneOf"].items[o], v)
      && forall j | 0 <= j < |schema.fields["oneOf"].items| && j != o :: !Valid(env, schema.fields["oneOf"].items[j], v)
    ensures Validated(env, schema, v) == Ok(v)
  {
    if "type" in schema.fields { TypeMet(schema.fields["type"], v); }
    assert Valid(env, schema, v);
    ValidValueUnchanged(env, v, schema);
  }

  lemma TypeMet(t: Json, v: Json)
    requires match t
      case Str(name) => name in TypesOf(v)
      case Arr(names) => exists x :: x in names && x.Str? && x.s in TypesOf(v)
      case _ => false
    ensures TypeHolds(t, v)
  {
    if t.Str? {
      TypesOfValues(v, t.s);
    } else {
      var x :| x in t.items && x.Str? && x.s in TypesOf(v);
      TypesOfValues(v, x.s);
      var i :| 0 <= i < |t.items| && t.items[i] == x;
    }
  }

  /** A schema that does not compile blocks no arguments, and changes none. One compiles if each
      keyword has its shape: known types, a list of strings, alternatives, parts that compile. */
  lemma BrokenSchemaBlocksNothing(env: Env, schema: Json, args: Json)
    ensures schema.Bool? ==> Validated(env, schema, args) == if schema.b then Ok(args) else Err(())
    ensures !schema.Bool? && !schema.Obj? ==> Validated(env, schema, args) == Ok(args)
    ensures schema.Obj? && !WellShaped(env, schema.fields) ==> Validated(env, schema, args) == Ok(args)
    ensures schema.Obj? && WellShaped(env, schema.fields) && env.othersCompile(schema) ==>
      (Validated(env, schema, args).Ok? <==> Valid(env, schema, Coerce(env, args, schema)))
  {
    if schema.Obj? { CompilesIff(env, schema); }
  }

  predicate WellShaped(env: Env, kw: map<string, Json>) {
    var types := {"null", "boolean", "object", "array", "number", "string", "integer"};
    && ("type" in kw ==>
          match kw["type"]
          case Str(name) => name in types
          case Arr(names) => names != [] && forall x | x in names :: x.Str? && x.s in types
          case _ => false)
    && ("required" in kw ==> kw["required"].Arr? && forall x | x in kw["required"].items :: x.Str?)
    && ("properties" in kw ==>
          kw["properties"].Obj? && forall k | k in kw["properties"].fields :: Compiles(env, kw["properties"].fields[k]))
    && ("items" in kw ==> Compiles(env, kw["items"]))
    && ("anyOf" in kw ==>
          kw["anyOf"].Arr? && kw["anyOf"].items != [] && forall x | x in kw["anyOf"].items :: Compiles(env, x))
    && ("oneOf" in kw ==>
          kw["oneOf"].Arr? && kw["oneOf"].items != [] && forall x | x in kw["oneOf"].items :: Compiles(env, x))
  }

  lemma CompilesIff(env: Env, schema: Json)
    requires schema.Obj?
    ensures Compiles(env, schema) <==> env.othersCompile(schema) && WellShaped(env, schema.fields)
  {
    var kw := schema.fields;
    if "type" in kw && kw["type"].Arr? { EachType(kw["type"].items); }
    if "anyOf" in kw && kw["anyOf"].Arr? { EachCompiles(env, kw["anyOf"].items); }
    if "oneOf" in kw && kw["oneOf"].Arr? { EachCompiles(env, kw["oneOf"].items); }
    if "required" in kw && kw["required"].Arr? { EachString(kw["required"].items); }
  }

  lemma EachCompiles(env: Env, items: seq<Json>)
    ensures (forall i | 0 <= i < |items| :: Compiles(env, items[i])) <==> forall x | x in items :: Compiles(env, x)
  {}

  lemma EachString(items: seq<Json>)
    ensures (forall i | 0 <= i < |items| :: items[i].Str?) <==> forall x | x in items :: x.Str?
  {}

  lemma EachType(items: seq<Json>)
    ensures (forall i | 0 <= i < |items| :: items[i].Str? && items[i].s in TYPE_NAMES) <==>
      forall x | x in items :: x.Str? && x.s in TYPE_NAMES
  {}

  /** Arguments that lack a required key never reach the tool. */
  lemma MissingKeyIsRefused(env: Env, schema: Json, args: Json, k: string)
    requires Compiles(env, schema) && schema.Obj? && args.Obj? && k !in args.fields
    requires "required" in schema.fields && Str(k) in schema.fields["required"].items
    ensures Validated(env, schema, args).Err?
  {
    var w := Coerce(env, args, schema);
    CoercionOnlyRepairs(env, args, schema);
    if Valid(env, schema, w) { var _, _ := ReceivedMeetsSchema(env, schema, args, w); }
  }

  function TypesOf(v: Json): set<string> {
    match v
    case Null => {"null"}
    case Bool(_) => {"boolean"}
    case Num(Int(_)) => {"number", "integer"}
    case Num(Float(f)) => if f == f.Floor as real then {"number", "integer"} else {"number"}
    case Str(_) => {"string"}
    case Arr(_) => {"array"}
    case Obj(_) => {"object"}
  }

  /** The types of a value, by name. An integral number is an integer too, however it is written. */
  lemma TypesOfValues(v: Json, name: string)
    ensures HasType(v, name) <==> name in TypesOf(v)
  {}

  // ---------------------------------------------------------------- the rewrite in place

  /** coerce_by_schema, rewriting its value stage by stage. */
  method CoerceBySchema(env: Env, value: Json, schema: Json) returns (v: Json)
    ensures v == Coerce(env, value, schema)
    decreases schema, 1
  {
    v := value;
    if !schema.Obj? {
      return;
    }
    var kw := schema.fields;
    v := RepairByVariants(env, v, schema);
    if "type" in kw && kw["type"].Str? {
      v := CoerceLeaf(env, v, kw["type"].s);
    }
    ghost var typed := v;
    if "properties" in kw && kw["properties"].Obj? && v.Obj? {
      var fields := RepairFields(env, v.fields, kw["properties"]);
      v := Obj(fields);
    }
    assert v == CoerceProperties(env, typed, schema);
    if "items" in kw && v.Arr? {
      var items := RepairItems(env, v.items, kw["items"]);
      v := Arr(items);
    }
  }

  method RepairByVariants(env: Env, value: Json, schema: Json) returns (v: Json)
    requires schema.Obj?
    ensures v == CoerceVariants(env, value, schema)
    decreases schema, 0
  {
    var found := Variants(schema.fields);
    if found.None? {
      return value;
    }
    var variants := found.value;
    for i := 0 to |variants|
      invariant forall j | 0 <= j < i :: !Accepts(env, variants[j], value)
    {
      if Accepts(env, variants[i], value) {
        return value;
      }
    }
    for i := 0 to |variants|
      invariant FirstRepair(env, value, variants) == FirstRepair(env, value, variants[i..])
    {
      var candidate := CoerceBySchema(env, value, variants[i]);
      assert variants[i..][0] == variants[i] && variants[i..][1..] == variants[i + 1..];
      if Accepts(env, variants[i], candidate) {
        return candidate;
      }
    }
    return value;
  }

  method RepairFields(env: Env, fields: map<string, Json>, props: Json) returns (m: map<string, Json>)
    requires props.Obj?
    ensures m == map k | k in fields :: if k in props.fields then Coerce(env, fields[k], props.fields[k]) else fields[k]
    decreases props, 0
  {
    m := fields;
    var names := props.fields.Keys;
    while names != {}
      invariant names <= props.fields.Keys && m.Keys == fields.Keys
      invariant forall k | k in fields ::
        m[k] == if k in props.fields && k !in names then Coerce(env, fields[k], props.fields[k]) else fields[k]
      decreases |names|
    {
      var name :| name in names;
      if name in m {
        var repaired := CoerceBySchema(env, m[name], props.fields[name]);
        m := m[name := repaired];
      }
      names := names - {name};
    }
  }

  method RepairItems(env: Env, items: seq<Json>, schema: Json) returns (a: seq<Json>)
    ensures a == seq(|items|, i requires 0 <= i < |items| => Coerce(env, items[i], schema))
    decreases schema, 2
  {
    a := items;
    for i := 0 to |items|
      invariant |a| == |items|
      invariant forall j | 0 <= j < |items| :: a[j] == if j < i then Coerce(env, items[j], schema) else items[j]
    {
      var repaired := CoerceBySchema(env, a[i], schema);
      a := a[i := repaired];
    }
  }
}
