/** Frame stacks of a flow and the key that identifies one branch of it. */
module ContextKey {
  import opened Options
  import opened Sequences
  import Decimal

  const MAP_NAME := "map"

  /** A frame. Its data is an arbitrary value; `index` and `length` are what reading those
      two keys of it as i64 yields. */
  datatype Frame = Frame(name: string, index: Option<int>, length: Option<int>)

  datatype Context = Context(id: nat, frames: Option<seq<Frame>>)

  datatype Error = InvalidValue(text: string)

  type Branch = (nat, nat)   // (index, length) of a map frame

  /** A 64-bit unsigned number. */
  type Usize = n: nat | n < 0x1_0000_0000_0000_0000

  /** `as i64`. */
  function AsI64(n: Usize): int {
    if n < 0x8000_0000_0000_0000 then n else n - 0x1_0000_0000_0000_0000
  }

  function Stack(c: Context): seq<Frame> {
    match c.frames case Some(fs) => fs case None => []
  }

  function PushFrame(c: Context, f: Frame): Context {
    c.(frames := Some(Stack(c) + [f]))
  }

  function PushMapFrame(c: Context, index: Usize, len: Usize): Result<Context, Error> {
    if len == 0 then Err(InvalidValue("map frame length must be positive"))
    else if index >= len then Err(InvalidValue("map frame index is out of bounds"))
    else Ok(PushFrame(c, Frame(MAP_NAME, Some(AsI64(index)), Some(AsI64(len)))))
  }

  function PopFrame(c: Context): (Option<Frame>, Context) {
    var fs := Stack(c);
    if fs == [] then (None, c)
    else
      var rest := fs[..|fs| - 1];
      (Some(fs[|fs| - 1]), c.(frames := if rest == [] then None else Some(rest)))
  }

  function PopMapFrame(c: Context): Result<Context, Error> {
    var (frame, next) := PopFrame(c);
    match frame
    case Some(f) =>
      if f.name == MAP_NAME then Ok(next) else Err(InvalidValue("Unexpected frame '" + f.name + "', expected map"))
    case None => Err(InvalidValue("Missing map frame in context"))
  }

  function ReadMapFrame(f: Frame): Result<Branch, Error> {
    if f.index.None? then Err(InvalidValue("map frame missing integer index"))
    else if f.length.None? then Err(InvalidValue("map frame missing integer length"))
    else if f.index.value < 0 || f.length.value < 1 then Err(InvalidValue("Invalid map frame values"))
    else if f.index.value >= f.length.value then Err(InvalidValue("map frame index is out of bounds"))
    else Ok((f.index.value, f.length.value))
  }

  function CurrentMapFrame(c: Context): Result<Option<Branch>, Error> {
    var fs := Stack(c);
    if fs == [] || fs[|fs| - 1].name != MAP_NAME then Ok(None)
    else match ReadMapFrame(fs[|fs| - 1]) case Ok(b) => Ok(Some(b)) case Err(e) => Err(e)
  }

  /** The branches of all map frames, outermost first; the first unreadable one fails. */
  function Branches(fs: seq<Frame>): Result<seq<Branch>, Error> {
    if fs == [] then Ok([])
    else
      var front := Branches(fs[..|fs| - 1]);
      var f := fs[|fs| - 1];
      if front.Err? || f.name != MAP_NAME then front
      else match ReadMapFrame(f) case Ok(b) => Ok(front.value + [b]) case Err(e) => Err(e)
  }

  function BranchText(b: Branch): string {
    Decimal.ToString(b.0) + ":" + Decimal.ToString(b.1)
  }

  /** `parts.join(",")` of the branch texts. */
  function Join(bs: seq<Branch>): string
    requires bs != []
  {
    if |bs| == 1 then BranchText(bs[0]) else BranchText(bs[0]) + "," + Join(bs[1..])
  }

  function KeyText(id: nat, bs: seq<Branch>): string {
    if bs == [] then Decimal.ToString(id) else Decimal.ToString(id) + ":" + Join(bs)
  }

  function CtxKey(c: Context): Result<string, Error> {
    match Branches(Stack(c)) case Ok(bs) => Ok(KeyText(c.id, bs)) case Err(e) => Err(e)
  }

  // ---------------------------------------------------------------- the key is injective

  predicate NoLeadingDigit(s: string) { s == "" || !Decimal.IsDigit(s[0]) }

  /** A digit string followed by a non-digit is determined by the whole text. */
  lemma DigitsSplitUniquely(a: string, x: string, b: string, y: string)
    requires Decimal.AllDigits(a) && Decimal.AllDigits(b) && NoLeadingDigit(x) && NoLeadingDigit(y)
    requires a + x == b + y
    ensures a == b && x == y
  {
    var t := a + x;
    assert forall k | 0 <= k < |a| :: Decimal.IsDigit(t[k]);
    assert forall k | 0 <= k < |b| :: Decimal.IsDigit((b + y)[k]);
    assert |a| < |t| ==> t[|a|] == x[0];
    assert |b| < |t| ==> t[|b|] == y[0];
    assert (a + x)[..|a|] == a && (b + y)[..|a|] == b;
    assert (a + x)[|a|..] == x && (b + y)[|a|..] == y;
  }

  lemma NumberSplitsUniquely(m: nat, x: string, n: nat, y: string)
    requires NoLeadingDigit(x) && NoLeadingDigit(y)
    requires Decimal.ToString(m) + x == Decimal.ToString(n) + y
    ensures m == n && x == y
  {
    DigitsSplitUniquely(Decimal.ToString(m), x, Decimal.ToString(n), y);
    Decimal.ToStringInjective(m, n);
  }

  function JoinTail(bs: seq<Branch>): string
    requires bs != []
  {
    if |bs| == 1 then "" else "," + Join(bs[1..])
  }

  lemma JoinUnfolds(bs: seq<Branch>)
    requires bs != []
    ensures Join(bs) == Decimal.ToString(bs[0].0) + (":" + (Decimal.ToString(bs[0].1) + JoinTail(bs)))
  {}

  /** The text of a branch followed by a non-digit determines the branch and what follows. */
  lemma BranchSplitsUniquely(b: Branch, t: string, c: Branch, u: string, x: string, y: string)
    requires NoLeadingDigit(t) && NoLeadingDigit(u)
    requires x == Decimal.ToString(b.1) + t && y == Decimal.ToString(c.1) + u
    requires Decimal.ToString(b.0) + (":" + x) == Decimal.ToString(c.0) + (":" + y)
    ensures b == c && t == u
  {
    NumberSplitsUniquely(b.0, ":" + x, c.0, ":" + y);
    assert (":" + x)[1..] == x && (":" + y)[1..] == y;
    NumberSplitsUniquely(b.1, t, c.1, u);
  }

  lemma {:induction false} JoinInjective(bs: seq<Branch>, cs: seq<Branch>)
    requires bs != [] && cs != [] && Join(bs) == Join(cs)
    ensures bs == cs
  {
    JoinUnfolds(bs);
    JoinUnfolds(cs);
    BranchSplitsUniquely(bs[0], JoinTail(bs), cs[0], JoinTail(cs),
                         Decimal.ToString(bs[0].1) + JoinTail(bs), Decimal.ToString(cs[0].1) + JoinTail(cs));
    if |bs| > 1 {
      assert JoinTail(bs)[1..] == Join(bs[1..]) && JoinTail(cs)[1..] == Join(cs[1..]);
      JoinInjective(bs[1..], cs[1..]);
      SameHeadAndTail(bs, cs);
    }
  }

  lemma SameHeadAndTail(bs: seq<Branch>, cs: seq<Branch>)
    requires bs != [] && cs != [] && bs[0] == cs[0] && bs[1..] == cs[1..]
    ensures bs == cs
  {
    assert bs == [bs[0]] + bs[1..] && cs == [cs[0]] + cs[1..];
  }

  /** What follows the context id in a key. */
  function BranchesText(bs: seq<Branch>): string { if bs == [] then "" else ":" + Join(bs) }

  lemma KeySplits(id: nat, bs: seq<Branch>)
    ensures KeyText(id, bs) == Decimal.ToString(id) + BranchesText(bs)
    ensures NoLeadingDigit(BranchesText(bs))
  {
    if bs == [] {
      assert Decimal.ToString(id) + "" == Decimal.ToString(id);
    } else {
      Associate(Decimal.ToString(id), ":", Join(bs));
    }
  }

  lemma BranchesTextInjective(bs: seq<Branch>, cs: seq<Branch>)
    requires BranchesText(bs) == BranchesText(cs)
    ensures bs == cs
  {
    if bs != [] && cs != [] {
      assert BranchesText(bs)[1..] == Join(bs) && BranchesText(cs)[1..] == Join(cs);
      JoinInjective(bs, cs);
    }
  }

  lemma KeyTextInjective(i: nat, bs: seq<Branch>, j: nat, cs: seq<Branch>)
    requires KeyText(i, bs) == KeyText(j, cs)
    ensures i == j && bs == cs
  {
    KeySplits(i, bs);
    KeySplits(j, cs);
    NumberSplitsUniquely(i, BranchesText(bs), j, BranchesText(cs));
    BranchesTextInjective(bs, cs);
  }

  /** Two contexts share a key exactly when they share the context id and the branches of
      all their map frames. */
  lemma SameKeyIff(c: Context, d: Context)
    requires CtxKey(c).Ok? && CtxKey(d).Ok?
    ensures CtxKey(c) == CtxKey(d) <==> c.id == d.id && Branches(Stack(c)) == Branches(Stack(d))
  {
    if CtxKey(c) == CtxKey(d) {
      KeyTextInjective(c.id, Branches(Stack(c)).value, d.id, Branches(Stack(d)).value);
    }
  }

  // ---------------------------------------------------------------- pushing and popping

  /** A pushed frame reads back as it was pushed, if its length fits a signed 64-bit number. */
  lemma PushedFrameReads(index: Usize, len: Usize)
    requires index < len
    ensures var r := ReadMapFrame(Frame(MAP_NAME, Some(AsI64(index)), Some(AsI64(len))));
      if len < 0x8000_0000_0000_0000 then r == Ok((index, len)) else r.Err?
  {
  }

  lemma BranchesPush(fs: seq<Frame>, f: Frame)
    requires Branches(fs).Ok? && f.name == MAP_NAME
    ensures Branches(fs + [f]) ==
      match ReadMapFrame(f) case Ok(b) => Ok(Branches(fs).value + [b]) case Err(e) => Err(e)
  {
    assert (fs + [f])[..|fs|] == fs;
  }

  /** A map frame can be pushed exactly for an index below the length, and is pushed as such. */
  lemma PushMapFrameIff(c: Context, index: Usize, len: Usize)
    ensures PushMapFrame(c, index, len).Ok? <==> index < len
    ensures index < len ==>
      Stack(PushMapFrame(c, index, len).value) == Stack(c) + [Frame("map", Some(AsI64(index)), Some(AsI64(len)))]
  {}

  /** A frame reads as a branch exactly if it has an index from 0 on, below its length. */
  lemma ReadMapFrameIff(f: Frame)
    ensures ReadMapFrame(f).Ok? <==> f.index.Some? && f.length.Some? && 0 <= f.index.value < f.length.value
    ensures ReadMapFrame(f).Ok? ==> ReadMapFrame(f).value == (f.index.value, f.length.value)
  {}

  /** Popping needs a map frame on top, and takes it off. */
  lemma PopMapFrameIff(c: Context)
    ensures var fs := Stack(c); PopMapFrame(c).Ok? <==> fs != [] && fs[|fs| - 1].name == "map"
    ensures PopMapFrame(c).Ok? ==> Stack(PopMapFrame(c).value) == Stack(c)[..|Stack(c)| - 1]
  {}

  /** The text of a key. */
  lemma KeyTextExample()
    ensures KeyText(7, []) == "7" && KeyText(7, [(0, 2), (1, 3)]) == "7:0:2,1:3"
  {
    assert [(0, 2), (1, 3)][1..] == [(1, 3)];
    assert Decimal.ToString(7) == "7" && Decimal.ToString(0) == "0" && Decimal.ToString(1) == "1";
    assert Decimal.ToString(2) == "2" && Decimal.ToString(3) == "3";
    var b: Branch, d: Branch := (0, 2), (1, 3);
    assert BranchText(b) == "0:2" && BranchText(d) == "1:3";
    assert Join([d]) == "1:3";
    assert Join([b, d]) == "0:2" + "," + "1:3" == "0:2,1:3";
  }

  /** A pushed map frame is the last branch of the key exactly when its length fits in i64;
      a longer one makes the key unreadable. */
  lemma {:induction false} PushedFrameReadableIff(c: Context, index: Usize, len: Usize)
    requires index < len && CtxKey(c).Ok?
    ensures PushMapFrame(c, index, len).Ok?
    ensures var d := PushMapFrame(c, index, len).value;
      && (CtxKey(d).Ok? <==> len < 0x8000_0000_0000_0000)
      && (CtxKey(d).Ok? ==>
            && Branches(Stack(d)) == Ok(Branches(Stack(c)).value + [(index, len)])
            && CurrentMapFrame(d) == Ok(Some((index, len))))
  {
    var f := Frame(MAP_NAME, Some(AsI64(index)), Some(AsI64(len)));
    PushedFrameReads(index, len);
    BranchesPush(Stack(c), f);
    assert (Stack(c) + [f])[|Stack(c)|] == f;
  }

  /** Pushing element 0 of 2^63 onto an empty stack succeeds, and the flow has no key. */
  lemma LongMapFrameHasNoKey(id: nat)
    ensures PushMapFrame(Context(id, None), 0, 0x8000_0000_0000_0000).Ok?
    ensures CtxKey(PushMapFrame(Context(id, None), 0, 0x8000_0000_0000_0000).value).Err?
  {
    PushedFrameReadableIff(Context(id, None), 0, 0x8000_0000_0000_0000);
  }

  /** Frames of any other name do not enter the key. */
  lemma OtherFramesKeepTheKey(c: Context, f: Frame)
    requires f.name != MAP_NAME
    ensures CtxKey(PushFrame(c, f)) == CtxKey(c)
  {
    assert Stack(PushFrame(c, f))[..|Stack(c)|] == Stack(c);
  }

  /** Siblings of one map never share a key, nor does a child with its parent. */
  lemma {:induction false} BranchesAreSeparate(c: Context, i: Usize, m: Usize, j: Usize, n: Usize)
    requires CtxKey(c).Ok? && i < m < 0x8000_0000_0000_0000 && j < n < 0x8000_0000_0000_0000
    ensures CtxKey(PushMapFrame(c, i, m).value) == CtxKey(PushMapFrame(c, j, n).value) <==> i == j && m == n
    ensures CtxKey(PushMapFrame(c, i, m).value) != CtxKey(c)
  {
    var d, e := PushMapFrame(c, i, m).value, PushMapFrame(c, j, n).value;
    PushedFrameReadableIff(c, i, m);
    PushedFrameReadableIff(c, j, n);
    SameKeyIff(d, e);
    SameKeyIff(d, c);
    var bs := Branches(Stack(c)).value;
    assert (bs + [(i, m)])[|bs|] == (i, m) && (bs + [(j, n)])[|bs|] == (j, n);
  }

  /** Popping what was pushed restores the stack, and restores the very context unless its
      stack was present but empty, in which case it comes back absent. */
  lemma PopUndoesPush(c: Context, index: Usize, len: Usize)
    requires index < len
    ensures var d := PopMapFrame(PushMapFrame(c, index, len).value);
      && d.Ok? && d.value.id == c.id && Stack(d.value) == Stack(c)
      && (d == Ok(c) <==> c.frames != Some([]))
  {
    var p := PushMapFrame(c, index, len).value;
    assert Stack(p)[..|Stack(p)| - 1] == Stack(c);
  }

  /** map_frame_indices, with its loop. */
  method MapFrameIndices(c: Context) returns (r: Result<seq<Branch>, Error>)
    ensures r == Branches(Stack(c))
  {
    var indices: seq<Branch> := [];
    if c.frames.None? {
      return Ok(indices);
    }
    var fs := c.frames.value;
    for i := 0 to |fs|
      invariant Branches(fs[..i]) == Ok(indices)
    {
      assert fs[..i + 1][..i] == fs[..i];
      if fs[i].name != MAP_NAME { continue; }
      var b := ReadMapFrame(fs[i]);
      if b.Err? {
        ErrorPropagates(fs, i + 1, b.error);
        return Err(b.error);
      }
      indices := indices + [b.value];
    }
    assert fs[..|fs|] == fs;
    return Ok(indices);
  }

  lemma {:induction false} ErrorPropagates(fs: seq<Frame>, k: nat, e: Error)
    requires k <= |fs| && Branches(fs[..k]) == Err(e)
    ensures Branches(fs) == Err(e)
    decreases |fs| - k
  {
    if k == |fs| {
      assert fs[..k] == fs;
    } else {
      assert fs[..k + 1][..k] == fs[..k];
      ErrorPropagates(fs, k + 1, e);
    }
  }
}
