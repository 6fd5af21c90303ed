/** The two session stores: a map in memory, and one file of lines per session. Through any
    number of crashes the file store answers as the memory store does, except for the sessions
    in which a completed append was fused onto a torn line that no load had removed. */
module SessionStores {
  import opened Options
  import opened SessionLog

  type Sessions = map<string, (Meta, seq<Entry>)>
  type Files = map<string, string>

  /** A crash during an append writes only the first `cut` characters of the line, or all of
      it if it is no longer than that; the caller gets no reply. */
  datatype Op =
    | Create(meta: Meta)
    | Append(id: string, entry: Entry)
    | CrashAppend(id: string, entry: Entry, cut: nat)
    | Load(id: string)

  datatype Reply =
    | Created(id: string)
    | Appended
    | Loaded(entries: seq<Entry>)
    | Failed(error: Error)
    | NoReply

  /** What an append writes. */
  function Written(op: Op): string
    requires op.Append? || op.CrashAppend?
  {
    if op.CrashAppend? && op.cut < |EntryLine(op.entry)| then EntryLine(op.entry)[..op.cut]
    else EntryLine(op.entry)
  }

  predicate Completed(op: Op) {
    op.Append? || (op.CrashAppend? && op.cut >= |EntryLine(op.entry)|)
  }

  predicate Torn(op: Op) { op.CrashAppend? && 0 < op.cut < |EntryLine(op.entry)| }

  function Target(op: Op): string { if op.Create? then op.meta.id else op.id }

  /** The memory store. A crashed append took place if the whole line was written. */
  function MemStep(s: Sessions, op: Op): (Sessions, Reply) {
    match op
    case Create(m) =>
      if m.id in s then (s, Failed(DuplicateId(m.id))) else (s[m.id := (m, [])], Created(m.id))
    case Load(id) =>
      if id in s then (s, Loaded(s[id].1)) else (s, Failed(NotFound(id)))
    case _ =>
      if op.id !in s then (s, Failed(NotFound(op.id)))
      else
        (if Completed(op) then s[op.id := (s[op.id].0, s[op.id].1 + [op.entry])] else s,
         if op.Append? then Appended else NoReply)
  }

  function LoadReply(r: Result<seq<Entry>, Error>): Reply {
    match r
    case Ok(es) => Loaded(es)
    case Err(e) => Failed(e)
  }

  /** The file store. */
  function FileStep(f: Files, op: Op): (Files, Reply) {
    match op
    case Create(m) =>
      if m.id in f then (f, Failed(DuplicateId(m.id))) else (f[m.id := EncodeMeta(m) + "\n"], Created(m.id))
    case Load(id) =>
      if id in f then (f[id := LoadFile(f[id]).0], LoadReply(LoadFile(f[id]).1)) else (f, Failed(NotFound(id)))
    case _ =>
      if op.id !in f then (f, Failed(NotFound(op.id)))
      else (f[op.id := f[op.id] + Written(op)], if op.Append? then Appended else NoReply)
  }

  function MemAfter(ops: seq<Op>): Sessions {
    if ops == [] then map[] else MemStep(MemAfter(ops[..|ops| - 1]), ops[|ops| - 1]).0
  }

  function FilesAfter(ops: seq<Op>): Files {
    if ops == [] then map[] else FileStep(FilesAfter(ops[..|ops| - 1]), ops[|ops| - 1]).0
  }

  /** Some operation has created the session. */
  predicate Known(ops: seq<Op>, id: string) { exists i | 0 <= i < |ops| :: ops[i].Create? && ops[i].meta.id == id }

  /** The entries whose appends were completed after the session was created, in order. */
  function EntriesOf(ops: seq<Op>, id: string): seq<Entry> {
    if ops == [] then []
    else
      var before, op := ops[..|ops| - 1], ops[|ops| - 1];
      EntriesOf(before, id) +
      if Known(before, id) && (op.Append? || (op.CrashAppend? && op.cut >= |EntryLine(op.entry)|)) && op.id == id
      then [op.entry] else []
  }

  /** The store in memory keeps, for every session that was created, the list of its completed
      entries; it refuses to create one twice, and to append to or load an unknown one. */
  lemma MemoryIsAList(ops: seq<Op>, m: Meta, e: Entry)
    ensures var (s, id, known) := (MemAfter(ops), m.id, Known(ops, m.id));
      && MemStep(s, Op.Create(m)).1 == (if known then Failed(DuplicateId(id)) else Created(id))
      && MemStep(s, Op.Append(id, e)).1 == (if known then Appended else Failed(NotFound(id)))
      && MemStep(s, Op.Load(id)).1 == (if known then Loaded(EntriesOf(ops, id)) else Failed(NotFound(id)))
  {
    MemoryHolds(ops, m.id);
  }

  lemma {:induction false} MemoryHolds(ops: seq<Op>, id: string)
    ensures id in MemAfter(ops) <==> Known(ops, id)
    ensures id in MemAfter(ops) ==> MemAfter(ops)[id].1 == EntriesOf(ops, id)
    ensures !Known(ops, id) ==> EntriesOf(ops, id) == []
  {
    if ops != [] {
      var before, op := ops[..|ops| - 1], ops[|ops| - 1];
      MemoryHolds(before, id);
      assert Known(ops, id) <==> Known(before, id) || (op.Create? && op.meta.id == id) by {
        assert forall i | 0 <= i < |before| :: before[i] == ops[i];
      }
    }
  }

  /** What the caller's history says of the sessions: those with a torn line that no load has
      removed, and those in which a completed append followed such a line. */
  datatype History = History(torn: set<string>, fused: set<string>)

  function Record(h: History, known: bool, op: Op): History {
    if op.Create? || !known then h
    else if op.Load? then h.(torn := h.torn - {op.id})
    else if Torn(op) then h.(torn := h.torn + {op.id})
    else if Completed(op) && op.id in h.torn then h.(fused := h.fused + {op.id})
    else h
  }

  function HistoryOf(ops: seq<Op>): History {
    if ops == [] then History({}, {})
    else
      var before := ops[..|ops| - 1];
      Record(HistoryOf(before), Target(ops[|ops| - 1]) in MemAfter(before), ops[|ops| - 1])
  }

  /** The file holds exactly the completed entries, then a line torn by crashes if any. */
  predicate Holds(content: string, session: (Meta, seq<Entry>), torn: bool) {
    var n := |FileOf(session.0, session.1)|;
    && n <= |content|
    && Represents(content, session.0, session.1, content[n..])
    && (torn <==> n < |content|)
  }

  predicate SessionAgrees(content: string, session: (Meta, seq<Entry>), torn: bool, fused: bool) {
    if fused then Spoilt(content) else Holds(content, session, torn)
  }

  predicate AgreesAt(f: Files, s: Sessions, h: History, id: string) {
    && (id in f <==> id in s)
    && (id in f ==> SessionAgrees(f[id], s[id], id in h.torn, id in h.fused))
    && (id !in f ==> id !in h.torn && id !in h.fused)
  }

  ghost predicate Agrees(f: Files, s: Sessions, h: History) { forall id :: AgreesAt(f, s, h, id) }

  lemma HoldsWhole(m: Meta, es: seq<Entry>, torn: string)
    requires OneLine(torn)
    ensures Holds(FileOf(m, es) + torn, (m, es), torn != "")
  {
    assert (FileOf(m, es) + torn)[|FileOf(m, es)|..] == torn;
  }

  lemma HoldsClean(content: string, m: Meta, es: seq<Entry>)
    requires content == FileOf(m, es)
    ensures Holds(content, (m, es), false)
  {
    assert FileOf(m, es) + "" == content;
    HoldsWhole(m, es, "");
  }

  lemma CreateAgrees(m: Meta)
    ensures Holds(EncodeMeta(m) + "\n", (m, []), false)
  {
    assert EncodeMeta(m) + "\n" + "" == EncodeMeta(m) + "\n";
    HoldsClean(EncodeMeta(m) + "\n", m, []);
  }

  lemma LoadAgrees(content: string, session: (Meta, seq<Entry>), torn: bool, fused: bool)
    requires SessionAgrees(content, session, torn, fused)
    ensures SessionAgrees(LoadFile(content).0, session, false, fused)
    ensures LoadFile(content).1 == Ok(session.1) <==> !fused
  {
    if fused {
      SpoiltAfterLoad(content);
    } else {
      var (m, es) := session;
      LoadReturnsEntries(content, m, es, content[|FileOf(m, es)|..]);
      HoldsClean(FileOf(m, es), m, es);
    }
  }

  lemma CompletedAppend(content: string, m: Meta, es: seq<Entry>, e: Entry, torn: string)
    requires content == FileOf(m, es) + torn && OneLine(torn)
    ensures SessionAgrees(content + EntryLine(e), (m, es + [e]), torn != "", torn != "")
  {
    if torn == "" {
      FileAppend(m, es, e);
      assert content == FileOf(m, es);
      HoldsClean(content + EntryLine(e), m, es + [e]);
    } else {
      AppendAfterCrashIff(m, es, torn, e);
    }
  }

  lemma TornAppend(content: string, m: Meta, es: seq<Entry>, e: Entry, torn: string, cut: nat)
    requires content == FileOf(m, es) + torn && OneLine(torn) && cut < |EntryLine(e)|
    ensures Holds(content + EntryLine(e)[..cut], (m, es), torn != "" || cut > 0)
  {
    EntryPrefixIsOneLine(e, cut);
    HoldsWhole(m, es, torn + EntryLine(e)[..cut]);
    assert content + EntryLine(e)[..cut] == FileOf(m, es) + (torn + EntryLine(e)[..cut]);
  }

  lemma AppendAgrees(content: string, session: (Meta, seq<Entry>), torn: bool, fused: bool, op: Op)
    requires op.Append? || op.CrashAppend?
    requires SessionAgrees(content, session, torn, fused)
    ensures SessionAgrees(content + Written(op),
                          if Completed(op) then (session.0, session.1 + [op.entry]) else session,
                          torn || Torn(op), fused || (Completed(op) && torn))
  {
    var (m, es) := session;
    if fused {
      SpoiltForever(content, Written(op));
    } else if Completed(op) {
      CompletedAppend(content, m, es, op.entry, content[|FileOf(m, es)|..]);
    } else {
      TornAppend(content, m, es, op.entry, content[|FileOf(m, es)|..], op.cut);
    }
  }

  lemma StepAtTarget(f: Files, s: Sessions, h: History, op: Op)
    requires AgreesAt(f, s, h, Target(op))
    ensures AgreesAt(FileStep(f, op).0, MemStep(s, op).0, Record(h, Target(op) in s, op), Target(op))
    ensures FileStep(f, op).1 == MemStep(s, op).1 <==> !(op.Load? && op.id in h.fused)
  {
    var id := Target(op);
    if op.Create? {
      CreateAgrees(op.meta);
    } else if id in f {
      if op.Load? {
        LoadAgrees(f[id], s[id], id in h.torn, id in h.fused);
      } else {
        AppendAgrees(f[id], s[id], id in h.torn, id in h.fused, op);
      }
    }
  }

  lemma StepAgrees(f: Files, s: Sessions, h: History, op: Op)
    requires Agrees(f, s, h)
    ensures Agrees(FileStep(f, op).0, MemStep(s, op).0, Record(h, Target(op) in s, op))
    ensures FileStep(f, op).1 == MemStep(s, op).1 <==> !(op.Load? && op.id in h.fused)
  {
    assert AgreesAt(f, s, h, Target(op));
    StepAtTarget(f, s, h, op);
    forall id ensures AgreesAt(FileStep(f, op).0, MemStep(s, op).0, Record(h, Target(op) in s, op), id) {
      if id != Target(op) { assert AgreesAt(f, s, h, id); }
    }
  }

  lemma {:induction false} RunAgrees(ops: seq<Op>)
    ensures Agrees(FilesAfter(ops), MemAfter(ops), HistoryOf(ops))
  {
    if ops == [] {
      forall id ensures AgreesAt(map[], map[], History({}, {}), id) {}
    } else {
      var before := ops[..|ops| - 1];
      RunAgrees(before);
      StepAgrees(FilesAfter(before), MemAfter(before), HistoryOf(before), ops[|ops| - 1]);
    }
  }

  /** After any run of creates, appends, crashed appends and loads, the file store answers any
      next operation as the memory store does, unless it is a load of a session in which a
      completed append followed a torn line that no load had removed. */
  lemma {:induction false} FilesRefineMemoryIff(ops: seq<Op>, next: Op)
    ensures FileStep(FilesAfter(ops), next).1 == MemStep(MemAfter(ops), next).1
       <==> !(next.Load? && next.id in HistoryOf(ops).fused)
  {
    RunAgrees(ops);
    StepAgrees(FilesAfter(ops), MemAfter(ops), HistoryOf(ops), next);
  }

  /** A history that the files get wrong: an append that dies within its line, then one that
      completes, and no load in between. */
  lemma AppendBehindTornLineIsLost(m: Meta, e: Entry, cut: nat)
    requires 0 < cut < |EntryLine(e)|
    ensures var ops := [Create(m), CrashAppend(m.id, e, cut), Append(m.id, e)];
      && MemStep(MemAfter(ops), Load(m.id)).1 == Loaded([e])
      && FileStep(FilesAfter(ops), Load(m.id)).1 != Loaded([e])
  {
    var created, torn := [Create(m)], [Create(m), CrashAppend(m.id, e, cut)];
    var ops := [Create(m), CrashAppend(m.id, e, cut), Append(m.id, e)];
    assert created[..0] == [] && torn[..1] == created && ops[..2] == torn;
    assert MemAfter(created) == map[m.id := (m, [])] == MemAfter(torn);
    assert MemAfter(ops) == map[m.id := (m, [e])] by { assert [] + [e] == [e]; }
    assert HistoryOf(created) == History({}, {});
    assert HistoryOf(torn) == History({m.id}, {});
    FilesRefineMemoryIff(ops, Load(m.id));
  }

  /** Loads follow crashes: between a crashed append and the next append to that session there
      is a load of it. */
  predicate LoadedSince(ops: seq<Op>, i: nat, j: nat, id: string)
    requires j <= |ops|
  {
    exists k :: i < k < j && ops[k] == Load(id)
  }

  predicate Repaired(ops: seq<Op>) {
    forall i, j | 0 <= i < j < |ops| && ops[i].CrashAppend? && (ops[j].Append? || ops[j].CrashAppend?) ::
      ops[i].id == ops[j].id ==> LoadedSince(ops, i, j, ops[i].id)
  }

  lemma LoadedSincePrefix(ops: seq<Op>, n: nat, i: nat, j: nat, id: string)
    requires j <= n <= |ops|
    ensures LoadedSince(ops, i, j, id) <==> LoadedSince(ops[..n], i, j, id)
  {
    if LoadedSince(ops, i, j, id) {
      var k :| i < k < j && ops[k] == Load(id);
      assert ops[..n][k] == Load(id);
    }
  }

  lemma TornStays(ops: seq<Op>, n: nat, id: string)
    requires n + 1 == |ops| && id in HistoryOf(ops[..n]).torn && id in HistoryOf(ops).torn
    ensures ops[n] != Load(id)
  {
    RunAgrees(ops[..n]);
    assert AgreesAt(FilesAfter(ops[..n]), MemAfter(ops[..n]), HistoryOf(ops[..n]), id);
  }

  /** A torn session's last append crashed, and no load of it came later. */
  lemma {:induction false} TornMeansUnloaded(ops: seq<Op>, id: string) returns (i: nat)
    requires id in HistoryOf(ops).torn
    ensures i < |ops| && ops[i].CrashAppend? && ops[i].id == id && !LoadedSince(ops, i, |ops|, id)
  {
    var n := |ops| - 1;
    if id in HistoryOf(ops[..n]).torn {
      i := TornMeansUnloaded(ops[..n], id);
      TornStays(ops, n, id);
      LoadedSincePrefix(ops, n, i, n, id);
    } else {
      i := n;
    }
  }

  /** The caller's rule is enough: nothing is ever fused. */
  lemma {:induction false} RepairedRunsFuseNothing(ops: seq<Op>)
    requires Repaired(ops)
    ensures HistoryOf(ops).fused == {}
  {
    if ops != [] {
      var n := |ops| - 1;
      var before := ops[..n];
      forall i, j | 0 <= i < j < n
                    && ops[i].CrashAppend? && (ops[j].Append? || ops[j].CrashAppend?) && ops[i].id == ops[j].id
        ensures LoadedSince(before, i, j, ops[i].id)
      {
        assert LoadedSince(ops, i, j, ops[i].id);
        LoadedSincePrefix(ops, n, i, j, ops[i].id);
      }
      RepairedRunsFuseNothing(before);
      if HistoryOf(ops).fused != {} {
        var id := ops[n].id;
        var i := TornMeansUnloaded(before, id);
        LoadedSincePrefix(ops, n, i, n, id);
        assert false;
      }
    }
  }

  /** With a load after each crash before the next append, the file store is the memory store:
      load returns exactly the completed entries in order, however often appends were cut. */
  lemma {:induction false} CrashedSessionsRefineMemory(ops: seq<Op>, next: Op)
    requires Repaired(ops)
    ensures FileStep(FilesAfter(ops), next).1 == MemStep(MemAfter(ops), next).1
  {
    RepairedRunsFuseNothing(ops);
    FilesRefineMemoryIff(ops, next);
  }

  // ---------------------------------------------------------------- the stores

  class InMemorySessionStore {
    var sessions: Sessions

    constructor ()
      ensures sessions == MemAfter([])
    {
      sessions := map[];
    }

    method Create(meta: Meta) returns (r: Result<string, Error>)
      modifies this
      ensures sessions == MemStep(old(sessions), Op.Create(meta)).0
      ensures MemStep(old(sessions), Op.Create(meta)).1 == if r.Ok? then Created(r.value) else Failed(r.error)
    {
      if meta.id in sessions { return Err(DuplicateId(meta.id)); }
      sessions := sessions[meta.id := (meta, [])];
      r := Ok(meta.id);
    }

    method Append(id: string, entry: Entry) returns (r: Result<(), Error>)
      modifies this
      ensures sessions == MemStep(old(sessions), Op.Append(id, entry)).0
      ensures MemStep(old(sessions), Op.Append(id, entry)).1 == if r.Ok? then Appended else Failed(r.error)
    {
      if id !in sessions { return Err(NotFound(id)); }
      var (meta, entries) := sessions[id];
      entries := entries + [entry];
      sessions := sessions[id := (meta, entries)];
      r := Ok(());
    }

    method Load(id: string) returns (r: Result<seq<Entry>, Error>)
      ensures MemStep(sessions, Op.Load(id)) == (sessions, LoadReply(r))
    {
      if id !in sessions { return Err(NotFound(id)); }
      r := Ok(sessions[id].1);
    }
  }

  /** `files` is the directory: the content of each session's file. */
  class JsonlSessionStore {
    var files: Files

    constructor ()
      ensures files == FilesAfter([])
    {
      files := map[];
    }

    method Create(meta: Meta) returns (r: Result<string, Error>)
      modifies this
      ensures files == FileStep(old(files), Op.Create(meta)).0
      ensures FileStep(old(files), Op.Create(meta)).1 == if r.Ok? then Created(r.value) else Failed(r.error)
    {
      if meta.id in files { return Err(DuplicateId(meta.id)); }
      var line := EncodeMeta(meta);
      line := line + "\n";
      files := files[meta.id := line];
      r := Ok(meta.id);
    }

    method Append(id: string, entry: Entry) returns (r: Result<(), Error>)
      modifies this
      ensures files == FileStep(old(files), Op.Append(id, entry)).0
      ensures FileStep(old(files), Op.Append(id, entry)).1 == if r.Ok? then Appended else Failed(r.error)
    {
      if id !in files { return Err(NotFound(id)); }
      var line := EncodeEntry(entry);
      line := line + "\n";
      files := files[id := files[id] + line];
      r := Ok(());
    }

    /** An append that dies after `cut` characters of its line. */
    method CrashAppend(id: string, entry: Entry, cut: nat)
      modifies this
      ensures files == FileStep(old(files), Op.CrashAppend(id, entry, cut)).0
    {
      if id in files {
        var line := EncodeEntry(entry);
        line := line + "\n";
        files := files[id := files[id] + (if cut < |line| then line[..cut] else line)];
      }
    }

    method Load(id: string) returns (r: Result<seq<Entry>, Error>)
      modifies this
      ensures files == FileStep(old(files), Op.Load(id)).0
      ensures FileStep(old(files), Op.Load(id)).1 == LoadReply(r)
    {
      if id !in files { return Err(NotFound(id)); }
      var content := files[id];
      var completeLen := CompleteLen(content);
      if completeLen < |content| {
        files := files[id := content[..completeLen]];
      } else {
        assert content[..completeLen] == content;
        assert files[id := content] == files;
      }
      r := ParseLines(Lines(content[..completeLen]));
    }

    static method ParseLines(lines: seq<string>) returns (r: Result<seq<Entry>, Error>)
      ensures r ==
        if lines == [] then Err(MissingHeader)
        else if DecodeMeta(lines[0]).None? then Err(BadHeader)
        else ParseEntries(lines[1..], 2)
    {
      if lines == [] { return Err(MissingHeader); }
      if DecodeMeta(lines[0]).None? { return Err(BadHeader); }
      var entries: seq<Entry> := [];
      var i := 1;
      PrependSplit([], ParseEntries(lines[1..], 2));
      while i < |lines|
        invariant 1 <= i <= |lines|
        invariant ParseEntries(lines[1..], 2) == Prepend(entries, ParseEntries(lines[i..], i + 1))
      {
        assert lines[i..][1..] == lines[i + 1..];
        match DecodeEntry(lines[i])
        case None => return Err(BadEntry(i + 1));
        case Some(entry) =>
          PrependOne(entries, entry, ParseEntries(lines[i + 1..], i + 2));
          entries := entries + [entry];
          i := i + 1;
      }
      assert entries + [] == entries;
      r := Ok(entries);
    }
  }

  lemma PrependOne(es: seq<Entry>, e: Entry, r: Result<seq<Entry>, Error>)
    ensures Prepend(es, Prepend([e], r)) == Prepend(es + [e], r)
  {
    if r.Ok? { assert es + ([e] + r.value) == es + [e] + r.value; }
  }
}
