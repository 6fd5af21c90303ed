/** Session logs: an append-only file of lines that must behave like a list in memory.

    A file is a string of characters. The line codec is a small concrete stand-in for the
    JSON serializer with its essential property, the escaping of quotes, backslashes and line
    breaks; `create` and `append` write one encoded line and a newline, `load` repairs a torn
    tail. A crash may cut the line being appended at any character. */
module SessionLog {
  import opened Options
  import opened Sequences

  // ---------------------------------------------------------------- the line codec

  datatype Meta = Meta(id: string, createdAt: string)

  datatype Entry =
    | Message(id: string, timestamp: string, text: string)
    | Compaction(id: string, timestamp: string, summary: string, firstKeptId: string)

  function EscapeChar(c: char): string {
    match c
    case '\"' => "\\\""
    case '\\' => "\\\\"
    case '\n' => "\\n"
    case '\r' => "\\r"
    case _ => [c]
  }

  function Escape(s: string): string {
    if s == "" then "" else EscapeChar(s[0]) + Escape(s[1..])
  }

  function Quote(s: string): string { "\"" + Escape(s) + "\"" }

  function EncodeFields(fs: seq<string>): string {
    if fs == [] then "" else Quote(fs[0]) + EncodeFields(fs[1..])
  }

  function UnescapeChar(c: char): Option<char> {
    match c
    case '\"' => Some('\"')
    case '\\' => Some('\\')
    case 'n' => Some('\n')
    case 'r' => Some('\r')
    case _ => None
  }

  /** Reads up to the closing quote: the text read, and what follows the quote. */
  function Unquote(s: string): (r: Option<(string, string)>)
    ensures r.Some? ==> |r.value.1| < |s|
  {
    if s == "" || s[0] == '\n' || s[0] == '\r' then None
    else if s[0] == '\"' then Some(("", s[1..]))
    else if s[0] == '\\' then
      if |s| == 1 || UnescapeChar(s[1]).None? then None
      else match Unquote(s[2..])
        case Some((text, rest)) => Some(([UnescapeChar(s[1]).value] + text, rest))
        case None => None
    else match Unquote(s[1..])
      case Some((text, rest)) => Some(([s[0]] + text, rest))
      case None => None
  }

  function DecodeFields(s: string): Option<seq<string>>
    decreases |s|
  {
    if s == "" then Some([])
    else if s[0] != '\"' then None
    else match Unquote(s[1..])
      case None => None
      case Some((f, rest)) =>
        match DecodeFields(rest)
        case Some(fs) => Some([f] + fs)
        case None => None
  }

  /** One more character before what was read. */
  function Reading(c: char, r: Option<(string, string)>): Option<(string, string)> {
    if r.Some? then Some(([c] + r.value.0, r.value.1)) else None
  }

  lemma UnquotePlain(c: char, rest: string, s: string)
    requires s == [c] + rest && EscapeChar(c) == [c]
    ensures Unquote(s) == Reading(c, Unquote(rest))
  {
    assert s[1..] == rest;
  }

  lemma UnquoteBackslash(c: char, x: char, rest: string, s: string)
    requires s == ['\\', x] + rest && UnescapeChar(x) == Some(c)
    ensures Unquote(s) == Reading(c, Unquote(rest))
  {
    assert s[2..] == rest;
  }

  /** Reading one escaped character. */
  lemma UnquoteChar(c: char, rest: string)
    ensures Unquote(EscapeChar(c) + rest) == Reading(c, Unquote(rest))
  {
    if |EscapeChar(c)| == 1 {
      UnquotePlain(c, rest, EscapeChar(c) + rest);
    } else {
      UnquoteBackslash(c, EscapeChar(c)[1], rest, EscapeChar(c) + rest);
    }
  }

  lemma {:induction false} UnquoteEscaped(f: string, rest: string)
    ensures Unquote(Escape(f) + "\"" + rest) == Some((f, rest))
  {
    if f == "" {
      assert (Escape(f) + "\"" + rest)[1..] == rest;
    } else {
      var tail := Escape(f[1..]) + "\"" + rest;
      UnquoteEscaped(f[1..], rest);
      UnquoteChar(f[0], tail);
      assert Escape(f) + "\"" + rest == EscapeChar(f[0]) + tail;
      assert f == [f[0]] + f[1..];
    }
  }

  /** Nothing but an escaped text is read back as that text. */
  lemma {:induction false} UnquoteIsCanonical(s: string)
    requires Unquote(s).Some?
    ensures s == Escape(Unquote(s).value.0) + "\"" + Unquote(s).value.1
    decreases |s|
  {
    var (f, rest) := Unquote(s).value;
    if s[0] == '\"' {
    } else {
      var k := if s[0] == '\\' then 2 else 1;
      UnquoteIsCanonical(s[k..]);
      assert f[1..] == Unquote(s[k..]).value.0;
      assert s == s[..k] + s[k..];
      assert s[..k] == EscapeChar(f[0]);
    }
  }

  /** Reading one quoted field. */
  lemma DecodeQuoted(f: string, rest: string)
    ensures DecodeFields(Quote(f) + rest) ==
      if DecodeFields(rest).Some? then Some([f] + DecodeFields(rest).value) else None
  {
    var s := Quote(f) + rest;
    UnquoteEscaped(f, rest);
    assert s[1..] == Escape(f) + "\"" + rest;
  }

  lemma {:induction false} DecodeEncodedFields(fs: seq<string>)
    ensures DecodeFields(EncodeFields(fs)) == Some(fs)
  {
    if fs != [] {
      DecodeQuoted(fs[0], EncodeFields(fs[1..]));
      DecodeEncodedFields(fs[1..]);
      assert fs == [fs[0]] + fs[1..];
    }
  }

  lemma EncodeCons(f: string, fs: seq<string>, all: seq<string>)
    requires all == [f] + fs
    ensures EncodeFields(all) == Quote(f) + EncodeFields(fs)
  {
    assert all[1..] == fs;
  }

  lemma CanonicalStep(s: string, f: string, rest: string, fs: seq<string>)
    requires s != "" && s[0] == '\"' && s[1..] == Escape(f) + "\"" + rest && EncodeFields(fs) == rest
    ensures EncodeFields([f] + fs) == s
  {
    EncodeCons(f, fs, [f] + fs);
    Requote(Escape(f), rest);
    assert s == "\"" + s[1..];
  }

  lemma Requote(text: string, rest: string)
    ensures "\"" + text + "\"" + rest == "\"" + (text + "\"" + rest)
  {}

  lemma {:induction false} FieldsAreCanonical(s: string)
    requires DecodeFields(s).Some?
    ensures EncodeFields(DecodeFields(s).value) == s
    decreases |s|
  {
    if s != "" {
      var (f, rest) := Unquote(s[1..]).value;
      UnquoteIsCanonical(s[1..]);
      FieldsAreCanonical(rest);
      CanonicalStep(s, f, rest, DecodeFields(rest).value);
    }
  }

  function EncodeMeta(m: Meta): string { ['s'] + EncodeFields([m.id, m.createdAt]) }

  function Fields(e: Entry): seq<string> {
    match e
    case Message(id, ts, text) => [id, ts, text]
    case Compaction(id, ts, summary, first) => [id, ts, summary, first]
  }

  function Tag(e: Entry): char { if e.Message? then 'm' else 'c' }

  function EncodeEntry(e: Entry): string { [Tag(e)] + EncodeFields(Fields(e)) }

  function DecodeMeta(line: string): Option<Meta> {
    if line == "" || line[0] != 's' then None
    else match DecodeFields(line[1..])
      case Some(fs) => if |fs| == 2 then Some(Meta(fs[0], fs[1])) else None
      case None => None
  }

  function DecodeEntry(line: string): Option<Entry> {
    if line == "" then None
    else match DecodeFields(line[1..])
      case Some(fs) =>
        if line[0] == 'm' && |fs| == 3 then Some(Message(fs[0], fs[1], fs[2]))
        else if line[0] == 'c' && |fs| == 4 then Some(Compaction(fs[0], fs[1], fs[2], fs[3]))
        else None
      case None => None
  }

  lemma DecodeEncodedMeta(m: Meta)
    ensures DecodeMeta(EncodeMeta(m)) == Some(m)
  {
    DecodeEncodedFields([m.id, m.createdAt]);
    assert EncodeMeta(m)[1..] == EncodeFields([m.id, m.createdAt]);
  }

  /** decode(encode(e)) == e, and no other line decodes to e. */
  lemma EntryRoundTrip(e: Entry, line: string)
    ensures DecodeEntry(line) == Some(e) <==> line == EncodeEntry(e)
  {
    DecodeEncodedFields(Fields(e));
    assert EncodeEntry(e)[1..] == EncodeFields(Fields(e));
    if DecodeEntry(line) == Some(e) {
      FieldsAreCanonical(line[1..]);
      assert DecodeFields(line[1..]).value == Fields(e);
      assert line == [line[0]] + line[1..];
    }
  }

  /** A line without line breaks. */
  predicate OneLine(s: string) { forall i | 0 <= i < |s| :: s[i] != '\n' && s[i] != '\r' }

  lemma {:induction false} EscapedIsOneLine(s: string)
    ensures OneLine(Escape(s))
  {
    if s != "" { EscapedIsOneLine(s[1..]); }
  }

  lemma {:induction false} FieldsAreOneLine(fs: seq<string>)
    ensures OneLine(EncodeFields(fs))
  {
    if fs != [] {
      EscapedIsOneLine(fs[0]);
      FieldsAreOneLine(fs[1..]);
    }
  }

  lemma EntriesAreOneLine(e: Entry)
    ensures OneLine(EncodeEntry(e)) && EncodeEntry(e) != ""
  {
    FieldsAreOneLine(Fields(e));
  }

  // ------------------------------------------------ a torn line fused with the next one

  /** Where a reader of quoted fields is. */
  datatype Scan = Between | InText | InEscape | Dead

  function ScanChar(q: Scan, c: char): Scan {
    match q
    case Between => if c == '\"' then InText else Dead
    case InText =>
      if c == '\"' then Between
      else if c == '\\' then InEscape
      else if c == '\n' || c == '\r' then Dead
      else InText
    case InEscape => if UnescapeChar(c).Some? then InText else Dead
    case Dead => Dead
  }

  function ScanText(q: Scan, s: string): Scan
    decreases |s|
  {
    if s == "" then q else ScanText(ScanChar(q, s[0]), s[1..])
  }

  lemma {:induction false} ScanConcat(q: Scan, a: string, b: string)
    ensures ScanText(q, a + b) == ScanText(ScanText(q, a), b)
    decreases |a|
  {
    if a == "" {
      assert a + b == b;
    } else {
      ScanConcat(ScanChar(q, a[0]), a[1..], b);
      assert (a + b)[1..] == a[1..] + b;
    }
  }

  lemma {:induction false} UnquoteScans(s: string)
    requires Unquote(s).Some?
    ensures ScanText(InText, s) == ScanText(Between, Unquote(s).value.1)
    decreases |s|
  {
    if s[0] == '\"' {
    } else if s[0] == '\\' {
      assert s[1..][1..] == s[2..];
      UnquoteScans(s[2..]);
    } else {
      UnquoteScans(s[1..]);
    }
  }

  /** A text that decodes leaves the reader between two fields. */
  lemma {:induction false} DecodedScans(s: string)
    requires DecodeFields(s).Some?
    ensures ScanText(Between, s) == Between
    decreases |s|
  {
    if s != "" {
      UnquoteScans(s[1..]);
      DecodedScans(Unquote(s[1..]).value.1);
    }
  }

  lemma {:induction false} EscapedScans(f: string)
    ensures ScanText(InText, Escape(f)) == InText
    ensures ScanText(Between, Escape(f)) == if f == "" then Between else Dead
    ensures ScanText(Dead, Escape(f)) == Dead
  {
    if f != "" {
      var x := EscapeChar(f[0]);
      EscapedScans(f[1..]);
      forall q ensures ScanText(q, Escape(f)) == ScanText(ScanText(q, x), Escape(f[1..])) {
        ScanConcat(q, x, Escape(f[1..]));
      }
      assert x == [x[0]] + x[1..];
      if |x| == 2 { assert x[1..] == [x[1]]; }
    }
  }

  /** A reader that is inside a text where a list of fields starts never gets out of step again:
      it ends inside a text, or has failed. */
  lemma {:induction false} OutOfStep(q: Scan, gs: seq<string>)
    requires q == InText || q == Dead
    ensures ScanText(q, EncodeFields(gs)) == InText || ScanText(q, EncodeFields(gs)) == Dead
    decreases |gs|
  {
    if gs != [] {
      var x := Escape(gs[0]);
      EscapedScans(gs[0]);
      ScanConcat(q, Quote(gs[0]), EncodeFields(gs[1..]));
      ScanConcat(q, "\"" + x, "\"");
      ScanConcat(q, "\"", x);
      assert ScanText(q, "\"") == ScanChar(q, '\"');
      var mid := ScanText(q, "\"" + x);
      assert ScanText(mid, "\"") == ScanChar(mid, '\"');
      OutOfStep(ScanText(q, Quote(gs[0])), gs[1..]);
    }
  }

  /** An entry appended onto anything but a line start is lost: the fused line does not decode. */
  lemma FusedLineDoesNotDecode(torn: string, e: Entry)
    requires torn != ""
    ensures DecodeEntry(torn + EncodeEntry(e)) == None
  {
    var line := torn + EncodeEntry(e);
    var fields := EncodeFields(Fields(e));
    assert line[1..] == torn[1..] + ([Tag(e)] + fields);
    ScanConcat(Between, torn[1..], [Tag(e)] + fields);
    var q := ScanText(Between, torn[1..]);
    ScanConcat(q, [Tag(e)], fields);
    assert ScanText(q, [Tag(e)]) == ScanChar(q, Tag(e));
    OutOfStep(ScanText(q, [Tag(e)]), Fields(e));
    if DecodeFields(line[1..]).Some? { DecodedScans(line[1..]); }
  }

  // ---------------------------------------------------------------- files of lines

  function FirstNewline(s: string): (i: nat)
    ensures i <= |s|
  {
    if s == "" || s[0] == '\n' then 0 else FirstNewline(s[1..]) + 1
  }

  /** The first newline, or the end of a text without one. */
  lemma {:induction false} FirstNewlineIs(s: string)
    ensures var i := FirstNewline(s);
      (forall k | 0 <= k < i :: s[k] != '\n') && (i < |s| ==> s[i] == '\n')
  {
    if s != "" && s[0] != '\n' { FirstNewlineIs(s[1..]); }
  }

  /** The length of the text up to and including its last newline. */
  function CompleteLen(s: string): (n: nat)
    ensures n <= |s|
  {
    if s == "" then 0
    else if s[|s| - 1] == '\n' then |s|
    else CompleteLen(s[..|s| - 1])
  }

  lemma {:induction false} CompleteLenIs(s: string)
    ensures var n := CompleteLen(s);
      (n > 0 ==> s[n - 1] == '\n') && forall k | n <= k < |s| :: s[k] != '\n'
  {
    if s != "" && s[|s| - 1] != '\n' { CompleteLenIs(s[..|s| - 1]); }
  }

  function StripCr(line: string): string {
    if line != "" && line[|line| - 1] == '\r' then line[..|line| - 1] else line
  }

  /** `str::lines`. */
  function Lines(s: string): seq<string>
    decreases |s|
  {
    if s == "" then []
    else
      var i := FirstNewline(s);
      if i == |s| then [s] else [StripCr(s[..i])] + Lines(s[i + 1..])
  }

  datatype Error = DuplicateId(id: string) | NotFound(id: string) | MissingHeader | BadHeader | BadEntry(line: nat)

  /** Parses entry lines; an error names the 1-based line of the file. */
  function ParseEntries(lines: seq<string>, lineNo: nat): Result<seq<Entry>, Error> {
    if lines == [] then Ok([])
    else match DecodeEntry(lines[0])
      case None => Err(BadEntry(lineNo))
      case Some(e) =>
        match ParseEntries(lines[1..], lineNo + 1)
        case Ok(es) => Ok([e] + es)
        case Err(x) => Err(x)
  }

  function ParseFile(content: string): Result<seq<Entry>, Error> {
    var lines := Lines(content);
    if lines == [] then Err(MissingHeader)
    else if DecodeMeta(lines[0]).None? then Err(BadHeader)
    else ParseEntries(lines[1..], 2)
  }

  /** load: the file as it is left (torn tail truncated), and the result. */
  function LoadFile(content: string): (string, Result<seq<Entry>, Error>) {
    var complete := content[..CompleteLen(content)];
    (complete, ParseFile(complete))
  }

  function EntryLine(e: Entry): string { EncodeEntry(e) + "\n" }

  function Body(es: seq<Entry>): string {
    if es == [] then "" else EntryLine(es[0]) + Body(es[1..])
  }

  /** The file a session with these entries has when nothing is torn. */
  function FileOf(m: Meta, es: seq<Entry>): string {
    EncodeMeta(m) + "\n" + Body(es)
  }

  /** content is the file of these entries followed by a torn line. */
  predicate Represents(content: string, m: Meta, es: seq<Entry>, torn: string) {
    content == FileOf(m, es) + torn && OneLine(torn)
  }

  lemma FirstNewlineAt(line: string, rest: string)
    requires OneLine(line)
    ensures FirstNewline(line + "\n" + rest) == |line|
  {
    var s := line + "\n" + rest;
    FirstNewlineIs(s);
    assert s[|line|] == '\n';
    assert forall k | 0 <= k < |line| :: s[k] == line[k];
  }

  lemma LinesCons(line: string, rest: string)
    requires OneLine(line)
    ensures Lines(line + "\n" + rest) == [line] + Lines(rest)
  {
    var s := line + "\n" + rest;
    FirstNewlineAt(line, rest);
    assert s[..|line|] == line && s[|line| + 1..] == rest;
  }

  lemma BodyCons(e: Entry, rest: seq<Entry>, all: seq<Entry>)
    requires all == [e] + rest
    ensures Body(all) == EntryLine(e) + Body(rest)
  {
    assert all[1..] == rest;
  }

  lemma {:induction false} BodyAppend(es: seq<Entry>, e: Entry)
    ensures Body(es + [e]) == Body(es) + EntryLine(e)
  {
    if es != [] {
      BodyCons(es[0], es[1..] + [e], es + [e]);
      BodyAppend(es[1..], e);
      Associate(EntryLine(es[0]), Body(es[1..]), EntryLine(e));
    } else {
      BodyCons(e, [], es + [e]);
    }
  }

  lemma {:induction false} BodyEndsLine(es: seq<Entry>)
    ensures Body(es) == "" || Body(es)[|Body(es)| - 1] == '\n'
  {
    if es != [] { BodyEndsLine(es[1..]); }
  }

  function Prepend(es: seq<Entry>, r: Result<seq<Entry>, Error>): Result<seq<Entry>, Error> {
    if r.Ok? then Ok(es + r.value) else r
  }

  lemma PrependSplit(es: seq<Entry>, r: Result<seq<Entry>, Error>)
    ensures Prepend([], r) == r
    ensures es != [] ==> Prepend([es[0]], Prepend(es[1..], r)) == Prepend(es, r)
  {
    if r.Ok? {
      assert [] + r.value == r.value;
      if es != [] { assert [es[0]] + (es[1..] + r.value) == es + r.value; }
    }
  }

  lemma PrependError(es: seq<Entry>, e: Error)
    ensures Prepend(es, Err(e)) == Err(e)
  {}

  function EntryLines(es: seq<Entry>): seq<string> {
    if es == [] then [] else [EncodeEntry(es[0])] + EntryLines(es[1..])
  }

  lemma BodySplit(es: seq<Entry>, rest: string)
    requires es != []
    ensures Body(es) + rest == EncodeEntry(es[0]) + "\n" + (Body(es[1..]) + rest)
  {}

  lemma LinesBodyStep(e: Entry, s: string, tail: string, lines: seq<string>)
    requires s == EncodeEntry(e) + "\n" + tail && Lines(tail) == lines
    ensures Lines(s) == [EncodeEntry(e)] + lines
  {
    EntriesAreOneLine(e);
    LinesCons(EncodeEntry(e), tail);
  }

  lemma {:induction false} LinesOfBody(es: seq<Entry>, rest: string, s: string)
    requires s == Body(es) + rest
    ensures Lines(s) == EntryLines(es) + Lines(rest)
    decreases |es|
  {
    if es == [] {
      assert s == rest;
    } else {
      LinesOfBody(es[1..], rest, Body(es[1..]) + rest);
      BodySplit(es, rest);
      LinesBodyStep(es[0], s, Body(es[1..]) + rest, EntryLines(es[1..]) + Lines(rest));
      Associate([EncodeEntry(es[0])], EntryLines(es[1..]), Lines(rest));
    }
  }

  /** The result of parsing these lines from this line number on. */
  predicate Parses(lines: seq<string>, lineNo: nat, r: Result<seq<Entry>, Error>) {
    ParseEntries(lines, lineNo) == r
  }

  lemma ParseLine(e: Entry, rest: seq<string>, all: seq<string>, lineNo: nat, r: Result<seq<Entry>, Error>)
    requires all == [EncodeEntry(e)] + rest && Parses(rest, lineNo + 1, r)
    ensures Parses(all, lineNo, Prepend([e], r))
  {
    EntryRoundTrip(e, EncodeEntry(e));
    assert all[1..] == rest;
  }

  lemma {:induction false} ParseEntryLines(es: seq<Entry>, rest: seq<string>, all: seq<string>,
                                           lineNo: nat, next: nat, r: Result<seq<Entry>, Error>)
    requires all == EntryLines(es) + rest && next == lineNo + |es| && Parses(rest, next, r)
    ensures Parses(all, lineNo, Prepend(es, r))
    decreases |es|
  {
    PrependSplit(es, r);
    if es == [] {
      assert all == rest;
    } else {
      Associate([EncodeEntry(es[0])], EntryLines(es[1..]), rest);
      ParseEntryLines(es[1..], rest, EntryLines(es[1..]) + rest, lineNo + 1, next, r);
      ParseLine(es[0], EntryLines(es[1..]) + rest, all, lineNo, Prepend(es[1..], r));
    }
  }

  /** Entry lines parse back, whatever lines follow them. */
  lemma {:induction false} ParseBody(es: seq<Entry>, rest: string, s: string, lineNo: nat, next: nat,
                                     r: Result<seq<Entry>, Error>)
    requires s == Body(es) + rest && next == lineNo + |es| && Parses(Lines(rest), next, r)
    ensures Parses(Lines(s), lineNo, Prepend(es, r))
  {
    LinesOfBody(es, rest, s);
    ParseEntryLines(es, Lines(rest), Lines(s), lineNo, next, r);
  }

  /** A file with a header gives what its other lines give. */
  lemma ParseWithHeader(m: Meta, body: string, r: Result<seq<Entry>, Error>)
    requires Parses(Lines(body), 2, r)
    ensures ParseFile(EncodeMeta(m) + "\n" + body) == r
  {
    FieldsAreOneLine([m.id, m.createdAt]);
    LinesCons(EncodeMeta(m), body);
    DecodeEncodedMeta(m);
    assert ([EncodeMeta(m)] + Lines(body))[1..] == Lines(body);
  }

  /** load returns exactly the completed entries, in order, and truncates the torn line. */
  lemma LoadReturnsEntries(content: string, m: Meta, es: seq<Entry>, torn: string)
    requires Represents(content, m, es, torn)
    ensures LoadFile(content) == (FileOf(m, es), Ok(es))
  {
    CompletePrefix(m, es, torn);
    assert content[..|FileOf(m, es)|] == FileOf(m, es);
    assert Body(es) + "" == Body(es) && es + [] == es;
    ParseBody(es, "", Body(es), 2, 2 + |es|, Ok([]));
    ParseWithHeader(m, Body(es), Ok(es));
  }

  lemma CompletePrefix(m: Meta, es: seq<Entry>, torn: string)
    requires OneLine(torn)
    ensures CompleteLen(FileOf(m, es) + torn) == |FileOf(m, es)|
  {
    var f := FileOf(m, es);
    var s := f + torn;
    var n := CompleteLen(s);
    CompleteLenIs(s);
    BodyEndsLine(es);
    assert f[|f| - 1] == '\n' && s[|f| - 1] == '\n';
    assert forall k | |f| <= k < |s| :: s[k] == torn[k - |f|];
  }

  lemma FileAppend(m: Meta, es: seq<Entry>, e: Entry)
    ensures FileOf(m, es) + EntryLine(e) == FileOf(m, es + [e])
  {
    BodyAppend(es, e);
    Associate(EncodeMeta(m) + "\n", Body(es), EntryLine(e));
  }

  lemma EntryPrefixIsOneLine(e: Entry, cut: nat)
    requires cut < |EntryLine(e)|
    ensures OneLine(EntryLine(e)[..cut])
  {
    EntriesAreOneLine(e);
  }

  lemma ParseBadLine(line: string, tail: string, lineNo: nat)
    requires OneLine(line) && DecodeEntry(line) == None && tail == line + "\n" + ""
    ensures Parses(Lines(tail), lineNo, Err(BadEntry(lineNo)))
  {
    LinesCons(line, "");
  }

  lemma ParseBadLast(es: seq<Entry>, line: string, tail: string)
    requires OneLine(line) && DecodeEntry(line) == None && tail == line + "\n" + ""
    ensures Parses(Lines(Body(es) + tail), 2, Err(BadEntry(|es| + 2)))
  {
    ParseBadLine(line, tail, |es| + 2);
    PrependError(es, BadEntry(|es| + 2));
    ParseBody(es, tail, Body(es) + tail, 2, |es| + 2, Err(BadEntry(|es| + 2)));
  }

  lemma Regroup(h: string, b: string, t: string, l: string)
    ensures h + b + t + (l + "\n") == h + (b + (t + l + "\n" + ""))
    ensures var s := h + b + t + (l + "\n"); s[|s| - 1] == '\n' && s[..|s|] == s
  {}

  lemma CleanAppendLoads(m: Meta, es: seq<Entry>, e: Entry)
    ensures LoadFile(FileOf(m, es) + "" + EntryLine(e)) == (FileOf(m, es + [e]), Ok(es + [e]))
  {
    FileAppend(m, es, e);
    assert FileOf(m, es) + "" == FileOf(m, es);
    assert FileOf(m, es + [e]) + "" == FileOf(m, es + [e]);
    LoadReturnsEntries(FileOf(m, es + [e]), m, es + [e], "");
  }

  lemma FusedAppendFails(m: Meta, es: seq<Entry>, torn: string, e: Entry)
    requires OneLine(torn) && torn != ""
    ensures var content := FileOf(m, es) + torn + EntryLine(e);
      LoadFile(content) == (content, Err(BadEntry(|es| + 2)))
  {
    var line := torn + EncodeEntry(e);
    EntriesAreOneLine(e);
    FusedLineDoesNotDecode(torn, e);
    ParseBadLast(es, line, line + "\n" + "");
    ParseWithHeader(m, Body(es) + (line + "\n" + ""), Err(BadEntry(|es| + 2)));
    Regroup(EncodeMeta(m) + "\n", Body(es), torn, EncodeEntry(e));
  }

  /** A completed append that no load separates from an earlier crash: the next load returns
      the completed entries exactly when the crash had left nothing behind; otherwise it fails
      and names the fused line. */
  lemma AppendAfterCrashIff(m: Meta, es: seq<Entry>, torn: string, e: Entry)
    requires OneLine(torn)
    ensures var content := FileOf(m, es) + torn + EntryLine(e);
      LoadFile(content) ==
        if torn == "" then (FileOf(m, es + [e]), Ok(es + [e])) else (content, Err(BadEntry(|es| + 2)))
  {
    if torn == "" { CleanAppendLoads(m, es, e); } else { FusedAppendFails(m, es, torn, e); }
  }

  // ---------------------------------------------------------------- a spoilt file

  /** A file with a complete line that load rejects. */
  predicate Spoilt(content: string) {
    CompleteLen(content) > 0 && LoadFile(content).1.Err?
  }

  lemma FirstNewlineOf(s: string, i: nat)
    requires i < |s| && s[i] == '\n' && forall k | 0 <= k < i :: s[k] != '\n'
    ensures FirstNewline(s) == i
  {
    var n := FirstNewline(s);
    FirstNewlineIs(s);
    assert n <= i;
  }

  lemma LinesHead(s: string, i: nat, head: string, tail: string)
    requires i < |s| && s[i] == '\n' && forall k | 0 <= k < i :: s[k] != '\n'
    requires head == s[..i] && tail == s[i + 1..]
    ensures Lines(s) == [StripCr(head)] + Lines(tail)
  {
    FirstNewlineOf(s, i);
  }

  lemma SliceConcat(a: string, b: string, i: nat)
    requires i < |a|
    ensures (a + b)[..i] == a[..i] && (a + b)[i + 1..] == a[i + 1..] + b
  {}

  /** A line may end with a carriage return and a newline. */
  lemma CrLfEndsALine(line: string)
    requires forall k | 0 <= k < |line| :: line[k] != '\n'
    ensures Lines(line + "\r\n") == [line]
  {
    var s := line + "\r\n";
    LinesHead(s, |line| + 1, line + "\r", "");
    assert (line + "\r")[..|line|] == line;
    assert [line] + [] == [line];
  }

  /** Lines split at a line end. */
  lemma {:induction false} LinesConcat(a: string, b: string)
    requires a == "" || a[|a| - 1] == '\n'
    ensures Lines(a + b) == Lines(a) + Lines(b)
    decreases |a|, 1
  {
    if a == "" {
      assert a + b == b;
    } else {
      var i := FirstNewline(a);
      FirstNewlineIs(a);
      LinesConcatAt(a, b, i, a[..i], a[i + 1..]);
    }
  }

  lemma {:induction false} LinesConcatAt(a: string, b: string, i: nat, head: string, tail: string)
    requires i < |a| && a[|a| - 1] == '\n' && a[i] == '\n' && forall k | 0 <= k < i :: a[k] != '\n'
    requires head == a[..i] && tail == a[i + 1..]
    ensures Lines(a + b) == Lines(a) + Lines(b)
    decreases |a|, 0
  {
    SliceConcat(a, b, i);
    LinesHead(a, i, head, tail);
    LinesHead(a + b, i, head, tail + b);
    LinesConcat(tail, b);
    Associate([StripCr(head)], Lines(tail), Lines(b));
  }

  lemma {:induction false} ParseErrorStays(a: seq<string>, b: seq<string>, lineNo: nat)
    requires ParseEntries(a, lineNo).Err?
    ensures ParseEntries(a + b, lineNo) == ParseEntries(a, lineNo)
    decreases |a|
  {
    assert (a + b)[1..] == a[1..] + b;
    if DecodeEntry(a[0]).Some? { ParseErrorStays(a[1..], b, lineNo + 1); }
  }

  lemma CompletePrefixGrows(content: string, more: string)
    ensures CompleteLen(content) <= CompleteLen(content + more)
    ensures (content + more)[..CompleteLen(content + more)][..CompleteLen(content)] == content[..CompleteLen(content)]
  {
    var n, k := CompleteLen(content + more), CompleteLen(content);
    CompleteLenIs(content);
    CompleteLenIs(content + more);
    assert k > 0 ==> (content + more)[k - 1] == '\n';
  }

  lemma RejectedPrefix(a: string, b: string)
    requires a != "" && a[|a| - 1] == '\n' && ParseFile(a).Err?
    ensures ParseFile(a + b) == ParseFile(a)
  {
    LinesConcat(a, b);
    var x, y := Lines(a), Lines(b);
    assert x != [] && (x + y)[0] == x[0] && (x + y)[1..] == x[1..] + y;
    if DecodeMeta(x[0]).Some? { ParseErrorStays(x[1..], y, 2); }
  }

  /** Once load rejects a file, it rejects it for the same reason whatever is appended. */
  lemma {:induction false} SpoiltForever(content: string, more: string)
    requires Spoilt(content)
    ensures Spoilt(content + more) && LoadFile(content + more).1 == LoadFile(content).1
  {
    var a := content[..CompleteLen(content)];
    var whole := (content + more)[..CompleteLen(content + more)];
    CompleteLenIs(content);
    CompletePrefixGrows(content, more);
    SplitAt(whole, a);
    RejectedPrefix(a, whole[|a|..]);
  }

  lemma SplitAt(whole: string, a: string)
    requires |a| <= |whole| && whole[..|a|] == a
    ensures whole == a + whole[|a|..]
  {}

  /** load leaves a rejected file rejected. */
  lemma SpoiltAfterLoad(content: string)
    requires Spoilt(content)
    ensures Spoilt(LoadFile(content).0) && LoadFile(LoadFile(content).0) == LoadFile(content)
  {
    var a := content[..CompleteLen(content)];
    CompleteLenIs(content);
    assert CompleteLen(a) == |a| && a[..|a|] == a;
  }

  /** A header torn by a crash in create can never be loaded. */
  lemma TornHeaderFails(m: Meta, cut: nat)
    requires cut <= |EncodeMeta(m)|
    ensures LoadFile(EncodeMeta(m)[..cut]) == ("", Err(MissingHeader))
  {
    var s := EncodeMeta(m)[..cut];
    FieldsAreOneLine([m.id, m.createdAt]);
    assert EncodeMeta(m) == ['s'] + EncodeFields([m.id, m.createdAt]);
    assert OneLine(s);
    CompleteLenIs(s);
    assert CompleteLen(s) == 0;
  }
}
