/**
 Live updates: the frames the server prints and the browser's incremental parser. Text is a
 sequence of characters; the browser's streaming decoder already takes care of characters cut
 across chunks.
 */
module RunStream {
  import opened Options

  /** A live event; `data` is its JSON text. */
  datatype Frame = Frame(id: string, kind: string, data: string)

  /** What the consumer looks at in the JSON of an event. */
  datatype Event = Event(id: string, kind: string)

  const PREAMBLE := "retry: 2000"
  const WINDOW := 500

  function Body(f: Frame): string {
    "id: " + f.id + "\n" + ("event: " + f.kind + "\n" + ("data: " + f.data))
  }

  /** What the server sends: a reconnection hint, then one frame per event. */
  function Print(frames: seq<Frame>): string {
    PREAMBLE + "\n\n" + PrintFrames(frames)
  }

  function PrintFrames(frames: seq<Frame>): string {
    if frames == [] then "" else Body(frames[0]) + "\n\n" + PrintFrames(frames[1..])
  }

  predicate OneLine(s: string) {
    '\n' !in s && '\r' !in s
  }

  /** JSON escapes line breaks, ids are UUIDs, event types are constants. */
  predicate Printable(f: Frame) {
    OneLine(f.id) && OneLine(f.kind) && OneLine(f.data) && f.data != ""
  }

  // ----- Blocks -----

  predicate BreakAt(s: string, i: int) {
    0 <= i && i + 1 < |s| && s[i] == '\n' && s[i + 1] == '\n'
  }

  /** The first blank line. */
  function Boundary(s: string): (b: Option<nat>)
    ensures b.Some? ==> BreakAt(s, b.value) && forall i :: 0 <= i < b.value ==> !BreakAt(s, i)
    ensures b.None? ==> forall i :: 0 <= i < |s| ==> !BreakAt(s, i)
  {
    if |s| < 2 then None
    else if s[0] == '\n' && s[1] == '\n' then Some(0)
    else
      assert forall i :: 1 <= i < |s| ==> BreakAt(s, i) == BreakAt(s[1..], i - 1);
      match Boundary(s[1..])
      case None => None
      case Some(i) => Some(i + 1)
  }

  /** The complete blocks of a text and what is left over. */
  function Cut(text: string): (cut: (seq<string>, string)) {
    match Boundary(text)
    case None => ([], text)
    case Some(b) =>
      var rest := Cut(text[b + 2..]);
      ([text[..b]] + rest.0, rest.1)
  }

  lemma BoundaryStays(a: string, b: string)
    requires Boundary(a).Some?
    ensures Boundary(a + b) == Boundary(a)
  {
    hide Boundary;
    var k := Boundary(a).value;
    assert BreakAt(a + b, k);
    forall i | 0 <= i < k
      ensures !BreakAt(a + b, i)
    {
      assert !BreakAt(a, i);
    }
  }

  /** Cutting can be done in instalments. */
  lemma {:induction false} CutInTurns(a: string, b: string)
    ensures var first := Cut(a);
            var second := Cut(first.1 + b);
            Cut(a + b) == (first.0 + second.0, second.1)
    decreases |a|
  {
    hide Boundary;
    match Boundary(a) {
      case None => assert [] + Cut(a + b).0 == Cut(a + b).0;
      case Some(k) =>
        BoundaryStays(a, b);
        assert (a + b)[k + 2..] == a[k + 2..] + b && (a + b)[..k] == a[..k];
        CutInTurns(a[k + 2..], b);
        var later := Cut(a[k + 2..]);
        var second := Cut(later.1 + b);
        assert Cut(a) == ([a[..k]] + later.0, later.1);
        assert Cut(a + b) == ([a[..k]] + (later.0 + second.0), second.1);
        assert [a[..k]] + (later.0 + second.0) == [a[..k]] + later.0 + second.0;
    }
  }

  // ----- Carriage returns -----

  /** replaceAll("\r\n", "\n") */
  function Normalize(s: string): string {
    if |s| >= 2 && s[0] == '\r' && s[1] == '\n' then "\n" + Normalize(s[2..])
    else if s == "" then ""
    else [s[0]] + Normalize(s[1..])
  }

  /** The cut falls between a carriage return and its line feed. */
  predicate Splits(a: string, b: string) {
    a != "" && b != "" && a[|a| - 1] == '\r' && b[0] == '\n'
  }

  predicate PairFirst(s: string) {
    |s| >= 2 && s[0] == '\r' && s[1] == '\n'
  }

  lemma NormalizePair(s: string)
    requires PairFirst(s)
    ensures Normalize(s) == ['\n'] + Normalize(s[2..])
  {
  }

  lemma NormalizeOther(s: string)
    requires s != "" && !PairFirst(s)
    ensures Normalize(s) == [s[0]] + Normalize(s[1..])
  {
  }

  lemma Regroup(x: char, s: string, t: string)
    ensures [x] + (s + t) == [x] + s + t
  {
  }

  /** Normalising two pieces separately loses nothing but a split pair. */
  predicate Joined(a: string, b: string) {
    if Splits(a, b) then |Normalize(a + b)| < |Normalize(a)| + |Normalize(b)|
    else Normalize(a + b) == Normalize(a) + Normalize(b)
  }

  lemma JoinedAfterPair(a: string, b: string)
    requires PairFirst(a) && Joined(a[2..], b)
    ensures Joined(a, b)
  {
    hide Normalize;
    NormalizePair(a);
    NormalizePair(a + b);
    assert (a + b)[2..] == a[2..] + b;
    Regroup('\n', Normalize(a[2..]), Normalize(b));
  }

  lemma JoinedAfterOther(a: string, b: string)
    requires a != "" && !PairFirst(a) && !PairFirst(a + b) && Joined(a[1..], b)
    ensures Joined(a, b)
  {
    hide Normalize;
    NormalizeOther(a);
    NormalizeOther(a + b);
    assert (a + b)[1..] == a[1..] + b;
    Regroup(a[0], Normalize(a[1..]), Normalize(b));
  }

  lemma JoinedAcrossPair(a: string, b: string)
    requires |a| == 1 && Splits(a, b)
    ensures Joined(a, b)
  {
    hide Normalize;
    NormalizePair(a + b);
    NormalizeOther(a);
    NormalizeOther(b);
    assert (a + b)[2..] == b[1..];
  }

  lemma {:induction false} NormalizeJoin(a: string, b: string)
    ensures Joined(a, b)
    decreases |a|
  {
    if a == "" {
      assert a + b == b;
    } else {
      hide Joined;
      if PairFirst(a) {
        NormalizeJoin(a[2..], b);
        JoinedAfterPair(a, b);
      } else if |a| == 1 && Splits(a, b) {
        JoinedAcrossPair(a, b);
      } else {
        NormalizeJoin(a[1..], b);
        JoinedAfterOther(a, b);
      }
    }
  }

  function Join(chunks: seq<string>): string {
    if chunks == [] then "" else Join(chunks[..|chunks| - 1]) + chunks[|chunks| - 1]
  }

  function JoinNormalized(chunks: seq<string>): string {
    if chunks == [] then "" else JoinNormalized(chunks[..|chunks| - 1]) + Normalize(chunks[|chunks| - 1])
  }

  /** No cut falls inside a CR LF pair. */
  predicate CleanCuts(chunks: seq<string>) {
    chunks == [] ||
    (CleanCuts(chunks[..|chunks| - 1]) && !Splits(Join(chunks[..|chunks| - 1]), chunks[|chunks| - 1]))
  }

  lemma {:induction false} NormalizedLength(chunks: seq<string>)
    ensures |Normalize(Join(chunks))| <= |JoinNormalized(chunks)|
    ensures !CleanCuts(chunks) ==> |Normalize(Join(chunks))| < |JoinNormalized(chunks)|
    ensures CleanCuts(chunks) ==> Normalize(Join(chunks)) == JoinNormalized(chunks)
  {
    if chunks != [] {
      var init, last := chunks[..|chunks| - 1], chunks[|chunks| - 1];
      NormalizedLength(init);
      NormalizeJoin(Join(init), last);
    }
  }

  /** Normalising chunk by chunk gives the normalised text if and only if no cut falls inside
      a CR LF pair. */
  lemma ChunkwiseNormalizeIff(chunks: seq<string>)
    ensures JoinNormalized(chunks) == Normalize(Join(chunks)) <==> CleanCuts(chunks)
  {
    NormalizedLength(chunks);
  }

  /** The text that was cut. */
  function Uncut(blocks: seq<string>, rest: string): string {
    if blocks == [] then rest else blocks[0] + "\n\n" + Uncut(blocks[1..], rest)
  }

  lemma {:induction false} CutUndone(text: string)
    ensures Uncut(Cut(text).0, Cut(text).1) == text
    decreases |text|
  {
    hide Boundary;
    match Boundary(text) {
      case None =>
      case Some(b) =>
        var rest := Cut(text[b + 2..]);
        CutUndone(text[b + 2..]);
        assert ([text[..b]] + rest.0)[1..] == rest.0;
        assert text == text[..b] + "\n\n" + text[b + 2..];
    }
  }

  /** What the reader finds is what it would find in the whole text at once, if and only if no
      cut falls inside a CR LF pair. */
  lemma ReadsAsWholeIff(chunks: seq<string>)
    ensures ReadAll(chunks) == Cut(Normalize(Join(chunks))) <==> CleanCuts(chunks)
  {
    hide Cut, Normalize, Join, CleanCuts, JoinNormalized, ReadAll;
    ReadAllCuts(chunks);
    ChunkwiseNormalizeIff(chunks);
    CutUndone(JoinNormalized(chunks));
    CutUndone(Normalize(Join(chunks)));
  }

  /** The same four characters in two chunks are a blank line or not, depending on the cut. */
  lemma CutMatters()
    ensures Join(["\r\n", "\r\n"]) == Join(["\r\n\r", "\n"])
    ensures JoinNormalized(["\r\n", "\r\n"]) == "\n\n" && JoinNormalized(["\r\n\r", "\n"]) == "\n\r\n"
  {
    var x, y := ["\r\n", "\r\n"], ["\r\n\r", "\n"];
    assert x[..1] == ["\r\n"] && x[..1][..0] == [] && y[..1] == ["\r\n\r"] && y[..1][..0] == [];
    assert "\r\n"[2..] == "" && "\r\n\r"[2..] == "\r" && "\r"[1..] == "" && "\n"[1..] == "";
    assert Normalize("\r\n") == "\n" && Normalize("\n") == "\n";
    assert Normalize("\r\n\r") == "\n" + Normalize("\r");
  }

  lemma {:induction false} NoReturns(s: string)
    requires '\r' !in s
    ensures Normalize(s) == s
  {
    if s != "" {
      NoReturns(s[1..]);
    }
  }

  lemma {:induction false} NoReturnsClean(chunks: seq<string>)
    requires '\r' !in Join(chunks)
    ensures CleanCuts(chunks)
  {
    if chunks != [] {
      NoReturnsClean(chunks[..|chunks| - 1]);
      var a := Join(chunks[..|chunks| - 1]);
      assert a != "" ==> a[|a| - 1] == Join(chunks)[|a| - 1];
    }
  }

  // ----- Reading in chunks -----

  /** All blocks found while the chunks arrive one after the other. */
  function ReadAll(chunks: seq<string>): (seq<string>, string) {
    if chunks == [] then ([], "")
    else
      var before := ReadAll(chunks[..|chunks| - 1]);
      var now := Cut(before.1 + Normalize(chunks[|chunks| - 1]));
      (before.0 + now.0, now.1)
  }

  lemma {:induction false} ReadAllCuts(chunks: seq<string>)
    ensures ReadAll(chunks) == Cut(JoinNormalized(chunks))
  {
    if chunks != [] {
      ReadAllCuts(chunks[..|chunks| - 1]);
      CutInTurns(JoinNormalized(chunks[..|chunks| - 1]), Normalize(chunks[|chunks| - 1]));
    }
  }

  // ----- Parsing undoes printing -----

  function LineEnd(s: string): (e: nat)
    ensures e <= |s| && '\n' !in s[..e] && (e < |s| ==> s[e] == '\n')
  {
    if s == "" || s[0] == '\n' then 0 else 1 + LineEnd(s[1..])
  }

  /** The rest of the first line that starts with `name`. */
  function Field(name: string, block: string): Option<string>
    decreases |block|
  {
    var e := LineEnd(block);
    if name <= block[..e] then Some(block[|name|..e])
    else if e == |block| then None
    else Field(name, block[e + 1..])
  }

  function ParseBlock(decode: string -> Option<Event>, block: string): Option<Event> {
    match Field("data: ", block)
    case None => None
    case Some(data) => if data == "" then None else decode(data)
  }

  /** A block is decoded if it has a data line with something in it, and ignored otherwise. */
  lemma DecodedIffData(decode: string -> Option<Event>, block: string)
    ensures ParseBlock(decode, block) ==
            if Field("data: ", block) in {None, Some("")} then None else decode(Field("data: ", block).value)
  {
  }

  lemma {:induction false} LineEndIs(line: string, rest: string)
    requires '\n' !in line && (rest == "" || rest[0] == '\n')
    ensures LineEnd(line + rest) == |line|
  {
    if line != "" {
      assert (line + rest)[1..] == line[1..] + rest;
      LineEndIs(line[1..], rest);
    } else {
      assert line + rest == rest;
    }
  }

  lemma {:induction false} FirstLine(name: string, line: string, rest: string)
    requires '\n' !in line
    ensures Field(name, line + "\n" + rest) == if name <= line then Some(line[|name|..]) else Field(name, rest)
  {
    var s := line + "\n" + rest;
    assert s == line + ("\n" + rest);
    LineEndIs(line, "\n" + rest);
    assert s[..|line|] == line && s[|line| + 1..] == rest;
  }

  lemma {:induction false} LastLine(name: string, line: string)
    requires '\n' !in line
    ensures Field(name, line) == if name <= line then Some(line[|name|..]) else None
  {
    LineEndIs(line, "");
    assert line + "" == line && line[..|line|] == line;
  }

  /** Every field of a frame is found again under its name: `id`, `event` and `data`. */
  lemma ParseUndoesPrint(f: Frame)
    requires Printable(f)
    ensures Field("id: ", Body(f)) == Some(f.id)
    ensures Field("event: ", Body(f)) == Some(f.kind)
    ensures Field("data: ", Body(f)) == Some(f.data)
  {
    hide Field;
    var id, kind, data := "id: " + f.id, "event: " + f.kind, "data: " + f.data;
    assert id[0] == 'i' && kind[0] == 'e' && data[0] == 'd';
    assert id[4..] == f.id && kind[7..] == f.kind && data[6..] == f.data;
    forall name | name in {"id: ", "event: ", "data: "}
      ensures Field(name, Body(f)) == if name <= id then Some(id[|name|..])
                                      else if name <= kind then Some(kind[|name|..])
                                      else if name <= data then Some(data[|name|..]) else None
    {
      FirstLine(name, id, kind + "\n" + data);
      FirstLine(name, kind, data);
      LastLine(name, data);
    }
  }

  lemma PreambleIsLine()
    ensures '\n' !in PREAMBLE && '\r' !in PREAMBLE && !("data: " <= PREAMBLE)
  {
    assert PREAMBLE[0] == 'r';
  }

  /** The preamble is a reconnection hint and carries no data. */
  lemma PreambleIgnored()
    ensures Field("data: ", PREAMBLE) == None && Field("retry: ", PREAMBLE) == Some("2000")
  {
    PreambleIsLine();
    hide Field;
    LastLine("data: ", PREAMBLE);
    LastLine("retry: ", PREAMBLE);
    assert PREAMBLE[7..] == "2000";
  }

  lemma {:induction false} BreakAfterLine(line: string, rest: string)
    requires '\n' !in line
    ensures Boundary(line + "\n\n" + rest) == Some(|line|)
  {
    hide Boundary;
    var s := line + "\n\n" + rest;
    assert BreakAt(s, |line|);
    forall i | 0 <= i < |line|
      ensures !BreakAt(s, i)
    {
      assert s[i] == line[i] && line[i] in line;
    }
  }

  /** A line followed by something that does not begin with a line feed holds no blank line. */
  lemma {:induction false} NoBreakInLine(line: string, rest: string, k: nat)
    requires '\n' !in line && rest != "" && rest[0] != '\n' && Boundary(rest) == Some(k)
    ensures Boundary(line + "\n" + rest) == Some(|line| + 1 + k)
  {
    var s := line + "\n" + rest;
    if line == "" {
      assert s[1..] == rest;
    } else {
      assert s[0] == line[0] && s[1..] == line[1..] + "\n" + rest;
      NoBreakInLine(line[1..], rest, k);
    }
  }

  lemma BodyIsOneBlock(f: Frame, rest: string)
    requires Printable(f)
    ensures Boundary(Body(f) + "\n\n" + rest) == Some(|Body(f)|)
  {
    hide Boundary;
    var id, kind, data := "id: " + f.id, "event: " + f.kind, "data: " + f.data;
    var tail := data + "\n\n" + rest;
    BreakAfterLine(data, rest);
    NoBreakInLine(kind, tail, |data|);
    var inner := kind + "\n" + tail;
    NoBreakInLine(id, inner, |kind| + 1 + |data|);
    assert Body(f) + "\n\n" + rest == id + "\n" + inner;
  }

  function Bodies(frames: seq<Frame>): seq<string> {
    if frames == [] then [] else [Body(frames[0])] + Bodies(frames[1..])
  }

  ghost predicate AllPrintable(frames: seq<Frame>) {
    forall i :: 0 <= i < |frames| ==> Printable(frames[i])
  }

  lemma {:induction false} CutFrames(frames: seq<Frame>)
    requires AllPrintable(frames)
    ensures Cut(PrintFrames(frames)) == (Bodies(frames), "")
  {
    if frames != [] {
      var f, rest := frames[0], PrintFrames(frames[1..]);
      var text := Body(f) + "\n\n" + rest;
      BodyIsOneBlock(f, rest);
      assert text[..|Body(f)|] == Body(f) && text[|Body(f)| + 2..] == rest;
      CutFrames(frames[1..]);
    }
  }

  lemma {:induction false} NoReturnsPrinted(frames: seq<Frame>)
    requires AllPrintable(frames)
    ensures '\r' !in PrintFrames(frames)
  {
    if frames != [] {
      NoReturnsPrinted(frames[1..]);
      assert Printable(frames[0]);
      assert '\r' !in Body(frames[0]);
    }
  }

  lemma WholeStream(frames: seq<Frame>)
    requires AllPrintable(frames)
    ensures Cut(Print(frames)) == ([PREAMBLE] + Bodies(frames), "") && '\r' !in Print(frames)
  {
    hide Boundary;
    var text := Print(frames);
    PreambleIsLine();
    NoReturnsPrinted(frames);
    BreakAfterLine(PREAMBLE, PrintFrames(frames));
    assert text[..|PREAMBLE|] == PREAMBLE && text[|PREAMBLE| + 2..] == PrintFrames(frames);
    CutFrames(frames);
  }

  /** However the server's stream is cut into chunks, the reader finds exactly the blocks the
      server printed, with nothing left over. */
  lemma ChunksDoNotMatter(frames: seq<Frame>, chunks: seq<string>)
    requires AllPrintable(frames) && Join(chunks) == Print(frames)
    ensures ReadAll(chunks) == ([PREAMBLE] + Bodies(frames), "")
  {
    hide Boundary, Cut, ReadAll, PrintFrames, Normalize, CleanCuts;
    WholeStream(frames);
    NoReturns(Print(frames));
    NoReturnsClean(chunks);
    ChunkwiseNormalizeIff(chunks);
    ReadAllCuts(chunks);
  }

  function ParseAll(decode: string -> Option<Event>, blocks: seq<string>): seq<Option<Event>> {
    seq(|blocks|, i requires 0 <= i < |blocks| => ParseBlock(decode, blocks[i]))
  }

  lemma {:induction false} BodyAt(frames: seq<Frame>, i: nat)
    requires i < |frames|
    ensures |Bodies(frames)| == |frames| && Bodies(frames)[i] == Body(frames[i])
  {
    if |frames| > 1 {
      BodyAt(frames[1..], if i == 0 then 0 else i - 1);
    }
  }

  /** So the parsed events are the printed events, in order, behind the ignored preamble. */
  lemma EventsArriveAsPrinted(decode: string -> Option<Event>, frames: seq<Frame>, chunks: seq<string>)
    requires AllPrintable(frames) && Join(chunks) == Print(frames)
    ensures var parsed := ParseAll(decode, ReadAll(chunks).0);
            && |parsed| == |frames| + 1 && parsed[0] == None
            && forall i :: 0 <= i < |frames| ==> parsed[i + 1] == decode(frames[i].data)
  {
    hide ReadAll, PrintFrames, Field, Body;
    ChunksDoNotMatter(frames, chunks);
    PreambleIgnored();
    var blocks := ReadAll(chunks).0;
    assert frames == [] ==> |Bodies(frames)| == 0;
    forall i | 0 <= i < |frames|
      ensures |Bodies(frames)| == |frames| && ParseBlock(decode, blocks[i + 1]) == decode(frames[i].data)
    {
      BodyAt(frames, i);
      ParseUndoesPrint(frames[i]);
    }
  }

  /** A connection that breaks anywhere has delivered a prefix of the printed blocks. */
  lemma InterruptedStream(frames: seq<Frame>, chunks: seq<string>, lost: string)
    requires AllPrintable(frames) && Join(chunks) + lost == Print(frames)
    ensures ReadAll(chunks).0 <= [PREAMBLE] + Bodies(frames)
    ensures lost == "" ==> ReadAll(chunks).0 == [PREAMBLE] + Bodies(frames)
  {
    hide Boundary, Cut, ReadAll, PrintFrames, Normalize, CleanCuts;
    var text := Join(chunks);
    WholeStream(frames);
    assert forall i :: 0 <= i < |text| ==> text[i] == Print(frames)[i];
    NoReturns(text);
    NoReturnsClean(chunks);
    ChunkwiseNormalizeIff(chunks);
    ReadAllCuts(chunks);
    CutInTurns(text, lost);
    assert lost == "" ==> text + lost == text;
  }

  // ----- Duplicates -----

  /** The ids seen lately, oldest first, and the ids that caused a refresh, oldest first. */
  datatype View = View(seen: seq<string>, refreshed: seq<string>)

  function Notice(v: View, parsed: Option<Event>): View {
    match parsed
    case None => v
    case Some(e) =>
      if e.kind == "stream.heartbeat" || e.id in v.seen then v
      else
        var seen := v.seen + [e.id];
        View(if |seen| > WINDOW then seen[1..] else seen, v.refreshed + [e.id])
  }

  function NoticeAll(v: View, decode: string -> Option<Event>, blocks: seq<string>): View
    decreases |blocks|
  {
    if blocks == [] then v else NoticeAll(Notice(v, ParseBlock(decode, blocks[0])), decode, blocks[1..])
  }

  function Recent(ids: seq<string>): seq<string> {
    if |ids| <= 500 then ids else ids[|ids| - 500..]
  }

  /** No id causes two refreshes unless 500 others came between. */
  ghost predicate Spaced(ids: seq<string>) {
    forall i, j :: 0 <= i < j < |ids| && ids[i] == ids[j] ==> j - i > 500
  }

  ghost predicate ViewOk(v: View) {
    v.seen == Recent(v.refreshed) && Spaced(v.refreshed)
  }

  lemma RecentGrows(ids: seq<string>, id: string)
    ensures var seen := Recent(ids) + [id];
            Recent(ids + [id]) == if |seen| > 500 then seen[1..] else seen
    ensures |Recent(ids)| <= 500
  {
  }

  lemma SpacedGrows(ids: seq<string>, id: string)
    requires Spaced(ids) && id !in Recent(ids)
    ensures Spaced(ids + [id])
  {
    var n := |ids|;
    forall i | 0 <= i < n && n - i <= 500
      ensures ids[i] != id
    {
      var k := if n <= 500 then i else i - (n - 500);
      assert Recent(ids)[k] == ids[i];
    }
  }

  lemma NoticeOk(v: View, parsed: Option<Event>)
    requires ViewOk(v)
    ensures ViewOk(Notice(v, parsed)) && |Notice(v, parsed).seen| <= 500
  {
    if parsed.Some? && parsed.value.id !in v.seen {
      RecentGrows(v.refreshed, parsed.value.id);
      SpacedGrows(v.refreshed, parsed.value.id);
      hide Recent, Spaced;
    }
  }

  lemma {:induction false} NoticeAllOk(v: View, decode: string -> Option<Event>, blocks: seq<string>)
    requires ViewOk(v)
    ensures ViewOk(NoticeAll(v, decode, blocks)) && |NoticeAll(v, decode, blocks).seen| <= 500
    decreases |blocks|
  {
    if blocks != [] {
      NoticeOk(v, ParseBlock(decode, blocks[0]));
      NoticeAllOk(Notice(v, ParseBlock(decode, blocks[0])), decode, blocks[1..]);
    }
  }

  lemma {:induction false} NoticeInTurns(v: View, decode: string -> Option<Event>, a: seq<string>, b: seq<string>)
    ensures NoticeAll(v, decode, a + b) == NoticeAll(NoticeAll(v, decode, a), decode, b)
    decreases |a|
  {
    if a == [] {
      assert a + b == b;
    } else {
      assert (a + b)[1..] == a[1..] + b;
      NoticeInTurns(Notice(v, ParseBlock(decode, a[0])), decode, a[1..], b);
    }
  }

  /** The ids announced by a sequence of blocks: no heartbeats, nothing undecodable. */
  function Ids(decode: string -> Option<Event>, blocks: seq<string>): seq<string> {
    if blocks == [] then []
    else
      (match ParseBlock(decode, blocks[0])
       case None => []
       case Some(e) => if e.kind == "stream.heartbeat" then [] else [e.id]) + Ids(decode, blocks[1..])
  }

  ghost predicate Distinct(ids: seq<string>) {
    forall i, j :: 0 <= i < j < |ids| ==> ids[i] != ids[j]
  }

  /** Every id that arrives for the first time causes one refresh, in order of arrival. */
  lemma {:induction false} EveryNewIdRefreshes(v: View, decode: string -> Option<Event>, blocks: seq<string>)
    requires ViewOk(v) && Distinct(v.refreshed + Ids(decode, blocks))
    ensures NoticeAll(v, decode, blocks).refreshed == v.refreshed + Ids(decode, blocks)
    decreases |blocks|
  {
    if blocks != [] {
      var parsed := ParseBlock(decode, blocks[0]);
      var w, old', later := Notice(v, parsed), v.refreshed, Ids(decode, blocks[1..]);
      NoticeOk(v, parsed);
      if parsed.None? || parsed.value.kind == "stream.heartbeat" {
        assert [] + later == later;
      } else {
        var id := parsed.value.id;
        assert old' + ([id] + later) == old' + [id] + later;
        NewIdUnseen(v, id, later);
      }
      EveryNewIdRefreshes(w, decode, blocks[1..]);
    }
  }

  lemma NewIdUnseen(v: View, id: string, later: seq<string>)
    requires ViewOk(v) && Distinct(v.refreshed + [id] + later)
    ensures id !in v.seen
  {
    var all := v.refreshed + [id] + later;
    forall k | 0 <= k < |v.seen|
      ensures v.seen[k] != id
    {
      var i := if |v.refreshed| <= 500 then k else k + |v.refreshed| - 500;
      assert all[i] == v.seen[k] && all[|v.refreshed|] == id;
    }
  }

  /** The reading loop of the browser. A reconnection starts a new buffer, but remembers the
      ids it has seen. */
  class StreamReader {
    const decode: string -> Option<Event>
    var buffer: string
    var seen: seq<string>
    var refreshed: seq<string>

    ghost predicate Valid()
      reads this
    {
      ViewOk(View(seen, refreshed))
    }

    constructor (decode: string -> Option<Event>)
      ensures Valid() && this.decode == decode && buffer == "" && refreshed == []
    {
      this.decode := decode;
      buffer, seen, refreshed := "", [], [];
    }

    /** One connection, delivering its chunks one after the other. */
    method Connect(chunks: seq<string>)
      requires Valid()
      modifies this
      ensures Valid() && |seen| <= 500
      ensures buffer == Cut(JoinNormalized(chunks)).1
      ensures View(seen, refreshed)
           == NoticeAll(View(old(seen), old(refreshed)), decode, Cut(JoinNormalized(chunks)).0)
    {
      hide Cut, JoinNormalized, NoticeAll;
      buffer := "";
      ghost var start := View(seen, refreshed);
      NoticeNothing(start);
      for n := 0 to |chunks|
        invariant Valid()
        invariant buffer == ReadAll(chunks[..n]).1
        invariant View(seen, refreshed) == NoticeAll(start, decode, ReadAll(chunks[..n]).0)
      {
        assert chunks[..n + 1][..n] == chunks[..n];
        NoticeInTurns(start, decode, ReadAll(chunks[..n]).0, Cut(buffer + Normalize(chunks[n])).0);
        Read(chunks[n]);
      }
      assert chunks[..|chunks|] == chunks;
      ReadAllCuts(chunks);
    }

    lemma NoticeNothing(v: View)
      ensures NoticeAll(v, decode, []) == v
    {
    }

    method Read(chunk: string)
      requires Valid()
      modifies this
      ensures Valid() && |seen| <= 500
      ensures buffer == Cut(old(buffer) + Normalize(chunk)).1
      ensures View(seen, refreshed)
           == NoticeAll(View(old(seen), old(refreshed)), decode, Cut(old(buffer) + Normalize(chunk)).0)
    {
      buffer := buffer + Normalize(chunk);
      ghost var blocks, rest := Cut(buffer).0, Cut(buffer).1;
      ghost var goal := NoticeAll(View(seen, refreshed), decode, blocks);
      var boundary := Boundary(buffer);
      while boundary.Some?
        invariant boundary == Boundary(buffer) && Valid()
        invariant Cut(buffer).1 == rest
        invariant NoticeAll(View(seen, refreshed), decode, Cut(buffer).0) == goal
        decreases |buffer|
      {
        var parsed := ParseBlock(decode, buffer[..boundary.value]);
        NoticeOk(View(seen, refreshed), parsed);
        ghost var others := Cut(buffer[boundary.value + 2..]).0;
        assert Cut(buffer).0 == [buffer[..boundary.value]] + others && Cut(buffer).0[1..] == others;
        buffer := buffer[boundary.value + 2..];
        boundary := Boundary(buffer);
        if parsed.None? || parsed.value.kind == "stream.heartbeat" || parsed.value.id in seen {
          continue;
        }
        seen := seen + [parsed.value.id];
        if |seen| > WINDOW {
          seen := seen[1..];
        }
        refreshed := refreshed + [parsed.value.id];
      }
    }
  }
}
