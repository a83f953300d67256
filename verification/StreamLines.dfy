/** The line scanner of plugin/formats.go: chunks of an event stream (section 9.2.6 of the
    WHATWG HTML standard, read loosely) become deltas, one for each kind. */
module StreamLines {
  import opened Configs
  import opened Lines
  import opened Streams
  import opened StreamConservation
  import opened Whitespace
  import opened Wrappers

  // One line

  /** What of a line is parsed: nothing of a blank line, an event name or a comment; the
      payload of a data field, unless it marks the end. */
  function Payload(line: string): Option<string> {
    var l := TrimSpace(line);
    if l == "" || StartsWith(l, "event:") || StartsWith(l, ":") then None
    else if StartsWith(l, "data:") then
      var p := TrimSpace(l[5..]);
      if p == "[DONE]" then None else Some(p)
    else Some(l)
  }

  /** The deltas of a line, given those of a payload. */
  function LineDeltas(parse: string -> seq<Delta>): string -> seq<Delta> {
    (line: string) => if Payload(line).Some? then parse(Payload(line).value) else []
  }

  lemma BlankLine(parse: string -> seq<Delta>)
    ensures LineDeltas(parse)("") == []
  {
    assert TrimSpace("") == "";
    assert Payload("").None?;
  }

  lemma {:induction false} TrimRightAfter(p: string, rest: string)
    requires p != "" && !IsSpace(p[|p| - 1])
    ensures TrimRight(p + rest) == p + TrimRight(rest)
    decreases |rest|
  {
    if rest == "" {
      assert p + rest == p;
    } else {
      assert (p + rest)[..|p + rest| - 1] == p + rest[..|rest| - 1];
      if IsSpace(rest[|rest| - 1]) { TrimRightAfter(p, rest[..|rest| - 1]); }
    }
  }

  lemma TrimTwice(rest: string)
    ensures TrimSpace(TrimRight(rest)) == TrimSpace(rest)
  {
    var right := TrimRightCuts(rest);
    var t := TrimRight(rest);
    var left, r := TrimSpaceCuts(t);
    if TrimSpace(t) == "" {
      forall c | c in t ensures IsSpace(c) { assert c in left || c in r; }
      forall c | c in rest ensures IsSpace(c) { assert c in t || c in right; }
      NothingLeft(rest);
    } else {
      forall c | c in r + right ensures IsSpace(c) { assert c in r || c in right; }
      assert rest == left + TrimSpace(t) + (r + right);
      TrimSpaceOf(left, TrimSpace(t), r + right);
    }
  }

  lemma NothingLeft(s: string)
    requires AllSpaces(s)
    ensures TrimSpace(s) == ""
  {
    assert s + "" == s;
    TrimLeftOf(s, "");
  }

  /** A line that begins, after whitespace, with the name of a field. */
  lemma FieldLine(left: string, field: string, rest: string)
    requires AllSpaces(left) && field != "" && !EdgeSpace(field)
    ensures TrimSpace(left + field + rest) == field + TrimRight(rest)
  {
    assert left + field + rest == left + (field + rest) && (field + rest)[0] == field[0];
    TrimLeftOf(left, field + rest);
    TrimRightAfter(field, rest);
  }

  lemma FieldPayload(line: string, field: string, rest: string)
    requires TrimSpace(line) == field + rest
    ensures field == "data:" ==> Payload(line) == if TrimSpace(rest) == "[DONE]" then None else Some(TrimSpace(rest))
    ensures field == "event:" || field == ":" ==> Payload(line) == None
  {
    var l := field + rest;
    assert l[..|field|] == field && l[|field|..] == rest;
    if field == "data:" {
      assert l[0] == 'd' && l[..1][0] == 'd';
      if |l| >= 6 { assert l[..6][0] == 'd'; }
    }
  }

  /** A data line gives the deltas of what follows the field's name, without the whitespace around
      it; the end marker, a blank line, an event's name and a comment give none. */
  lemma LinesAreRead(parse: string -> seq<Delta>, left: string, rest: string)
    requires AllSpaces(left)
    ensures LineDeltas(parse)(left + "data:" + rest) ==
      if TrimSpace(rest) == "[DONE]" then [] else parse(TrimSpace(rest))
    ensures LineDeltas(parse)(left + "event:" + rest) == [] && LineDeltas(parse)(left + ":" + rest) == []
    ensures LineDeltas(parse)(left) == []
  {
    FieldLine(left, "data:", rest);
    FieldPayload(left + "data:" + rest, "data:", TrimRight(rest));
    TrimTwice(rest);
    FieldLine(left, "event:", rest);
    FieldPayload(left + "event:" + rest, "event:", TrimRight(rest));
    FieldLine(left, ":", rest);
    FieldPayload(left + ":" + rest, ":", TrimRight(rest));
    NothingLeft(left);
    assert Payload(left).None?;
  }

  /** Any other line gives the deltas of all of it, without the whitespace around it. */
  lemma OtherLinesAreRead(parse: string -> seq<Delta>, line: string)
    requires var l := TrimSpace(line);
      l != "" && !StartsWith(l, "data:") && !StartsWith(l, "event:") && !StartsWith(l, ":")
    ensures LineDeltas(parse)(line) == parse(TrimSpace(line))
  {
    assert Payload(line) == Some(TrimSpace(line));
  }

  // A chunk, `of` giving the deltas of a line

  function LinesDeltas(of: string -> seq<Delta>, lines: seq<string>): seq<Delta> {
    if lines == [] then [] else LinesDeltas(of, lines[..|lines| - 1]) + of(lines[|lines| - 1])
  }

  predicate HasKind(ds: seq<Delta>, kind: Kind) { exists i :: 0 <= i < |ds| && ds[i].kind == kind }

  function OneOf(ds: seq<Delta>, kind: Kind): seq<Delta> {
    if HasKind(ds, kind) then [Delta(TextOf(ds, kind), kind)] else []
  }

  function Grouped(ds: seq<Delta>): seq<Delta> { OneOf(ds, Text) + OneOf(ds, Reasoning) + OneOf(ds, ToolArgs) }

  function Extract(of: string -> seq<Delta>, chunk: string): seq<Delta> {
    if chunk == "" then [] else Grouped(LinesDeltas(of, Split(chunk)))
  }

  function Concat(texts: seq<string>): string {
    if texts == [] then "" else Concat(texts[..|texts| - 1]) + texts[|texts| - 1]
  }

  /** The accumulated texts of one kind. */
  ghost predicate Collected(texts: seq<string>, ds: seq<Delta>, kind: Kind) {
    Concat(texts) == TextOf(ds, kind) && (texts != [] <==> HasKind(ds, kind))
  }

  lemma Collect(texts: seq<string>, ds: seq<Delta>, d: Delta, kind: Kind)
    requires Collected(texts, ds, kind)
    ensures Collected(if d.kind == kind then texts + [d.text] else texts, ds + [d], kind)
  {
    assert (ds + [d])[..|ds|] == ds && (texts + [d.text])[..|texts|] == texts;
    assert (ds + [d])[|ds|] == d;
    assert forall i :: 0 <= i < |ds| ==> (ds + [d])[i] == ds[i];
  }

  /** The three lists the scanner accumulates. */
  datatype Parts = Parts(texts: seq<string>, reasonings: seq<string>, tools: seq<string>)

  function Add(p: Parts, d: Delta): Parts {
    match d.kind
    case Reasoning => p.(reasonings := p.reasonings + [d.text])
    case ToolArgs => p.(tools := p.tools + [d.text])
    case Text => p.(texts := p.texts + [d.text])
  }

  ghost predicate AllCollected(p: Parts, ds: seq<Delta>) {
    Collected(p.texts, ds, Text) && Collected(p.reasonings, ds, Reasoning) && Collected(p.tools, ds, ToolArgs)
  }

  lemma CollectAll(p: Parts, ds: seq<Delta>, d: Delta)
    requires AllCollected(p, ds)
    ensures AllCollected(Add(p, d), ds + [d])
  {
    Collect(p.texts, ds, d, Text);
    Collect(p.reasonings, ds, d, Reasoning);
    Collect(p.tools, ds, d, ToolArgs);
  }

  lemma CollectNext(p: Parts, before: seq<Delta>, ds: seq<Delta>, j: nat)
    requires j < |ds| && AllCollected(p, before + ds[..j])
    ensures AllCollected(Add(p, ds[j]), before + ds[..j + 1])
  {
    CollectAll(p, before + ds[..j], ds[j]);
    assert before + ds[..j] + [ds[j]] == before + ds[..j + 1];
  }

  function Together(texts: seq<string>, kind: Kind): seq<Delta> {
    if texts != [] then [Delta(Concat(texts), kind)] else []
  }

  lemma TogetherGroups(p: Parts, ds: seq<Delta>)
    requires AllCollected(p, ds)
    ensures Together(p.texts, Text) + Together(p.reasonings, Reasoning) + Together(p.tools, ToolArgs) == Grouped(ds)
  {
  }

  method AddLine(parts: Parts, ds: seq<Delta>, ghost before: seq<Delta>) returns (p: Parts)
    requires AllCollected(parts, before)
    ensures AllCollected(p, before + ds)
  {
    p := parts;
    assert before + ds[..0] == before;
    for j := 0 to |ds|
      invariant AllCollected(p, before + ds[..j])
    {
      CollectNext(p, before, ds, j);
      p := Add(p, ds[j]);
    }
    assert ds[..|ds|] == ds;
  }

  method ExtractStreamTextDeltas(of: string -> seq<Delta>, chunk: string) returns (out: seq<Delta>)
    ensures out == Extract(of, chunk)
  {
    if chunk == "" { return []; }
    var p := Parts([], [], []);
    var lines := Split(chunk);
    for i := 0 to |lines|
      invariant AllCollected(p, LinesDeltas(of, lines[..i]))
    {
      assert lines[..i + 1][..i] == lines[..i];
      p := AddLine(p, of(lines[i]), LinesDeltas(of, lines[..i]));
    }
    assert lines[..|lines|] == lines;
    TogetherGroups(p, LinesDeltas(of, lines));
    out := Together(p.texts, Text) + Together(p.reasonings, Reasoning) + Together(p.tools, ToolArgs);
  }

  // Grouping loses nothing

  lemma {:induction false} NoKindNoText(ds: seq<Delta>, kind: Kind)
    requires !HasKind(ds, kind)
    ensures TextOf(ds, kind) == ""
  {
    if ds != [] {
      assert forall i :: 0 <= i < |ds| - 1 ==> ds[..|ds| - 1][i] == ds[i];
      assert ds[|ds| - 1].kind != kind;
      NoKindNoText(ds[..|ds| - 1], kind);
    }
  }

  lemma {:induction false} TextOfAppend(a: seq<Delta>, b: seq<Delta>, kind: Kind)
    ensures TextOf(a + b, kind) == TextOf(a, kind) + TextOf(b, kind)
  {
    if b == [] {
      assert a + b == a;
    } else {
      var c := b[..|b| - 1];
      assert (a + b)[..|a + b| - 1] == a + c;
      TextOfAppend(a, c, kind);
    }
  }

  lemma OneOfText(ds: seq<Delta>, of: Kind, kind: Kind)
    ensures TextOf(OneOf(ds, of), kind) == if of == kind then TextOf(ds, kind) else ""
  {
    if !HasKind(ds, of) { NoKindNoText(ds, of); }
  }

  lemma GroupedText(ds: seq<Delta>, kind: Kind)
    ensures TextOf(Grouped(ds), kind) == TextOf(ds, kind)
  {
    TextOfAppend(OneOf(ds, Text) + OneOf(ds, Reasoning), OneOf(ds, ToolArgs), kind);
    TextOfAppend(OneOf(ds, Text), OneOf(ds, Reasoning), kind);
    OneOfText(ds, Text, kind);
    OneOfText(ds, Reasoning, kind);
    OneOfText(ds, ToolArgs, kind);
  }

  ghost predicate AtMostOne(ds: seq<Delta>, kind: Kind) { |ds| <= 1 && forall d :: d in ds ==> d.kind == kind }

  lemma InOrder(a: seq<Delta>, b: seq<Delta>, c: seq<Delta>)
    requires AtMostOne(a, Text) && AtMostOne(b, Reasoning) && AtMostOne(c, ToolArgs)
    ensures var g := a + b + c;
      && (forall i, j :: 0 <= i < j < |g| ==> g[i].kind != g[j].kind && (g[i].kind == Text || g[j].kind == ToolArgs))
      && (forall d :: d in g <==> d in a || d in b || d in c)
  {
    var g := a + b + c;
    forall i | 0 <= i < |g|
      ensures g[i].kind == if i < |a| then Text else if i < |a| + |b| then Reasoning else ToolArgs
    {
      assert g[i] in if i < |a| then a else if i < |a| + |b| then b else c;
    }
  }

  /** There is one delta for each kind that occurs, text first and tool arguments last. */
  lemma GroupedOnce(ds: seq<Delta>)
    ensures var g := Grouped(ds);
      forall i, j :: 0 <= i < j < |g| ==> g[i].kind != g[j].kind && (g[i].kind == Text || g[j].kind == ToolArgs)
    ensures forall kind :: HasKind(ds, kind) <==> HasKind(Grouped(ds), kind)
  {
    InOrder(OneOf(ds, Text), OneOf(ds, Reasoning), OneOf(ds, ToolArgs));
    forall kind ensures HasKind(ds, kind) <==> HasKind(Grouped(ds), kind) {
      if HasKind(ds, kind) { assert OneOf(ds, kind)[0] in Grouped(ds); }
      if HasKind(Grouped(ds), kind) {
        var i :| 0 <= i < |Grouped(ds)| && Grouped(ds)[i].kind == kind;
        assert Grouped(ds)[i] in Grouped(ds);
      }
    }
  }

  lemma {:induction false} LinesDeltasAppend(of: string -> seq<Delta>, a: seq<string>, b: seq<string>)
    ensures LinesDeltas(of, a + b) == LinesDeltas(of, a) + LinesDeltas(of, b)
  {
    if b == [] {
      assert a + b == a;
    } else {
      var c := b[..|b| - 1];
      assert (a + b)[..|a + b| - 1] == a + c;
      LinesDeltasAppend(of, a, c);
    }
  }

  /** The text of a kind in the lines of a body. */
  function BodyText(of: string -> seq<Delta>, body: string, kind: Kind): string {
    TextOf(LinesDeltas(of, Split(body)), kind)
  }

  lemma EmptyBody(of: string -> seq<Delta>, kind: Kind)
    requires of("") == []
    ensures Split("") == [""] && LinesDeltas(of, Split("")) == [] && BodyText(of, "", kind) == ""
  {
    assert Split("") == [""];
    assert LinesDeltas(of, [""]) == LinesDeltas(of, []) + of("");
  }

  predicate WholeLines(chunk: string) { chunk == "" || chunk[|chunk| - 1] == '\n' }

  lemma BrokenText(of: string -> seq<Delta>, c: string, b: string)
    ensures LinesDeltas(of, Split(c + "\n" + b)) == LinesDeltas(of, Split(c)) + LinesDeltas(of, Split(b))
  {
    SplitAppend(c, b);
    LinesDeltasAppend(of, Split(c), Split(b));
  }

  lemma BodyTextAppend(of: string -> seq<Delta>, a: string, b: string, kind: Kind)
    requires of("") == [] && WholeLines(a)
    ensures BodyText(of, a + b, kind) == BodyText(of, a, kind) + BodyText(of, b, kind)
  {
    EmptyBody(of, kind);
    if a == "" {
      assert a + b == b;
    } else {
      var c := a[..|a| - 1];
      var ds := LinesDeltas(of, Split(c));
      assert a == c + "\n" + "" && a + b == c + "\n" + b;
      BrokenText(of, c, "");
      BrokenText(of, c, b);
      assert LinesDeltas(of, Split(a)) == ds;
      TextOfAppend(ds, LinesDeltas(of, Split(b)), kind);
    }
  }

  lemma ExtractText(of: string -> seq<Delta>, chunk: string, kind: Kind)
    requires of("") == []
    ensures TextOf(Extract(of, chunk), kind) == BodyText(of, chunk, kind)
  {
    EmptyBody(of, kind);
    if chunk != "" { GroupedText(LinesDeltas(of, Split(chunk)), kind); }
  }

  // A stream of chunks

  /** The chunks of a stream as they arrive, `at` telling when. */
  function Pieces(of: string -> seq<Delta>, chunks: seq<string>, at: nat -> int): seq<Piece> {
    if chunks == [] then []
    else
      var n := |chunks| - 1;
      Pieces(of, chunks[..n], at) + [Piece(Extract(of, chunks[n]), true, at(n))]
  }

  lemma {:induction false} ChunksText(of: string -> seq<Delta>, chunks: seq<string>, at: nat -> int, kind: Kind)
    requires of("") == [] && forall c :: c in chunks ==> WholeLines(c)
    ensures TextIn(Pieces(of, chunks, at), kind) == BodyText(of, Concat(chunks), kind) && WholeLines(Concat(chunks))
  {
    if chunks == [] {
      EmptyBody(of, kind);
    } else {
      var n := |chunks| - 1;
      var before, last := chunks[..n], chunks[n];
      ChunksText(of, before, at, kind);
      ExtractText(of, last, kind);
      assert last in chunks;
      BodyTextAppend(of, Concat(before), last, kind);
      var ps := Pieces(of, chunks, at);
      assert ps[..|ps| - 1] == Pieces(of, before, at);
    }
  }

  lemma GroupedStream(cfg: Config, env: nat -> Answer, of: string -> seq<Delta>, k: Key, id: int, start: int,
                      chunks: seq<string>, at: nat -> int, end: Piece, kind: Kind)
    requires of("") == [] && (forall c :: c in chunks ==> WholeLines(c))
    requires (k.buf.None? || Decayed(k, start)) && Consumes(cfg)
    ensures HandedText(Stream(cfg, env, k, id, start, Pieces(of, chunks, at), end, true).log, kind) ==
      Wanted(cfg, kind, BodyText(of, Concat(chunks), kind) + TextOfPiece(end, kind))
  {
    ChunksText(of, chunks, at, kind);
    StreamConserves(cfg, env, k, id, start, Pieces(of, chunks, at), end, true, kind);
  }

  /** However whole lines are grouped into chunks, and whenever they arrive, the same text of
      each kind reaches durable ingest: that of the body.  `parse` gives the deltas of the
      payload of a line. */
  lemma GroupingIsIrrelevant(cfg: Config, env: nat -> Answer, parse: string -> seq<Delta>, k: Key, id: int, start: int,
                             chunks: seq<string>, at: nat -> int, end: Piece, kind: Kind)
    requires forall c :: c in chunks ==> WholeLines(c)
    requires (k.buf.None? || Decayed(k, start)) && Consumes(cfg)
    ensures var of := LineDeltas(parse);
      HandedText(Stream(cfg, env, k, id, start, Pieces(of, chunks, at), end, true).log, kind) ==
      Wanted(cfg, kind, BodyText(of, Concat(chunks), kind) + TextOfPiece(end, kind))
  {
    BlankLine(parse);
    GroupedStream(cfg, env, LineDeltas(parse), k, id, start, chunks, at, end, kind);
  }
}
