/**
 * Decoding of the `data:` lines of a Server-Sent Events stream (HTML Living
 * Standard, section 9.2 "Server-sent events"), as the browser clients do it:
 * the received text is split on `\n`, every piece but the last is a line,
 * and a line counts only if, trimmed, it starts with `data: ` and carries a
 * non-empty payload. Multi-line events, `event:`/`id:`/`retry:` fields and
 * comments are not interpreted. JSON parsing is a parameter.
 */
module StreamDecoder {
  import opened Wrappers
  import opened Text

  /**
   * The fields the client reads from a parsed payload: `content` and `error`
   * are present when the JSON value's field is truthy (with the text that
   * JavaScript string concatenation produces from it), `finish` when the
   * `finish` field is truthy.
   */
  datatype Payload = Payload(content: Option<string>, error: Option<string>, finish: bool)

  /** `JSON.parse` followed by the field reads; `None` when the parse throws or the value has no fields. */
  type Parser = string -> Option<Payload>

  const DataPrefix: string := "data: "

  /** The payload of one line, if it has one. */
  function DataField(line: string): Option<string>
  {
    var t := JsTrim(line);
    if StartsWith(t, DataPrefix) then
      var j := JsTrim(t[|DataPrefix|..]);
      if j != "" then Some(j) else None
    else None
  }

  /** What one line means to the client. */
  datatype LineEvent = Delta(text: string) | Finished | ServerError(message: string) | Ignored

  /** `content` is tested first, then `finish`, then `error`. */
  function Classify(line: string, parse: Parser): LineEvent
  {
    match DataField(line)
    case None => Ignored
    case Some(p) =>
      match parse(p)
      case None => Ignored
      case Some(d) =>
        if d.content.Some? then Delta(d.content.value)
        else if d.finish then Finished
        else if d.error.Some? then ServerError(d.error.value)
        else Ignored
  }

  // ---------------------------------------------------------------------
  // The newer clients: every line yields its delta or nothing; server
  // errors are thrown and caught inside the same `try`, so only logged.
  // ---------------------------------------------------------------------

  /** The classifier the client applies to every line, for a given parser. */
  function ClassifierOf(parse: Parser): Classifier
  {
    line => Classify(line, parse)
  }

  type Classifier = string -> LineEvent

  function LineDelta(line: string, ev: Classifier): seq<string>
  {
    match ev(line)
    case Delta(t) => [t]
    case _ => []
  }

  /** The deltas of a run of complete lines, in order. */
  function Deltas(lines: seq<string>, ev: Classifier): seq<string>
  {
    if |lines| == 0 then []
    else Deltas(lines[..|lines| - 1], ev) + LineDelta(lines[|lines| - 1], ev)
  }

  /** Every `\n`-terminated line of one chunk, decoded on its own. */
  function ChunkDeltas(chunk: string, ev: Classifier): seq<string>
  {
    Deltas(CompleteParts(chunk, '\n'), ev)
  }

  /** The deltas the newer clients take from a stream: each chunk decoded on its own. */
  function PerChunkDeltas(chunks: seq<string>, ev: Classifier): seq<string>
  {
    if |chunks| == 0 then []
    else PerChunkDeltas(chunks[..|chunks| - 1], ev) + ChunkDeltas(chunks[|chunks| - 1], ev)
  }

  /** One more line extends the deltas by that line's delta. */
  lemma DeltasStep(lines: seq<string>, i: nat, ev: Classifier)
    requires i < |lines|
    ensures Deltas(lines[..i + 1], ev) == Deltas(lines[..i], ev) + LineDelta(lines[i], ev)
  {
    assert lines[..i + 1][..i] == lines[..i];
  }

  lemma {:induction false} DeltasAppend(xs: seq<string>, ys: seq<string>, ev: Classifier)
    ensures Deltas(xs + ys, ev) == Deltas(xs, ev) + Deltas(ys, ev)
    decreases |ys|
  {
    if |ys| == 0 {
      assert xs + ys == xs;
    } else {
      assert (xs + ys)[..|xs + ys| - 1] == xs + ys[..|ys| - 1];
      DeltasAppend(xs, ys[..|ys| - 1], ev);
    }
  }

  /** A delta comes only from a line that the client classifies as carrying that delta. */
  lemma {:induction false} DeltasComeFromContentLines(lines: seq<string>, ev: Classifier)
    ensures forall d :: d in Deltas(lines, ev) ==>
              exists k :: 0 <= k < |lines| && ev(lines[k]) == Delta(d)
  {
    if |lines| > 0 {
      var init := lines[..|lines| - 1];
      DeltasComeFromContentLines(init, ev);
      forall d | d in Deltas(lines, ev)
        ensures exists k :: 0 <= k < |lines| && ev(lines[k]) == Delta(d)
      {
        if d in Deltas(init, ev) {
          var k :| 0 <= k < |init| && ev(init[k]) == Delta(d);
          assert lines[k] == init[k];
        } else {
          assert d in LineDelta(lines[|lines| - 1], ev);
        }
      }
    }
  }

  /** A server error does not stop the newer decoder: the lines after it still yield their deltas. */
  lemma ErrorLineIsSkipped(before: seq<string>, line: string, after: seq<string>, ev: Classifier)
    requires ev(line).ServerError?
    ensures Deltas(before + [line] + after, ev) == Deltas(before, ev) + Deltas(after, ev)
  {
    var upto := before + [line];
    assert upto[..|upto| - 1] == before;
    assert LineDelta(line, ev) == [];
    assert Deltas(upto, ev) == Deltas(before, ev);
    DeltasAppend(upto, after, ev);
  }

  // ---------------------------------------------------------------------
  // The carrying decoder of the oldest client: the unterminated tail of
  // each chunk is kept and prefixed to the next one.
  // ---------------------------------------------------------------------

  datatype Carried = Carried(lines: seq<string>, residual: string)

  function Carry(chunks: seq<string>): Carried
  {
    if |chunks| == 0 then Carried([], "")
    else
      var prev := Carry(chunks[..|chunks| - 1]);
      var text := prev.residual + chunks[|chunks| - 1];
      Carried(prev.lines + CompleteParts(text, '\n'), LastPart(text, '\n'))
  }

  lemma CompletePartsOfGlue(x: string, y: string)
    ensures CompleteParts(x + y, '\n') == CompleteParts(x, '\n') + CompleteParts(LastPart(x, '\n') + y, '\n')
    ensures LastPart(x + y, '\n') == LastPart(LastPart(x, '\n') + y, '\n')
  {
    SplitOfGlue(x, y);
    DropLast(CompleteParts(x, '\n'), Split(LastPart(x, '\n') + y, '\n'));
  }

  /** Splitting `x + y` splits off the complete lines of `x`, then splits its tail glued to `y`. */
  lemma SplitOfGlue(x: string, y: string)
    ensures Split(x + y, '\n') == CompleteParts(x, '\n') + Split(LastPart(x, '\n') + y, '\n')
  {
    var r := LastPart(x, '\n');
    assert '\n' !in r by {
      SplitJoin(x, '\n');
    }
    SplitAfterResidual(r, y, '\n');
    SplitAppend(x, y, '\n');
  }

  lemma DropLast<T>(a: seq<T>, b: seq<T>)
    requires |b| >= 1
    ensures (a + b)[..|a + b| - 1] == a + b[..|b| - 1]
    ensures (a + b)[|a + b| - 1] == b[|b| - 1]
  {
  }

  /** Carrying the residual reassembles the stream: lines and tail depend only on the concatenated text. */
  lemma {:induction false} CarryReassembles(chunks: seq<string>)
    ensures Carry(chunks) == Carried(CompleteParts(Concat(chunks), '\n'), LastPart(Concat(chunks), '\n'))
  {
    if |chunks| == 0 {
      assert Concat(chunks) == "";
    } else {
      var init, last := chunks[..|chunks| - 1], chunks[|chunks| - 1];
      CarryReassembles(init);
      assert Concat(chunks) == Concat(init) + last;
      CompletePartsOfGlue(Concat(init), last);
    }
  }

  /** Any two ways of cutting the same text into chunks decode to the same lines. */
  lemma CarryIgnoresChunking(a: seq<string>, b: seq<string>)
    requires Concat(a) == Concat(b)
    ensures Carry(a) == Carry(b)
  {
    CarryReassembles(a);
    CarryReassembles(b);
  }

  lemma LastPartOfTerminated(s: string)
    requires |s| > 0 && s[|s| - 1] == '\n'
    ensures LastPart(s, '\n') == ""
    ensures Split(s, '\n') == CompleteParts(s, '\n') + [""]
  {
    var init := s[..|s| - 1];
    assert s == init + "\n";
    SplitAppend(init, "\n", '\n');
    assert Split("\n", '\n') == [""] + Split("", '\n');
  }

  /**
   * Where every chunk ends at a line boundary, decoding each chunk on its
   * own gives the same deltas as carrying the residual.
   */
  lemma {:induction false} AlignedChunksDecodeAlike(chunks: seq<string>, ev: Classifier)
    requires forall k :: 0 <= k < |chunks| ==> chunks[k] == "" || chunks[k][|chunks[k]| - 1] == '\n'
    ensures Carry(chunks).residual == ""
    ensures PerChunkDeltas(chunks, ev) == Deltas(Carry(chunks).lines, ev)
  {
    if |chunks| > 0 {
      var init, last := chunks[..|chunks| - 1], chunks[|chunks| - 1];
      AlignedChunksDecodeAlike(init, ev);
      assert "" + last == last;
      if last != "" {
        LastPartOfTerminated(last);
      }
      DeltasAppend(Carry(init).lines, CompleteParts(last, '\n'), ev);
    }
  }

  /** The parser of the counterexample below: the payload `1` carries the delta `1`. */
  function OneParser(p: string): Option<Payload>
  {
    if p == "1" then Some(Payload(Some("1"), None, false)) else None
  }

  lemma UnterminatedChunk(s: string)
    requires '\n' !in s
    ensures CompleteParts(s, '\n') == [] && LastPart(s, '\n') == s
  {
    SplitNoSeparator(s, '\n');
  }

  lemma NewlineChunk()
    ensures CompleteParts("\n", '\n') == [""] && LastPart("\n", '\n') == ""
  {
    LastPartOfTerminated("\n");
  }

  lemma EmptyLineIsIgnored(ev: Classifier)
    requires ev == ClassifierOf(OneParser)
    ensures Deltas([""], ev) == []
  {
    assert JsTrim("") == "";
    assert DataField("") == None;
    assert [""][..0] == [];
  }

  lemma FrameLineYieldsOne(ev: Classifier)
    requires ev == ClassifierOf(OneParser)
    ensures Deltas(["data: 1"], ev) == ["1"]
  {
    OneFrameClassified();
    assert LineDelta("data: 1", ev) == ["1"];
    assert ["data: 1"][..0] == [];
  }

  lemma OneFrameClassified()
    ensures Classify("data: 1", OneParser) == Delta("1")
  {
    OneFrameField();
  }

  lemma OneFrameField()
    ensures DataField("data: 1") == Some("1")
  {
    FrameIsTrimmed();
    FrameHasPrefix();
    OneIsTrimmed();
  }

  lemma FrameIsTrimmed()
    ensures JsTrim("data: 1") == "data: 1"
  {
    var line := "data: 1";
    assert line[0] == 'd' && line[|line| - 1] == '1';
    TrimOfUnspaced(line);
  }

  lemma FrameHasPrefix()
    ensures StartsWith("data: 1", DataPrefix) && "data: 1"[|DataPrefix|..] == "1"
  {
    var line := "data: 1";
    assert line[..|DataPrefix|] == DataPrefix;
    assert line[|DataPrefix|..] == "1";
  }

  lemma OneIsTrimmed()
    ensures JsTrim("1") == "1"
  {
    TrimOfUnspaced("1");
  }

  /**
   * Decoding chunks on their own loses a line cut across two chunks: the
   * frame `data: 1\n` delivered as `data: 1` then `\n` yields no delta.
   */
  lemma SplitFrameLosesDelta()
    ensures PerChunkDeltas(["data: 1", "\n"], ClassifierOf(OneParser)) == []
  {
    var ev := ClassifierOf(OneParser);
    var chunks := ["data: 1", "\n"];
    UnterminatedChunk("data: 1");
    NewlineChunk();
    EmptyLineIsIgnored(ev);
    assert chunks[..1] == ["data: 1"];
    assert ["data: 1"][..0] == [];
    assert PerChunkDeltas(["data: 1"], ev) == [];
  }

  lemma FrameSplit()
    ensures CompleteParts("data: 1\n", '\n') == ["data: 1"]
  {
    assert "\n"[1..] == "";
    assert Split("\n", '\n') == ["", ""];
    SplitAppend("data: 1", "\n", '\n');
    assert "data: 1" + "\n" == "data: 1\n";
    UnterminatedChunk("data: 1");
  }

  lemma CarryOfSplitFrame()
    ensures Carry(["data: 1", "\n"]).lines == ["data: 1"]
  {
    var chunks := ["data: 1", "\n"];
    assert Concat(chunks) == "data: 1\n" by {
      assert chunks[..1] == ["data: 1"];
      ConcatSingle("data: 1");
    }
    CarryReassembles(chunks);
    FrameSplit();
  }

  /** Carrying the residual decodes the same split frame to its delta. */
  lemma CarriedFrameKeepsDelta()
    ensures Deltas(Carry(["data: 1", "\n"]).lines, ClassifierOf(OneParser)) == ["1"]
  {
    CarryOfSplitFrame();
    FrameLineYieldsOne(ClassifierOf(OneParser));
  }

  lemma TrimOfUnspaced(s: string)
    requires |s| > 0 && !IsJsSpace(s[0]) && !IsJsSpace(s[|s| - 1])
    ensures JsTrim(s) == s
  {
    TrimStartIdle(s, IsJsSpace);
    TrimEndIdle(s, IsJsSpace);
  }

  // ---------------------------------------------------------------------
  // The oldest client's policy: a server error ends decoding.
  // ---------------------------------------------------------------------

  /** The deltas taken before decoding stopped, and the server error that stopped it. */
  datatype Outcome = Outcome(deltas: seq<string>, error: Option<string>)

  function Step(o: Outcome, line: string, ev: Classifier): Outcome
  {
    if o.error.Some? then o
    else
      match ev(line)
      case Delta(t) => Outcome(o.deltas + [t], None)
      case ServerError(m) => Outcome(o.deltas, Some(m))
      case _ => o
  }

  function StopAtError(lines: seq<string>, ev: Classifier): Outcome
  {
    if |lines| == 0 then Outcome([], None)
    else Step(StopAtError(lines[..|lines| - 1], ev), lines[|lines| - 1], ev)
  }

  /** Once an error has been seen, further lines change nothing. */
  lemma {:induction false} StopAtErrorIsFinal(xs: seq<string>, ys: seq<string>, ev: Classifier)
    requires StopAtError(xs, ev).error.Some?
    ensures StopAtError(xs + ys, ev) == StopAtError(xs, ev)
    decreases |ys|
  {
    if |ys| == 0 {
      assert xs + ys == xs;
    } else {
      assert (xs + ys)[..|xs + ys| - 1] == xs + ys[..|ys| - 1];
      StopAtErrorIsFinal(xs, ys[..|ys| - 1], ev);
    }
  }

  /** Without a server error, the stopping decoder takes exactly the deltas of the newer one. */
  lemma {:induction false} StopAtErrorWithoutErrors(lines: seq<string>, ev: Classifier)
    requires forall k :: 0 <= k < |lines| ==> !ev(lines[k]).ServerError?
    ensures StopAtError(lines, ev) == Outcome(Deltas(lines, ev), None)
  {
    if |lines| > 0 {
      StopAtErrorWithoutErrors(lines[..|lines| - 1], ev);
    }
  }

  /** With a server error, decoding keeps the deltas of the lines before the first one. */
  lemma StopAtFirstError(before: seq<string>, line: string, after: seq<string>, ev: Classifier)
    requires forall k :: 0 <= k < |before| ==> !ev(before[k]).ServerError?
    requires ev(line).ServerError?
    ensures StopAtError(before + [line] + after, ev)
         == Outcome(Deltas(before, ev), Some(ev(line).message))
  {
    var upTo := before + [line];
    assert StopAtError(upTo, ev) == Outcome(Deltas(before, ev), Some(ev(line).message)) by {
      StopAtErrorWithoutErrors(before, ev);
      assert upTo[..|upTo| - 1] == before;
    }
    StopAtErrorIsFinal(upTo, after, ev);
  }
}
