/** The gateway reads usage out of an answer as it passes by: out of the JSON body of a
    blocking answer, or out of the event stream of a streaming one. */
module Scrape {
  import opened Base
  import opened Decode
  import opened Rendering

  /** The scanner's buffer holds one line and its newline. */
  const MAX_LINE := 0x10_0000

  const DATA := "data: "
  const DONE := "[DONE]"

  // ---- the wire ----

  /** A JSON encoding of chunks and bodies, and the decoder's view of it: not JSON at all, or
      JSON with or without a usage block. Encodings are one line and are not the end marker. */
  ghost predicate Codec(enc: Chunk -> string, encBody: Response -> string, dec: string -> Option<Option<Usage>>) {
    && (forall c :: '\n' !in enc(c) && '\r' !in enc(c) && enc(c) != DONE && dec(enc(c)) == Some(c.usage))
    && (forall r :: dec(encBody(r)) == Some(if r.Completion? then Some(r.usage) else None))
  }

  function EventLine(enc: Chunk -> string, c: Chunk): string {
    DATA + enc(c)
  }

  /** Each event is one data line and an empty line; the stream ends with the end marker. */
  function Wire(enc: Chunk -> string, chunks: seq<Chunk>): string {
    if chunks == [] then DATA + DONE + "\n\n"
    else EventLine(enc, chunks[0]) + "\n\n" + Wire(enc, chunks[1..])
  }

  // ---- line splitting, as the scanner does it ----

  function LineEnd(b: string): (k: nat)
    ensures k <= |b| && '\n' !in b[..k] && (k < |b| ==> b[k] == '\n')
  {
    if b == "" || b[0] == '\n' then 0 else 1 + LineEnd(b[1..])
  }

  /** Lines end at a newline; an unfinished last line counts when it is not empty. */
  function Lines(b: string): seq<string>
    decreases |b|
  {
    if b == "" then []
    else
      var k := LineEnd(b);
      if k == |b| then [b] else [b[..k]] + Lines(b[k + 1..])
  }

  function WithoutReturn(line: string): string {
    if line != "" && Last(line) == '\r' then Init(line) else line
  }

  // ---- scanning ----

  /** What the scan has captured after the given lines, having captured `got` before them. A
      line that does not fit the buffer ends the scan, and so does the end marker. */
  function Scanned(lines: seq<string>, dec: string -> Option<Option<Usage>>, got: Option<Usage>): Option<Usage> {
    if lines == [] || |lines[0]| >= MAX_LINE then got
    else
      var line := WithoutReturn(lines[0]);
      if !(DATA <= line) then Scanned(lines[1..], dec, got)
      else
        var payload := line[|DATA|..];
        if payload == DONE then got
        else if dec(payload).Some? && dec(payload).value.Some? then Scanned(lines[1..], dec, dec(payload).value)
        else Scanned(lines[1..], dec, got)
  }

  method ScanSSE(body: string, dec: string -> Option<Option<Usage>>) returns (got: Option<Usage>)
    ensures got == Scanned(Lines(body), dec, None)
  {
    got := None;
    var lines := Lines(body);
    var i := 0;
    while i < |lines|
      invariant 0 <= i <= |lines|
      invariant Scanned(lines, dec, None) == Scanned(lines[i..], dec, got)
    {
      if |lines[i]| >= MAX_LINE {
        return;
      }
      var line := WithoutReturn(lines[i]);
      assert lines[i..][1..] == lines[i + 1..];
      i := i + 1;
      if !(DATA <= line) {
        continue;
      }
      var payload := line[|DATA|..];
      if payload == DONE {
        return;
      }
      var chunk := dec(payload);
      if chunk.None? {
        continue;
      }
      if chunk.value.Some? {
        got := chunk.value;
      }
    }
  }

  method ScanJSON(body: string, dec: string -> Option<Option<Usage>>) returns (got: Option<Usage>)
    ensures got == if dec(body).Some? then dec(body).value else None
  {
    got := None;
    var resp := dec(body);
    if resp.None? {
      return;
    }
    if resp.value.Some? {
      got := resp.value;
    }
  }

  // ---- scanning what the engine sends ----

  lemma {:induction false} LineEndIs(line: string, rest: string)
    requires '\n' !in line
    ensures LineEnd(line + "\n" + rest) == |line|
    decreases |line|
  {
    var b := line + "\n" + rest;
    if line == "" {
    } else {
      assert b[0] == line[0] && line[0] in line;
      assert b[1..] == line[1..] + "\n" + rest;
      assert forall c | c in line[1..] :: c in line;
      LineEndIs(line[1..], rest);
    }
  }

  lemma {:induction false} OneLine(line: string, rest: string)
    requires '\n' !in line
    ensures Lines(line + "\n" + rest) == [line] + Lines(rest)
  {
    var b := line + "\n" + rest;
    LineEndIs(line, rest);
    assert b[..|line|] == line && b[|line| + 1..] == rest;
  }

  lemma {:induction false} EventLines(line: string, rest: string)
    requires '\n' !in line
    ensures Lines(line + "\n\n" + rest) == [line, ""] + Lines(rest)
  {
    assert line + "\n\n" + rest == line + "\n" + ("" + "\n" + rest);
    OneLine(line, "" + "\n" + rest);
    OneLine("", rest);
    assert [line] + ([""] + Lines(rest)) == [line, ""] + Lines(rest);
  }

  lemma NoReturn(line: string)
    requires '\r' !in line
    ensures WithoutReturn(line) == line
  {
    if line != "" {
      assert Last(line) in line;
    }
  }

  lemma {:induction false} ScanBlank(lines: seq<string>, dec: string -> Option<Option<Usage>>, got: Option<Usage>)
    ensures Scanned([""] + lines, dec, got) == Scanned(lines, dec, got)
  {
    assert ([""] + lines)[1..] == lines;
    assert WithoutReturn("") == "" && !(DATA <= "");
  }

  lemma {:induction false} ScanData(line: string, p: string, lines: seq<string>,
      dec: string -> Option<Option<Usage>>, got: Option<Usage>)
    requires line == DATA + p && '\r' !in p && p != DONE && |line| < MAX_LINE
    ensures Scanned([line] + lines, dec, got) ==
      Scanned(lines, dec, if dec(p).Some? && dec(p).value.Some? then dec(p).value else got)
  {
    assert ([line] + lines)[1..] == lines;
    NoReturn(line);
    assert DATA <= line && line[|DATA|..] == p;
  }

  /** A data line whose payload is p, then the empty line, then the rest. */
  lemma ScanEvent(p: string, rest: string, dec: string -> Option<Option<Usage>>, got: Option<Usage>)
    requires '\n' !in p && '\r' !in p && p != DONE
    ensures Scanned(Lines(DATA + p + "\n\n" + rest), dec, got) ==
      (if |DATA + p| >= MAX_LINE then got
       else Scanned(Lines(rest), dec, if dec(p).Some? && dec(p).value.Some? then dec(p).value else got))
  {
    var line, more := DATA + p, [""] + Lines(rest);
    assert Lines(line + "\n\n" + rest) == [line] + more by {
      EventLines(line, rest);
    }
    if |line| < MAX_LINE {
      ScanData(line, p, more, dec, got);
      ScanBlank(Lines(rest), dec, if dec(p).Some? && dec(p).value.Some? then dec(p).value else got);
    }
  }

  lemma ScanEnd(dec: string -> Option<Option<Usage>>, got: Option<Usage>)
    ensures Scanned(Lines(DATA + DONE + "\n\n"), dec, got) == got
  {
    var line := DATA + DONE;
    assert line + "\n\n" == line + "\n\n" + "";
    EventLines(line, "");
    var lines := Lines(line + "\n\n");
    assert lines[0] == line && line[|DATA|..] == DONE && Last(line) == ']';
  }

  ghost predicate Fits(enc: Chunk -> string, chunks: seq<Chunk>) {
    forall i | 0 <= i < |chunks| :: |EventLine(enc, chunks[i])| < MAX_LINE
  }

  lemma FitsHead(enc: Chunk -> string, c: Chunk, tail: seq<Chunk>)
    ensures Fits(enc, [c] + tail) <==> |EventLine(enc, c)| < MAX_LINE && Fits(enc, tail)
  {
    if Fits(enc, [c] + tail) {
      assert ([c] + tail)[0] == c;
      forall i | 0 <= i < |tail| ensures |EventLine(enc, tail[i])| < MAX_LINE {
        assert ([c] + tail)[i + 1] == tail[i];
      }
    }
  }

  /** Over usage-free chunks followed by one that carries u, the scan captures u exactly when
      every line up to it fits the scanner's buffer. */
  lemma {:induction false} ScanStream(enc: Chunk -> string, encBody: Response -> string,
      dec: string -> Option<Option<Usage>>,
                                      chunks: seq<Chunk>, u: Usage)
    requires Codec(enc, encBody, dec)
    requires chunks != [] && Last(chunks).usage == Some(u)
    requires forall i | 0 <= i < |chunks| - 1 :: chunks[i].usage.None?
    ensures Scanned(Lines(Wire(enc, chunks)), dec, None) == if Fits(enc, chunks) then Some(u) else None
    decreases |chunks|
  {
    var c, tail := chunks[0], chunks[1..];
    ScanEvent(enc(c), Wire(enc, tail), dec, None);
    FitsHead(enc, c, tail);
    assert chunks == [c] + tail;
    if tail == [] {
      ScanEnd(dec, Some(u));
    } else {
      ScanStream(enc, encBody, dec, tail, u);
    }
  }

  /** Metering is blind to the way the answer travels: for every token sequence, the usage
      scraped from the stream equals the usage scraped from the blocking body exactly when
      generation had no error and every event line fits the scanner, or neither. */
  lemma {:induction false} MeteringAgreesIff(enc: Chunk -> string, encBody: Response -> string,
      dec: string -> Option<Option<Usage>>,
                          tokens: seq<Token>, chunks: seq<Chunk>, r: Response)
    requires Codec(enc, encBody, dec)
    requires Streams(chunks, tokens)
    requires r == if ErrorFree(tokens) then Completion(Sent(tokens), FinishOf(tokens), BilledOf(tokens)) else ServerError
    ensures var streamed := Scanned(Lines(Wire(enc, chunks)), dec, None);
      var whole := if dec(encBody(r)).Some? then dec(encBody(r)).value else None;
      && (streamed == whole <==> (ErrorFree(tokens) <==> Fits(enc, chunks)))
      && (ErrorFree(tokens) && Fits(enc, chunks) ==> streamed == Some(BilledOf(tokens)))
  {
    ErrorFreeKeepsAll(tokens);
    ScanStream(enc, encBody, dec, chunks, BilledOf(BeforeError(tokens)));
  }

  /** The wire format spelled out: the payload of one event with usage is captured from between
      the prefix and the end marker, if the line stays under a mebibyte. */
  lemma {:induction false} OneEventIsScanned(p: string, dec: string -> Option<Option<Usage>>, u: Usage)
    requires '\n' !in p && '\r' !in p && p != "[DONE]" && dec(p) == Some(Some(u))
    ensures Scanned(Lines("data: " + p + "\n\n" + "data: [DONE]\n\n"), dec, None) ==
      if |p| + 6 < 1_048_576 then Some(u) else None
  {
    assert DATA == "data: " && DONE == "[DONE]";
    assert DATA + DONE + "\n\n" == "data: [DONE]\n\n";
    ScanEvent(p, DATA + DONE + "\n\n", dec, None);
    ScanEnd(dec, Some(u));
  }

  /** What the blocking answer to a generation says: the text sent, the reason it ended for, and the
      prompt length and pieces accepted. */
  lemma GenerationIsAnswered(promptLen: nat, draws: nat -> Draw, stops: seq<Text>, limit: nat, out: seq<Token>)
    requires Finished(out, promptLen, draws, stops, limit) && !Last(out).failed
    ensures ErrorFree(out) && FinishOf(out) == Last(out).reason && Last(out).reason != ReasonUnstated
    ensures var k := Last(out).completionTokens; BilledOf(out) == Usage(promptLen, k, promptLen + k)
  {
    OrdinaryTokensBillNothing(Init(out));
    InitLast(out);
  }

  // ---- from the decode loop to the meter ----

  lemma {:induction false} OrdinaryTokensBillNothing(tokens: seq<Token>)
    requires Ordinary(tokens)
    ensures BilledOf(tokens) == NO_USAGE && ErrorFree(tokens)
    decreases |tokens|
  {
    if tokens == [] {
    } else {
      OrdinaryTokensBillNothing(Init(tokens));
    }
  }

  /** What of an accounted generation is billed when the tokens from a failure on are not heard. */
  lemma {:induction false} HeardBill(out: seq<Token>, promptLen: nat, draws: nat -> Draw, limit: nat)
    requires Accounted(out, promptLen, draws, limit)
    ensures var k := Last(out).completionTokens;
      BilledOf(BeforeError(out)) == if Last(out).failed then NO_USAGE else Usage(promptLen, k, promptLen + k)
  {
    OrdinaryTokensBillNothing(Init(out));
    InitLast(out);
    if Last(out).failed {
      assert out[..|out| - 1] == Init(out);
      BeforeErrorIs(out, |out| - 1);
    } else {
      ErrorFreeKeepsAll(out);
    }
  }

  /** What is metered of a streamed generation: the prompt length and the number of pieces
      accepted; zero when generation failed midway, because the failed token is never read;
      and nothing when a line does not fit the scanner. */
  lemma {:induction false} GenerationIsMetered(enc: Chunk -> string, encBody: Response -> string,
      dec: string -> Option<Option<Usage>>, promptLen: nat, draws: nat -> Draw, stops: seq<Text>, limit: nat,
      out: seq<Token>, chunks: seq<Chunk>)
    requires Codec(enc, encBody, dec) && Finished(out, promptLen, draws, stops, limit) && Streams(chunks, out)
    ensures var k := Last(out).completionTokens;
      Scanned(Lines(Wire(enc, chunks)), dec, None) ==
        if !Fits(enc, chunks) then None
        else if Last(out).failed then Some(NO_USAGE)
        else Some(Usage(promptLen, k, promptLen + k))
  {
    HeardBill(out, promptLen, draws, limit);
    ScanStream(enc, encBody, dec, chunks, BilledOf(BeforeError(out)));
  }

  /** A prompt of three tokens, one piece, and a decode that fails after it. */
  const FAILED_GENERATION :=
    [Token("a", false, ReasonUnstated, false, 0, 0), Token("", true, ReasonUnstated, true, 3, 1)]

  lemma FailedGenerationIsOne(draws: nat -> Draw)
    requires draws(0) == Piece("a", false)
    ensures Finished(FAILED_GENERATION, 3, draws, [], 5)
  {
    var a, t := FAILED_GENERATION[0], FAILED_GENERATION[1];
    assert Flowing([a], "a", draws, [], 1) by {
      SentSnoc([], a);
      assert [] + [a] == [a] && Sent([a]) == "a";
      assert Generated(draws, 1) == "a";
      NothingStops("a");
    }
    PlainEnd([a], "a", t, 3, draws, [], 5);
    assert [a] + [t] == FAILED_GENERATION;
  }

  lemma NothingStops(s: Text)
    ensures StopFree(s, [])
  {
  }

  /** Streamed, it is billed at zero; answered in one body, it is not billed at all. */
  lemma {:induction false} FailureIsMeteredTwoWays(enc: Chunk -> string, encBody: Response -> string,
      dec: string -> Option<Option<Usage>>,
                                chunks: seq<Chunk>)
    requires Codec(enc, encBody, dec) && Streams(chunks, FAILED_GENERATION) && Fits(enc, chunks)
    ensures Scanned(Lines(Wire(enc, chunks)), dec, None) == Some(NO_USAGE)
    ensures !ErrorFree(FAILED_GENERATION) && dec(encBody(ServerError)) == Some(None)
  {
    var draws := (i: nat) => Piece("a", false);
    FailedGenerationIsOne(draws);
    GenerationIsMetered(enc, encBody, dec, 3, draws, [], 5, FAILED_GENERATION, chunks);
    assert FAILED_GENERATION[1].failed;
  }
}
