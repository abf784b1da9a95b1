/** The engine's HTTP answers: one blocking body, or a stream of chunks, for chat and for
    plain completions. A channel that has been closed is a finite sequence of tokens. Text is
    bytes until it is encoded as JSON, whole in a body and piece by piece in a stream. */
module Rendering {
  import opened Base
  import opened Decode
  import opened Utf8

  datatype Usage = Usage(prompt: nat, completion: nat, total: nat)

  /** One server-sent chunk. The role is set on the first chat chunk only. */
  datatype Chunk = Chunk(role: string, content: Text, finish: Option<Reason>, usage: Option<Usage>)

  datatype Response = Completion(text: Text, finish: Reason, usage: Usage) | ServerError

  const NO_USAGE := Usage(0, 0, 0)

  function UsageOf(t: Token): (u: Usage)
    ensures u.total == u.prompt + u.completion
  {
    Usage(t.promptTokens, t.completionTokens, t.promptTokens + t.completionTokens)
  }

  // ---- what a token sequence means, independently of how it is delivered ----

  ghost predicate ErrorFree(tokens: seq<Token>) {
    forall i | 0 <= i < |tokens| :: !tokens[i].failed
  }

  /** The reason of the last final token that states one, "stop" by default. */
  function FinishOf(tokens: seq<Token>): Reason
    decreases |tokens|
  {
    if tokens == [] then ReasonStop
    else if Last(tokens).done && Last(tokens).reason != ReasonUnstated then Last(tokens).reason
    else FinishOf(Init(tokens))
  }

  /** The counts of the last final token. */
  function BilledOf(tokens: seq<Token>): Usage
    decreases |tokens|
  {
    if tokens == [] then NO_USAGE
    else if Last(tokens).done then UsageOf(Last(tokens))
    else BilledOf(Init(tokens))
  }

  function Texts(tokens: seq<Token>): seq<Text> {
    seq(|tokens|, i requires 0 <= i < |tokens| => tokens[i].text)
  }

  /** The tokens before the first one that failed. */
  function BeforeError(tokens: seq<Token>): seq<Token> {
    if tokens == [] || tokens[0].failed then [] else [tokens[0]] + BeforeError(tokens[1..])
  }

  // ---- what a stream of chunks means to its reader ----

  function Contents(chunks: seq<Chunk>): Text
    decreases |chunks|
  {
    if chunks == [] then "" else Contents(Init(chunks)) + Last(chunks).content
  }

  /** The text a reader assembles, each chunk having been encoded on its own. */
  function TextRead(chunks: seq<Chunk>): Text
    decreases |chunks|
  {
    if chunks == [] then "" else TextRead(Init(chunks)) + Kept(Last(chunks).content)
  }

  function FinishSeen(chunks: seq<Chunk>): Option<Reason>
    decreases |chunks|
  {
    if chunks == [] then None
    else if Last(chunks).finish.Some? then Last(chunks).finish
    else FinishSeen(Init(chunks))
  }

  function UsageSeen(chunks: seq<Chunk>): Option<Usage>
    decreases |chunks|
  {
    if chunks == [] then None
    else if Last(chunks).usage.Some? then Last(chunks).usage
    else UsageSeen(Init(chunks))
  }

  lemma ChunkSnoc(chunks: seq<Chunk>, c: Chunk)
    ensures Contents(chunks + [c]) == Contents(chunks) + c.content
    ensures TextRead(chunks + [c]) == TextRead(chunks) + Kept(c.content)
    ensures FinishSeen(chunks + [c]) == if c.finish.Some? then c.finish else FinishSeen(chunks)
    ensures UsageSeen(chunks + [c]) == if c.usage.Some? then c.usage else UsageSeen(chunks)
  {
    Snoc(chunks, c);
  }

  lemma TokenSnoc(tokens: seq<Token>, i: nat)
    requires i < |tokens|
    ensures var t := tokens[i];
      && Sent(tokens[..i + 1]) == Sent(tokens[..i]) + t.text
      && FinishOf(tokens[..i + 1]) == (if t.done && t.reason != ReasonUnstated then t.reason else FinishOf(tokens[..i]))
      && BilledOf(tokens[..i + 1]) == (if t.done then UsageOf(t) else BilledOf(tokens[..i]))
  {
    assert Init(tokens[..i + 1]) == tokens[..i] && Last(tokens[..i + 1]) == tokens[i];
  }

  lemma {:induction false} TokenAdded(tokens: seq<Token>, t: Token)
    ensures FinishOf(tokens + [t]) == if t.done && t.reason != ReasonUnstated then t.reason else FinishOf(tokens)
    ensures BilledOf(tokens + [t]) == if t.done then UsageOf(t) else BilledOf(tokens)
  {
    Snoc(tokens, t);
  }

  lemma {:induction false} TextAdded(tokens: seq<Token>, t: Token)
    ensures Sent(tokens + [t]) == Sent(tokens) + t.text
    ensures KeptEach(Texts(tokens + [t])) == KeptEach(Texts(tokens)) + Kept(t.text)
  {
    Snoc(tokens, t);
    var texts := Texts(tokens + [t]);
    assert Init(texts) == Texts(tokens) && Last(texts) == t.text;
  }

  lemma {:induction false} SentIsJoined(tokens: seq<Token>)
    ensures Sent(tokens) == Joined(Texts(tokens))
    decreases |tokens|
  {
    if tokens == [] {
    } else {
      SentIsJoined(Init(tokens));
      assert Init(Texts(tokens)) == Texts(Init(tokens)) && Last(Texts(tokens)) == Last(tokens).text;
    }
  }

  lemma {:induction false} BeforeErrorIs(tokens: seq<Token>, i: nat)
    requires i <= |tokens| && ErrorFree(tokens[..i]) && (i < |tokens| ==> tokens[i].failed)
    ensures BeforeError(tokens) == tokens[..i]
    decreases |tokens|
  {
    if i == 0 {
    } else {
      assert tokens[0] == tokens[..i][0];
      assert tokens[1..][..i - 1] == tokens[..i][1..];
      BeforeErrorIs(tokens[1..], i - 1);
      assert tokens[..i] == [tokens[0]] + tokens[1..][..i - 1];
    }
  }

  // ---- the handlers ----

  /** A failure before anything is written is still a proper error. Chat and plain
      completions differ only in the shape the same three values are wrapped in. */
  method Blocking(tokens: seq<Token>) returns (r: Response)
    ensures ErrorFree(tokens) ==> r == Completion(Sent(tokens), FinishOf(tokens), BilledOf(tokens))
    ensures !ErrorFree(tokens) ==> r == ServerError
    ensures ErrorFree(tokens) && tokens != [] && Last(tokens).done ==>
      var t := Last(tokens);
      && r.usage == Usage(t.promptTokens, t.completionTokens, t.promptTokens + t.completionTokens)
      && (t.reason != ReasonUnstated ==> r.finish == t.reason)
  {
    var text, finish, u := "", ReasonStop, NO_USAGE;
    for i := 0 to |tokens|
      invariant ErrorFree(tokens[..i])
      invariant text == Sent(tokens[..i]) && finish == FinishOf(tokens[..i]) && u == BilledOf(tokens[..i])
    {
      var tok := tokens[i];
      if tok.failed {
        return ServerError;
      }
      TokenSnoc(tokens, i);
      text := text + tok.text;
      if tok.done {
        if tok.reason != ReasonUnstated {
          finish := tok.reason;
        }
        u := UsageOf(tok);
      }
    }
    assert tokens[..|tokens|] == tokens;
    return Completion(text, finish, u);
  }

  ghost predicate NoUsage(chunks: seq<Chunk>) {
    forall i | 0 <= i < |chunks| :: chunks[i].usage.None? && chunks[i].finish.None?
  }

  /** The chunks carry the text of the tokens, and each piece of it as it is encoded by itself. */
  ghost predicate Carries(chunks: seq<Chunk>, tokens: seq<Token>) {
    Contents(chunks) == Sent(tokens) && TextRead(chunks) == KeptEach(Texts(tokens))
  }

  lemma {:induction false} CarriesOn(chunks: seq<Chunk>, tokens: seq<Token>, t: Token)
    requires Carries(chunks, tokens)
    ensures t.text == "" ==> Carries(chunks, tokens + [t])
    ensures Carries(chunks + [Chunk("", t.text, None, None)], tokens + [t])
  {
    TextAdded(tokens, t);
    ChunkSnoc(chunks, Chunk("", t.text, None, None));
  }

  /** What a handler knows after some tokens: their text is in its chunks, and it remembers their
      finish reason and counts. */
  ghost predicate UpTo(chunks: seq<Chunk>, finish: Reason, u: Usage, tokens: seq<Token>) {
    NoUsage(chunks) && Carries(chunks, tokens) && finish == FinishOf(tokens) && u == BilledOf(tokens)
  }

  /** What both streaming handlers do with one token: a chunk for nonempty text, and the finish
      reason and the counts of a final token are remembered. */
  method StreamToken(tok: Token, chunks: seq<Chunk>, finish: Reason, u: Usage, ghost tokens: seq<Token>)
    returns (more: seq<Chunk>, finish': Reason, u': Usage)
    requires UpTo(chunks, finish, u, tokens)
    ensures UpTo(more, finish', u', tokens + [tok]) && chunks <= more
  {
    TokenAdded(tokens, tok);
    CarriesOn(chunks, tokens, tok);
    more, finish', u' := chunks, finish, u;
    if tok.text != "" {
      more := chunks + [Chunk("", tok.text, None, None)];
    }
    if tok.done {
      if tok.reason != ReasonUnstated {
        finish' := tok.reason;
      }
      u' := UsageOf(tok);
    }
  }

  /** Tokens as they arrive, until a failure, which merely ends the stream, because the status
      line has already gone out. */
  method StreamBody(tokens: seq<Token>, first: seq<Chunk>) returns (chunks: seq<Chunk>, finish: Reason, u: Usage)
    requires NoUsage(first) && Carries(first, [])
    ensures first <= chunks && UpTo(chunks, finish, u, BeforeError(tokens))
  {
    chunks, finish, u := first, ReasonStop, NO_USAGE;
    ghost var heard: seq<Token> := [];
    var i := 0;
    while i < |tokens|
      invariant 0 <= i <= |tokens| && heard == tokens[..i] && ErrorFree(heard)
      invariant first <= chunks && UpTo(chunks, finish, u, heard)
    {
      var tok := tokens[i];
      if tok.failed {
        break;
      }
      chunks, finish, u := StreamToken(tok, chunks, finish, u, heard);
      heard := heard + [tok];
      i := i + 1;
    }
    BeforeErrorIs(tokens, i);
  }

  /** The chunks of a stream: usage-free chunks and then one chunk, the last, with the usage. */
  ghost predicate Streams(chunks: seq<Chunk>, tokens: seq<Token>) {
    var heard := BeforeError(tokens);
    && chunks != []
    && (forall i | 0 <= i < |chunks| - 1 :: chunks[i].usage.None?)
    && Last(chunks).usage == Some(BilledOf(heard))
    && Carries(chunks, heard)
    && FinishSeen(chunks) == Some(FinishOf(heard))
  }

  /** Chat: a role chunk first, the finish reason on a chunk of its own, then the usage. */
  method StreamChat(tokens: seq<Token>) returns (chunks: seq<Chunk>)
    ensures Streams(chunks, tokens)
    ensures chunks[0].role == "assistant" && chunks[0].content == ""
    ensures |chunks| >= 3 && chunks[|chunks| - 2].finish.Some? && chunks[|chunks| - 1].finish.None?
  {
    var hello := Chunk("assistant", "", None, None);
    ChunkSnoc([], hello);
    assert [] + [hello] == [hello];
    var body, finish, u := StreamBody(tokens, [hello]);
    var farewell, bill := Chunk("", "", Some(finish), None), Chunk("", "", None, Some(u));
    ChunkSnoc(body, farewell);
    ChunkSnoc(body + [farewell], bill);
    chunks := body + [farewell] + [bill];
    assert Last(chunks) == bill;
  }

  /** Plain completions: the finish reason and the usage ride on the same last chunk. */
  method StreamText(tokens: seq<Token>) returns (chunks: seq<Chunk>)
    ensures Streams(chunks, tokens) && Last(chunks).finish.Some?
  {
    var body, finish, u := StreamBody(tokens, []);
    var farewell := Chunk("", "", Some(finish), Some(u));
    ChunkSnoc(body, farewell);
    chunks := body + [farewell];
    assert Last(chunks) == farewell;
  }

  lemma {:induction false} ErrorFreeKeepsAll(tokens: seq<Token>)
    ensures ErrorFree(tokens) ==> BeforeError(tokens) == tokens
  {
    if ErrorFree(tokens) {
      assert tokens[..|tokens|] == tokens;
      BeforeErrorIs(tokens, |tokens|);
    }
  }

  /** What streaming preserves: for every error-free token sequence the finish reason, the usage
      and the bytes sent are those of the blocking answer; and the text the two readers end up
      with is the same if and only if no token ends inside a character. */
  lemma StreamingPreservesMeaning(tokens: seq<Token>, chunks: seq<Chunk>)
    requires ErrorFree(tokens) && Streams(chunks, tokens)
    ensures Contents(chunks) == Sent(tokens)
    ensures FinishSeen(chunks) == Some(FinishOf(tokens))
    ensures UsageSeen(chunks) == Some(BilledOf(tokens))
    ensures TextRead(chunks) == Kept(Sent(tokens)) <==> NoneSplit(Texts(tokens))
  {
    ErrorFreeKeepsAll(tokens);
    SentIsJoined(tokens);
    PiecesReadWholeIff(Texts(tokens));
  }

  /** Asks both handlers for the same tokens and compares what a client learns. */
  method BothAgree(tokens: seq<Token>, chat: bool) returns (r: Response, chunks: seq<Chunk>)
    ensures ErrorFree(tokens) ==>
      && r.Completion?
      && FinishSeen(chunks) == Some(r.finish) && UsageSeen(chunks) == Some(r.usage)
      && (TextRead(chunks) == Kept(r.text) <==> NoneSplit(Texts(tokens)))
  {
    r := Blocking(tokens);
    if chat {
      chunks := StreamChat(tokens);
    } else {
      chunks := StreamText(tokens);
    }
    if ErrorFree(tokens) {
      StreamingPreservesMeaning(tokens, chunks);
    }
  }

  // ---- a character in two tokens ----

  const EURO := "\U{E2}\U{82}\U{AC}"

  /** A generation of two pieces, a byte and two bytes of one character, cut off by the limit. */
  const SPLIT_GENERATION := [
    Token(EURO[..1], false, ReasonUnstated, false, 0, 0),
    Token(EURO[1..], false, ReasonUnstated, false, 0, 0),
    Token("", true, ReasonLength, false, 1, 2)]

  lemma EuroIsKept()
    ensures WellFormed(EURO) && Kept(EURO) == EURO
  {
    assert CharLength(EURO) == 3 && EURO[3..] == "";
    KeptAsItIs(EURO);
  }

  lemma SplitGenerationText()
    ensures Joined(Texts(SPLIT_GENERATION)) == EURO && !WellFormed(Texts(SPLIT_GENERATION)[0])
  {
    var texts := Texts(SPLIT_GENERATION);
    assert texts == [EURO[..1], EURO[1..], ""];
    assert Init(texts) == [EURO[..1], EURO[1..]] && Init(Init(texts)) == [EURO[..1]] && Init(Init(Init(texts))) == [];
    assert Joined([EURO[..1]]) == EURO[..1];
    assert EURO[..1] + EURO[1..] == EURO;
    assert CharLength(EURO[..1]) == 0;
  }

  lemma SplitGenerationIsOne(draws: nat -> Draw)
    requires draws(0) == Piece(EURO[..1], true) && draws(1) == Piece(EURO[1..], true)
    ensures Finished(SPLIT_GENERATION, 1, draws, [], 2)
  {
    var a, b, t := SPLIT_GENERATION[0], SPLIT_GENERATION[1], SPLIT_GENERATION[2];
    assert Flowing([], "", draws, [], 0);
    assert "" + EURO[..1] == EURO[..1] && [] + [a] == [a];
    Flows([], "", draws, [], 0);
    Flows([a], EURO[..1], draws, [], 1);
    PlainEnd([a] + [b], EURO[..1] + EURO[1..], t, 1, draws, [], 2);
    assert [a] + [b] + [t] == SPLIT_GENERATION;
  }

  /** Read from one body it is the euro sign; read from a stream it is not. */
  lemma SplitCharacterIsLost(chunks: seq<Chunk>)
    requires Streams(chunks, SPLIT_GENERATION)
    ensures Kept(Sent(SPLIT_GENERATION)) == EURO && TextRead(chunks) != EURO
  {
    var tokens := SPLIT_GENERATION;
    EuroIsKept();
    SplitGenerationText();
    SentIsJoined(tokens);
    StreamingPreservesMeaning(tokens, chunks);
    WholeIsKeptIff(Texts(tokens));
  }
}
