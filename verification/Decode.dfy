/** The decode loop: sampling, detokenising and decoding are oracles; what is modelled is
    when generation stops, what text leaves, and what is billed. Text is a sequence of bytes. */
module Decode {
  import opened Base

  type Text = string

  /** What one iteration of the loop finds: the caller gone, an end-of-generation token, a
      token that has no text, or a piece — after which the next decode works or not. */
  datatype Draw = CallerGone | EndOfGeneration | NoPiece | Piece(text: Text, decoded: bool)

  /** The finish reason on the final token: "", "stop" or "length" on the wire. */
  datatype Reason = ReasonUnstated | ReasonStop | ReasonLength

  datatype Token = Token(text: Text, done: bool, reason: Reason, failed: bool, promptTokens: nat, completionTokens: nat)

  const DEFAULT_MAX_TOKENS := 512

  function Limit(maxTokens: int): nat {
    if maxTokens <= 0 then DEFAULT_MAX_TOKENS else maxTokens
  }

  // ---- stop sequences ----

  predicate MatchesAt(s: Text, t: Text, p: int) {
    0 <= p && p + |t| <= |s| && s[p..p + |t|] == t
  }

  /** Some nonempty stop sequence occurs in s at p. */
  ghost predicate StopAt(s: Text, stops: seq<Text>, p: int) {
    exists stop | stop in stops :: stop != "" && MatchesAt(s, stop, p)
  }

  ghost predicate StopFree(s: Text, stops: seq<Text>) {
    forall p :: !StopAt(s, stops, p)
  }

  /** The position is where the first stop sequence of s begins. */
  ghost predicate EarliestStop(s: Text, stops: seq<Text>, p: int) {
    StopAt(s, stops, p) && forall q | q < p :: !StopAt(s, stops, q)
  }

  /** Substring search: the first match at or after `from`, or -1. */
  function Index(s: Text, t: Text, from: nat): (r: int)
    requires from <= |s|
    ensures r == -1 || (from <= r && MatchesAt(s, t, r))
    ensures forall q | from <= q && (r == -1 || q < r) :: !MatchesAt(s, t, q)
    decreases |s| - from
  {
    if MatchesAt(s, t, from) then from
    else if from == |s| then -1
    else Index(s, t, from + 1)
  }

  /** `best` is where the first stop of s begins, or -1 when there is none. */
  ghost predicate IsBest(s: Text, stops: seq<Text>, best: int) {
    if best == -1 then StopFree(s, stops) else 0 <= best <= |s| && EarliestStop(s, stops, best)
  }

  method IndexAnyStop(s: Text, stops: seq<Text>) returns (best: int)
    ensures IsBest(s, stops, best)
  {
    best := -1;
    for k := 0 to |stops|
      invariant IsBest(s, stops[..k], best)
    {
      assert stops[..k + 1] == stops[..k] + [stops[k]];
      BestSnoc(s, stops[..k], stops[k], best);
      if stops[k] == "" {
        continue;
      }
      var i := Index(s, stops[k], 0);
      if i >= 0 && (best < 0 || i < best) {
        best := i;
      }
    }
    assert stops[..|stops|] == stops;
  }

  lemma BestSnoc(s: Text, stops: seq<Text>, stop: Text, best: int)
    requires IsBest(s, stops, best)
    ensures var i := Index(s, stop, 0);
      IsBest(s, stops + [stop], if stop != "" && i >= 0 && (best < 0 || i < best) then i else best)
  {
    forall p ensures StopAt(s, stops + [stop], p) <==> StopAt(s, stops, p) || (stop != "" && MatchesAt(s, stop, p)) {
      StopAtSnoc(s, stops, stop, p);
    }
  }

  lemma StopAtSnoc(s: Text, stops: seq<Text>, stop: Text, p: int)
    ensures StopAt(s, stops + [stop], p) <==> StopAt(s, stops, p) || (stop != "" && MatchesAt(s, stop, p))
  {
    if StopAt(s, stops, p) {
      var x :| x in stops && x != "" && MatchesAt(s, x, p);
      assert x in stops + [stop];
    }
    if stop != "" && MatchesAt(s, stop, p) {
      assert stop in stops + [stop];
    }
  }

  // ---- text of a prefix of the draws, and text sent ----

  ghost predicate AllPieces(draws: nat -> Draw, k: nat) {
    forall i | 0 <= i < k :: draws(i).Piece?
  }

  /** Generation never goes on after a failed decode: each of the first k pieces but the last was decoded. */
  ghost predicate DecodedOnTheWay(draws: nat -> Draw, k: nat) {
    forall i | 0 <= i < k - 1 :: draws(i).Piece? && draws(i).decoded
  }

  function Generated(draws: nat -> Draw, k: nat): Text {
    if k == 0 then "" else Generated(draws, k - 1) + (if draws(k - 1).Piece? then draws(k - 1).text else "")
  }

  function Sent(out: seq<Token>): Text
    decreases |out|
  {
    if out == [] then "" else Sent(Init(out)) + Last(out).text
  }

  /** Ordinary tokens: text on the way, no accounting yet. */
  ghost predicate Ordinary(out: seq<Token>) {
    forall i | 0 <= i < |out| :: !out[i].done && !out[i].failed
  }

  lemma SentSnoc(out: seq<Token>, t: Token)
    ensures Sent(out + [t]) == Sent(out) + t.text
  {
    Snoc(out, t);
  }

  // ---- what a finished generation guarantees ----

  /** Exactly one final token, last, carrying the prompt length and the number of pieces
      accepted, which never exceeds the limit. */
  ghost predicate Accounted(out: seq<Token>, promptLen: nat, draws: nat -> Draw, limit: nat) {
    && out != []
    && Ordinary(Init(out))
    && Last(out).done && Last(out).text == ""
    && Last(out).promptTokens == promptLen
    && Last(out).completionTokens <= limit
    && AllPieces(draws, Last(out).completionTokens)
    && DecodedOnTheWay(draws, Last(out).completionTokens)
  }

  /** Of the accepted pieces, the text sent is a prefix that contains no stop sequence. If a
      stop occurs, it first occurs with the last accepted piece, and the text sent runs past
      its start by less than the length of any stop matching there; if none occurs, all of
      the text was sent. */
  ghost predicate StoppedRight(out: seq<Token>, draws: nat -> Draw, stops: seq<Text>)
    requires out != []
  {
    var k := Last(out).completionTokens;
    var text := Generated(draws, k);
    && Sent(out) <= text
    && StopFree(Sent(out), stops)
    && (StopFree(text, stops) ==> Sent(out) == text)
    && (!StopFree(text, stops) ==>
          && k > 0 && StopFree(Generated(draws, k - 1), stops)
          && Last(out).reason == ReasonStop && !Last(out).failed
          && forall p | EarliestStop(text, stops, p) :: StopsShort(Sent(out), Generated(draws, k - 1), text, stops, p))
  }

  /** The text sent ends at p, or is all that was sent before the stop at p was completed, and
      runs past p by less than the length of any stop matching there. */
  ghost predicate StopsShort(sent: Text, before: Text, text: Text, stops: seq<Text>, p: int) {
    && p <= |sent|
    && (|sent| == p || sent == before)
    && forall stop | stop in stops && stop != "" && MatchesAt(text, stop, p) :: |sent| - p < |stop|
  }

  /** Cutting text just before its first stop leaves no stop behind. */
  lemma CutIsStopFree(s: Text, stops: seq<Text>, cut: nat)
    requires cut <= |s| && EarliestStop(s, stops, cut)
    ensures StopFree(s[..cut], stops)
  {
    forall p ensures !StopAt(s[..cut], stops, p) {
      if StopAt(s[..cut], stops, p) {
        var stop :| stop in stops && stop != "" && MatchesAt(s[..cut], stop, p);
        assert s[..cut][p..p + |stop|] == s[p..p + |stop|];
        assert StopAt(s, stops, p);
      }
    }
  }

  lemma StopWithin(s: Text, piece: Text, stops: seq<Text>, stop: Text, p: int)
    requires stop in stops && stop != "" && MatchesAt(s + piece, stop, p) && p + |stop| <= |s|
    ensures StopAt(s, stops, p)
  {
    assert s[p..p + |stop|] == (s + piece)[p..p + |stop|];
    assert MatchesAt(s, stop, p);
  }

  /** A stop that first shows up in s + piece cannot lie entirely inside s. */
  lemma NewStopReachesPast(s: Text, piece: Text, stops: seq<Text>, stop: Text, p: int)
    requires StopFree(s, stops) && stop in stops && stop != "" && MatchesAt(s + piece, stop, p)
    ensures |s| - p < |stop|
  {
    if p + |stop| <= |s| {
      StopWithin(s, piece, stops, stop, p);
      assert false;
    }
  }

  /** The loop state after i accepted pieces: all of their text was sent and none of it stops. */
  ghost predicate Flowing(out: seq<Token>, text: Text, draws: nat -> Draw, stops: seq<Text>, i: nat) {
    && AllPieces(draws, i) && DecodedOnTheWay(draws, i)
    && text == Generated(draws, i) && text == Sent(out)
    && StopFree(text, stops) && Ordinary(out)
  }

  /** Without a stop sequence: all pieces decoded and then the limit, the model's own end, the
      caller leaving or a token without text; or a last piece that could not be decoded. */
  ghost predicate EndCause(t: Token, draws: nat -> Draw, limit: nat) {
    var k := t.completionTokens;
    || (DecodedOnTheWay(draws, k + 1) && (
          || (t.reason == ReasonLength && !t.failed && k == limit)
          || (k < limit && t.reason == ReasonStop && !t.failed && draws(k) == EndOfGeneration)
          || (k < limit && t.reason == ReasonStop && t.failed && draws(k) == CallerGone)
          || (k < limit && t.reason == ReasonUnstated && t.failed && draws(k) == NoPiece)))
    || (k > 0 && t.reason == ReasonUnstated && t.failed && draws(k - 1).Piece? && !draws(k - 1).decoded)
  }

  /** Every guarantee about a finished generation. */
  ghost predicate Finished(out: seq<Token>, promptLen: nat, draws: nat -> Draw, stops: seq<Text>, limit: nat) {
    && Accounted(out, promptLen, draws, limit)
    && StoppedRight(out, draws, stops)
    && (StopFree(Generated(draws, Last(out).completionTokens), stops) ==> EndCause(Last(out), draws, limit))
  }

  lemma PlainEnd(out: seq<Token>, text: Text, t: Token, promptLen: nat, draws: nat -> Draw, stops: seq<Text>,
      limit: nat)
    requires Flowing(out, text, draws, stops, t.completionTokens) && t.completionTokens <= limit
    requires t.done && t.text == "" && t.promptTokens == promptLen && EndCause(t, draws, limit)
    ensures Finished(out + [t], promptLen, draws, stops, limit)
  {
    SentSnoc(out, t);
    Snoc(out, t);
    assert Sent(out + [t]) == text;
  }

  /** The tokens sent when the piece completes a stop that begins at idx. */
  function Tail(before: Text, text: Text, idx: nat): seq<Token>
    requires before <= text && idx <= |text|
  {
    if idx > |before| then [Token(text[|before|..idx], false, ReasonUnstated, false, 0, 0)] else []
  }

  lemma TailSent(out: seq<Token>, before: Text, text: Text, idx: nat)
    requires Sent(out) == before && before <= text && idx <= |text| && Ordinary(out)
    ensures Sent(out + Tail(before, text, idx)) == if idx > |before| then text[..idx] else before
    ensures Ordinary(out + Tail(before, text, idx))
  {
    if idx > |before| {
      SentSnoc(out, Tail(before, text, idx)[0]);
      assert before + text[|before|..idx] == text[..idx];
    } else {
      assert out + Tail(before, text, idx) == out;
    }
  }

  lemma CutStopsShort(before: Text, piece: Text, stops: seq<Text>, idx: nat, sent: Text)
    requires StopFree(before, stops) && idx <= |before + piece| && EarliestStop(before + piece, stops, idx)
    requires sent == if idx > |before| then (before + piece)[..idx] else before
    ensures StopFree(sent, stops) && sent <= before + piece
    ensures StopsShort(sent, before, before + piece, stops, idx)
  {
    if idx > |before| {
      CutIsStopFree(before + piece, stops, idx);
    }
    forall stop | stop in stops && stop != "" && MatchesAt(before + piece, stop, idx) ensures |sent| - idx < |stop| {
      NewStopReachesPast(before, piece, stops, stop, idx);
    }
  }

  lemma EarliestUnique(s: Text, stops: seq<Text>, p: int, q: int)
    requires EarliestStop(s, stops, p) && EarliestStop(s, stops, q)
    ensures p == q
  {
  }

  /** The stop clause of a finished generation, from facts about its texts alone. */
  lemma StopClause(all: seq<Token>, t: Token, before: Text, piece: Text, sent: Text, draws: nat -> Draw,
      stops: seq<Text>, idx: int)
    requires all != [] && Last(all) == t && t.completionTokens > 0 && t.reason == ReasonStop && !t.failed
    requires before == Generated(draws, t.completionTokens - 1)
    requires draws(t.completionTokens - 1).Piece? && draws(t.completionTokens - 1).text == piece
    requires StopFree(before, stops) && EarliestStop(before + piece, stops, idx)
    requires Sent(all) == sent && sent <= before + piece && StopFree(sent, stops)
    requires StopsShort(sent, before, before + piece, stops, idx)
    ensures StoppedRight(all, draws, stops) && !StopFree(Generated(draws, t.completionTokens), stops)
  {
    var text := before + piece;
    assert StopAt(text, stops, idx);
    forall p | EarliestStop(text, stops, p) ensures StopsShort(sent, before, text, stops, p) {
      EarliestUnique(text, stops, p, idx);
    }
  }

  lemma FinalToken(body: seq<Token>, t: Token, promptLen: nat, draws: nat -> Draw, limit: nat)
    requires Ordinary(body) && t.done && t.text == "" && t.promptTokens == promptLen
    requires t.completionTokens <= limit
    requires AllPieces(draws, t.completionTokens) && DecodedOnTheWay(draws, t.completionTokens)
    ensures Accounted(body + [t], promptLen, draws, limit) && Last(body + [t]) == t
    ensures Sent(body + [t]) == Sent(body)
  {
    SentSnoc(body, t);
    Snoc(body, t);
  }

  lemma StopEnd(out: seq<Token>, before: Text, piece: Text, idx: nat, t: Token, promptLen: nat, draws: nat -> Draw,
                stops: seq<Text>, limit: nat)
    requires t.completionTokens > 0 && t.completionTokens <= limit
    requires Flowing(out, before, draws, stops, t.completionTokens - 1)
    requires draws(t.completionTokens - 1).Piece? && draws(t.completionTokens - 1).text == piece
    requires DecodedOnTheWay(draws, t.completionTokens)
    requires idx <= |before + piece| && EarliestStop(before + piece, stops, idx)
    requires t == Token("", true, ReasonStop, false, promptLen, t.completionTokens)
    ensures Finished(out + Tail(before, before + piece, idx) + [t], promptLen, draws, stops, limit)
  {
    var text := before + piece;
    var all := out + Tail(before, text, idx) + [t];
    var sent := if idx > |before| then text[..idx] else before;
    assert Accounted(all, promptLen, draws, limit) && Last(all) == t && Sent(all) == sent by {
      TailSent(out, before, text, idx);
      FinalToken(out + Tail(before, text, idx), t, promptLen, draws, limit);
    }
    CutStopsShort(before, piece, stops, idx, sent);
    StopClause(all, t, before, piece, sent, draws, stops, idx);
  }

  /** Ends a generation that no stop sequence ended. */
  method PlainExit(out: seq<Token>, ghost text: Text, t: Token, ghost draws: nat -> Draw, ghost stops: seq<Text>,
                   ghost limit: nat) returns (all: seq<Token>)
    requires Flowing(out, text, draws, stops, t.completionTokens) && t.completionTokens <= limit
    requires t.done && t.text == "" && EndCause(t, draws, limit)
    ensures Finished(all, t.promptTokens, draws, stops, limit)
  {
    PlainEnd(out, text, t, t.promptTokens, draws, stops, limit);
    all := out + [t];
  }

  /** Ends a generation whose last piece completed a stop sequence: only the text before the
      stop leaves, and of that only what was not already sent. */
  method StopExit(out: seq<Token>, text: Text, emitted: nat, idx: nat, t: Token, ghost draws: nat -> Draw,
                  ghost stops: seq<Text>, ghost limit: nat) returns (all: seq<Token>)
    requires t.completionTokens > 0 && t.completionTokens <= limit && emitted <= |text|
    requires Flowing(out, text[..emitted], draws, stops, t.completionTokens - 1)
    requires draws(t.completionTokens - 1).Piece? && draws(t.completionTokens - 1).text == text[emitted..]
    requires DecodedOnTheWay(draws, t.completionTokens)
    requires idx <= |text| && EarliestStop(text, stops, idx)
    requires t == Token("", true, ReasonStop, false, t.promptTokens, t.completionTokens)
    ensures Finished(all, t.promptTokens, draws, stops, limit)
  {
    assert text[..emitted] + text[emitted..] == text;
    StopEnd(out, text[..emitted], text[emitted..], idx, t, t.promptTokens, draws, stops, limit);
    all := out;
    if idx > emitted {
      all := all + [Token(text[emitted..idx], false, ReasonUnstated, false, 0, 0)];
    }
    assert all == out + Tail(text[..emitted], text, idx);
    all := all + [t];
  }

  /** One more piece, all of it sent. */
  lemma Flows(out: seq<Token>, text: Text, draws: nat -> Draw, stops: seq<Text>, i: nat)
    requires Flowing(out, text, draws, stops, i)
    requires draws(i).Piece? && StopFree(text + draws(i).text, stops) && DecodedOnTheWay(draws, i + 1)
    ensures Flowing(out + [Token(draws(i).text, false, ReasonUnstated, false, 0, 0)], text + draws(i).text, draws, stops, i + 1)
  {
    SentSnoc(out, Token(draws(i).text, false, ReasonUnstated, false, 0, 0));
  }

  /** For every prompt, piece sequence, stop list and limit, the stream of tokens is accounted
      for, cut at the first stop, and ended for the stated reason. */
  method Generate(promptLen: nat, prefilled: bool, maxTokens: int, stops: seq<Text>, draws: nat -> Draw)
    returns (out: seq<Token>)
    ensures prefilled ==> Finished(out, promptLen, draws, stops, Limit(maxTokens))
    ensures prefilled ==>
      var most := if maxTokens > 0 then maxTokens else 512;
      && out != [] && Last(out).completionTokens <= most
      && (Last(out).reason == ReasonLength ==> Last(out).completionTokens == most)
    ensures !prefilled ==> out == [Token("", true, ReasonUnstated, true, promptLen, 0)]
  {
    if !prefilled {
      return [Token("", true, ReasonUnstated, true, promptLen, 0)];
    }
    var limit := Limit(maxTokens);
    var text, generated := "", 0;
    out := [];
    for i := 0 to limit
      invariant generated == i && Flowing(out, text, draws, stops, i)
      invariant DecodedOnTheWay(draws, i + 1)
    {
      var draw := draws(i);
      if !draw.Piece? {
        var reason := if draw.NoPiece? then ReasonUnstated else ReasonStop;
        out := PlainExit(out, text, Token("", true, reason, !draw.EndOfGeneration?, promptLen, generated), draws, stops, limit);
        return;
      }
      var emitted := |text|;
      ghost var before := text;
      text := text + draw.text;
      assert text[..emitted] == before && text[emitted..] == draw.text;
      var idx := IndexAnyStop(text, stops);
      generated := generated + 1;
      if idx >= 0 {
        out := StopExit(out, text, emitted, idx, Token("", true, ReasonStop, false, promptLen, generated), draws, stops, limit);
        return;
      }
      Flows(out, before, draws, stops, i);
      out := out + [Token(draw.text, false, ReasonUnstated, false, 0, 0)];
      if !draw.decoded {
        out := PlainExit(out, text, Token("", true, ReasonUnstated, true, promptLen, generated), draws, stops, limit);
        return;
      }
    }
    out := PlainExit(out, text, Token("", true, ReasonLength, false, promptLen, generated), draws, stops, limit);
  }
}
