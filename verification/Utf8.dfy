/** What a JSON string keeps of bytes that need not be UTF-8: well-formed characters stay, and
    every byte that is not part of one is replaced. A character of a Dafny string is one byte here. */
module Utf8 {
  import opened Base

  predicate Between(c: char, low: int, high: int) {
    low <= c as int <= high
  }

  /** A continuation byte. */
  predicate Continues(c: char) {
    Between(c, 0x80, 0xBF)
  }

  predicate ThreeBytes(a: char, b: char) {
    || (Between(a, 0xE0, 0xE0) && Between(b, 0xA0, 0xBF))
    || (Between(a, 0xE1, 0xEC) && Continues(b))
    || (Between(a, 0xED, 0xED) && Between(b, 0x80, 0x9F))
    || (Between(a, 0xEE, 0xEF) && Continues(b))
  }

  predicate FourBytes(a: char, b: char) {
    || (Between(a, 0xF0, 0xF0) && Between(b, 0x90, 0xBF))
    || (Between(a, 0xF1, 0xF3) && Continues(b))
    || (Between(a, 0xF4, 0xF4) && Between(b, 0x80, 0x8F))
  }

  /** The length of the well-formed character t begins with, or 0 when it begins with none
      (table 3-7 of the Unicode Standard). */
  function CharLength(t: string): (k: nat)
    ensures k <= |t| && k <= 4
    ensures forall i | 0 < i < k :: Continues(t[i])
    ensures t != "" && Continues(t[0]) ==> k == 0
  {
    if t == "" then 0
    else if Between(t[0], 0, 0x7F) then 1
    else if |t| >= 2 && Between(t[0], 0xC2, 0xDF) && Continues(t[1]) then 2
    else if |t| >= 3 && ThreeBytes(t[0], t[1]) && Continues(t[2]) then 3
    else if |t| >= 4 && FourBytes(t[0], t[1]) && Continues(t[2]) && Continues(t[3]) then 4
    else 0
  }

  // ---- by code point ----

  /** The bits a continuation byte carries. */
  function Bits(c: char): int {
    c as int - 0x80
  }

  /** The same by code point, as UTF-8 is defined: one, two, three or four bytes stand for a code
      point exactly when it needs that many and is no surrogate. */
  lemma CharLengthMeans(t: string)
    ensures CharLength(t) == 1 <==> t != "" && t[0] as int < 0x80
    ensures CharLength(t) == 2 <==>
      && |t| >= 2 && 0xC0 <= t[0] as int < 0xE0 && Continues(t[1])
      && 0x80 <= (t[0] as int - 0xC0) * 0x40 + Bits(t[1]) <= 0x7FF
    ensures CharLength(t) == 3 <==>
      && |t| >= 3 && 0xE0 <= t[0] as int < 0xF0 && Continues(t[1]) && Continues(t[2])
      && var point := (t[0] as int - 0xE0) * 0x1000 + Bits(t[1]) * 0x40 + Bits(t[2]);
         0x800 <= point <= 0xFFFF && !(0xD800 <= point <= 0xDFFF)
    ensures CharLength(t) == 4 <==>
      && |t| >= 4 && 0xF0 <= t[0] as int < 0xF8 && Continues(t[1]) && Continues(t[2]) && Continues(t[3])
      && var point := (t[0] as int - 0xF0) * 0x4_0000 + Bits(t[1]) * 0x1000 + Bits(t[2]) * 0x40 + Bits(t[3]);
         0x1_0000 <= point <= 0x10_FFFF
  {
  }

  /** The bytes of U+FFFD. */
  const REPLACEMENT := "\U{EF}\U{BF}\U{BD}"

  /** How much the encoder takes at a time: a well-formed character, or a single bad byte. */
  function Taken(t: string): (k: nat)
    requires t != ""
    ensures 1 <= k <= |t|
  {
    if CharLength(t) == 0 then 1 else CharLength(t)
  }

  /** What it makes of that. */
  function HeadKept(t: string): string
    requires t != ""
  {
    if CharLength(t) == 0 then REPLACEMENT else t[..CharLength(t)]
  }

  /** What a reader gets back from the encoding of t. */
  function Kept(t: string): string {
    if t == "" then "" else HeadKept(t) + Kept(t[Taken(t)..])
  }

  predicate WellFormed(t: string) {
    t == "" || (CharLength(t) > 0 && WellFormed(t[CharLength(t)..]))
  }

  /** Reading t from its beginning, some character begins before the cut and ends after it. */
  predicate Splits(t: string, cut: nat)
    requires cut <= |t|
    decreases |t|
  {
    cut != 0 && (Taken(t) > cut || Splits(t[Taken(t)..], cut - Taken(t)))
  }

  // ---- well-formed text is kept as it is, and only it ----

  lemma {:induction false} KeptAsItIs(t: string)
    ensures |Kept(t)| >= |t|
    ensures WellFormed(t) <==> |Kept(t)| == |t|
    ensures WellFormed(t) ==> Kept(t) == t
    decreases |t|
  {
    if t == "" {
    } else {
      KeptAsItIs(t[Taken(t)..]);
      assert t == t[..Taken(t)] + t[Taken(t)..];
    }
  }

  // ---- joining two texts ----

  /** What follows does not change the character a text begins with, if it is complete. */
  lemma HeadStays(a: string, b: string)
    requires a != "" && Taken(a + b) <= |a|
    ensures Taken(a) == Taken(a + b) && HeadKept(a) == HeadKept(a + b)
    ensures (a + b)[Taken(a)..] == a[Taken(a)..] + b
  {
    assert CharLength(a) == CharLength(a + b);
    assert (a + b)[..Taken(a)] == a[..Taken(a)];
  }

  lemma {:induction false} StrayBytes(c: string, rest: string)
    requires forall i | 0 <= i < |c| :: Continues(c[i])
    ensures |Kept(c + rest)| == 3 * |c| + |Kept(rest)|
    decreases |c|
  {
    if c == "" {
      assert c + rest == rest;
    } else {
      assert CharLength(c + rest) == 0 && (c + rest)[1..] == c[1..] + rest;
      StrayBytes(c[1..], rest);
    }
  }

  /** The beginning of a character that is not complete. */
  lemma BeginningIsLost(a: string, b: string)
    requires a != "" && Taken(a + b) > |a|
    ensures |Kept(a)| == 3 * |a|
  {
    var t := a + b;
    assert forall i | 0 < i < |a| :: a[i] == t[i] && Continues(t[i]);
    assert CharLength(a) == 0;
    StrayBytes(a[1..], "");
    assert a[1..] + "" == a[1..];
  }

  /** And its end. */
  lemma EndIsLost(a: string, b: string)
    requires a != "" && Taken(a + b) > |a|
    ensures var k := Taken(a + b);
      |Kept(b)| == 3 * (k - |a|) + |Kept((a + b)[k..])|
  {
    var t, k := a + b, Taken(a + b);
    var c, rest := b[..k - |a|], b[k - |a|..];
    assert forall i | 0 <= i < |c| :: c[i] == t[|a| + i] && Continues(t[|a| + i]);
    assert t[k..] == rest && c + rest == b;
    StrayBytes(c, rest);
  }

  /** A character cut in two is lost on both sides. */
  lemma SplitIsLonger(a: string, b: string)
    requires a != "" && Taken(a + b) > |a|
    ensures |Kept(a + b)| < |Kept(a)| + |Kept(b)|
  {
    BeginningIsLost(a, b);
    EndIsLost(a, b);
    assert |HeadKept(a + b)| == Taken(a + b);
  }

  /** One step of reading a + b, as long as it stays within a. */
  lemma JoinStep(a: string, b: string)
    requires a != "" && Taken(a + b) <= |a|
    ensures var tail := a[Taken(a)..];
      && Kept(a) == HeadKept(a) + Kept(tail) && Kept(a + b) == HeadKept(a) + Kept(tail + b)
      && (Splits(a + b, |a|) <==> Splits(tail + b, |tail|))
  {
    HeadStays(a, b);
  }

  /** Joining commutes with reading exactly when the seam falls between characters; otherwise the
      parts read longer than the whole. */
  lemma {:induction false} JoinIff(a: string, b: string)
    ensures Splits(a + b, |a|) ==> |Kept(a + b)| < |Kept(a)| + |Kept(b)|
    ensures !Splits(a + b, |a|) ==> Kept(a + b) == Kept(a) + Kept(b)
    decreases |a|
  {
    if a == "" {
      assert a + b == b && "" + Kept(b) == Kept(b);
    } else if Taken(a + b) > |a| {
      SplitIsLonger(a, b);
    } else {
      JoinStep(a, b);
      JoinIff(a[Taken(a)..], b);
      Reassociate(HeadKept(a), Kept(a[Taken(a)..]), Kept(b));
    }
  }

  lemma Reassociate(x: string, y: string, z: string)
    ensures x + (y + z) == (x + y) + z
  {
  }

  // ---- joining any number of pieces ----

  function Joined(pieces: seq<string>): string
    decreases |pieces|
  {
    if pieces == [] then "" else Joined(Init(pieces)) + Last(pieces)
  }

  /** Each piece encoded and read on its own. */
  function KeptEach(pieces: seq<string>): string
    decreases |pieces|
  {
    if pieces == [] then "" else KeptEach(Init(pieces)) + Kept(Last(pieces))
  }

  /** No piece ends inside a character of the text so far. */
  predicate NoneSplit(pieces: seq<string>)
    decreases |pieces|
  {
    pieces == [] || (NoneSplit(Init(pieces)) && !Splits(Joined(pieces), |Joined(Init(pieces))|))
  }

  lemma {:induction false} PiecesReadLonger(pieces: seq<string>)
    ensures if NoneSplit(pieces) then KeptEach(pieces) == Kept(Joined(pieces))
            else |Kept(Joined(pieces))| < |KeptEach(pieces)|
    decreases |pieces|
  {
    if pieces == [] {
    } else {
      PiecesReadLonger(Init(pieces));
      JoinIff(Joined(Init(pieces)), Last(pieces));
    }
  }

  /** The pieces, each read on its own, make up the whole as it is read in one if and only if no
      piece ends inside a character. */
  lemma PiecesReadWholeIff(pieces: seq<string>)
    ensures KeptEach(pieces) == Kept(Joined(pieces)) <==> NoneSplit(pieces)
  {
    PiecesReadLonger(pieces);
  }

  ghost predicate AllWellFormed(pieces: seq<string>) {
    forall i | 0 <= i < |pieces| :: WellFormed(pieces[i])
  }

  lemma {:induction false} PiecesKeptAsTheyAre(pieces: seq<string>)
    ensures |KeptEach(pieces)| >= |Joined(pieces)|
    ensures AllWellFormed(pieces) <==> |KeptEach(pieces)| == |Joined(pieces)|
    ensures AllWellFormed(pieces) ==> KeptEach(pieces) == Joined(pieces)
    decreases |pieces|
  {
    if pieces == [] {
    } else {
      PiecesKeptAsTheyAre(Init(pieces));
      KeptAsItIs(Last(pieces));
      InitLast(pieces);
      assert AllWellFormed(pieces) <==> AllWellFormed(Init(pieces)) && WellFormed(Last(pieces)) by {
        assert forall i | 0 <= i < |Init(pieces)| :: Init(pieces)[i] == pieces[i];
      }
    }
  }

  /** For a text that is well-formed as a whole: no character is split if and only if every piece
      is well-formed by itself. */
  lemma WholeIsKeptIff(pieces: seq<string>)
    requires WellFormed(Joined(pieces))
    ensures NoneSplit(pieces) <==> AllWellFormed(pieces)
    ensures KeptEach(pieces) == Joined(pieces) <==> AllWellFormed(pieces)
  {
    PiecesReadWholeIff(pieces);
    PiecesKeptAsTheyAre(pieces);
    KeptAsItIs(Joined(pieces));
  }
}
