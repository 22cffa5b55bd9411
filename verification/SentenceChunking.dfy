/** Cutting a stream of text deltas into speakable pieces. */
module SentenceChunking {
  import opened Options
  import opened Text

  const RUN_ON := 80
  const RUN_ON_COMMA := 40
  const EAGER := 48
  const EAGER_COMMA := 24

  predicate Ender(c: char) { c == '.' || c == '!' || c == '?' || c == '\U{2026}' }
  predicate Closer(c: char) { c == '"' || c == '\'' || c == ')' || c == ']' }

  /** Length of a sentence boundary at the start of s, or 0. */
  function BoundaryHere(s: string): nat {
    if |s| >= 3 && Ender(s[0]) && Closer(s[1]) && IsSpace(s[2]) then 3
    else if |s| >= 2 && Ender(s[0]) && IsSpace(s[1]) then 2
    else 0
  }

  /** End of the leftmost boundary, or 0. */
  function BoundaryEnd(s: string): (end: nat)
    ensures end <= |s|
  {
    if s == "" then 0
    else if BoundaryHere(s) > 0 then BoundaryHere(s)
    else var after := BoundaryEnd(s[1..]); if after == 0 then 0 else 1 + after
  }

  /** Position of the last ", ", or -1. */
  function LastComma(s: string): (k: int)
    ensures -1 <= k && (k >= 0 ==> k + 2 <= |s| && s[k] == ',' && s[k + 1] == ' ')
  {
    if |s| < 2 then -1
    else if s[|s| - 2] == ',' && s[|s| - 1] == ' ' then |s| - 2
    else LastComma(s[..|s| - 1])
  }

  /** Pieces taken off the front of a text, and what is left of it. */
  datatype Feed = Feed(pieces: seq<string>, rest: string)

  function Sentences(text: string): Feed
    decreases |text|
  {
    var end := BoundaryEnd(text);
    if end == 0 then Feed([], text) else
    var more := Sentences(text[end..]);
    Feed([text[..end]] + more.pieces, more.rest)
  }

  /** A piece up to and including the last comma and the space that follows it. */
  function CommaCut(f: Feed): Feed
    requires LastComma(f.rest) >= 0
  {
    var k := LastComma(f.rest) + 2;
    Feed(f.pieces + [f.rest[..k]], f.rest[k..])
  }

  predicate RunsOn(f: Feed) { |f.rest| > RUN_ON && LastComma(f.rest) > RUN_ON_COMMA }
  predicate CutsEagerly(f: Feed) { f.pieces == [] && |f.rest| > EAGER && LastComma(f.rest) > EAGER_COMMA }

  function CutRunOn(f: Feed): Feed { if RunsOn(f) then CommaCut(f) else f }
  function CutEager(eager: bool, f: Feed): Feed { if eager && CutsEagerly(f) then CommaCut(f) else f }

  /** One push: `eager` while the turn has emitted nothing. */
  function Push(eager: bool, buffer: string, delta: string): Feed {
    CutEager(eager, CutRunOn(Sentences(buffer + delta)))
  }

  /** All pieces of a stream of deltas, and the buffer left. */
  function Fed(eagerFirst: bool, deltas: seq<string>): Feed {
    if deltas == [] then Feed([], "") else
    var before := Fed(eagerFirst, deltas[..|deltas| - 1]);
    var now := Push(eagerFirst && before.pieces == [], before.rest, deltas[|deltas| - 1]);
    Feed(before.pieces + now.pieces, now.rest)
  }

  /** What is spoken for a list of pieces. */
  function Spoken(pieces: seq<string>): seq<string> {
    seq(|pieces|, k requires 0 <= k < |pieces| => Trim(pieces[k]))
  }

  // ---- The source's object -----------------------------------------------------------

  class SentenceChunker {
    const eagerFirst: bool
    var buffer: string
    var emitted: bool

    constructor (eagerFirst: bool)
      ensures this.eagerFirst == eagerFirst && buffer == "" && !emitted
    {
      this.eagerFirst := eagerFirst;
      buffer, emitted := "", false;
    }

    method PushDelta(delta: string) returns (out: seq<string>)
      modifies this
      ensures var f := Push(eagerFirst && !old(emitted), old(buffer), delta);
              out == Spoken(f.pieces) && buffer == f.rest && emitted == (old(emitted) || f.pieces != [])
    {
      ghost var whole := buffer + delta;
      buffer := buffer + delta;
      out := TakeSentences();
      ghost var f := Sentences(whole);
      if |buffer| > RUN_ON {
        out := CutAtComma(f, out, RUN_ON_COMMA);
      }
      ghost var g := CutRunOn(f);
      assert Speaks(g, buffer, out);
      if eagerFirst && !emitted && |out| == 0 && |buffer| > EAGER {
        out := CutAtComma(g, out, EAGER_COMMA);
      }
      assert Speaks(CutEager(eagerFirst && !emitted, g), buffer, out);
      if |out| > 0 { emitted := true; }
    }

    /** The boundary loop of a push. */
    method TakeSentences() returns (out: seq<string>)
      modifies this
      ensures Speaks(Sentences(old(buffer)), buffer, out) && emitted == old(emitted)
    {
      ghost var whole := buffer;
      ghost var f := Feed([], buffer);
      out := [];
      var end := BoundaryEnd(buffer);
      while end > 0
        invariant end == BoundaryEnd(buffer) && Taken(whole, f, buffer, out) && emitted == old(emitted)
        decreases |buffer|
      {
        TakeSentence(whole, f, buffer, out);
        var sentence := Trim(buffer[..end]);
        f := Feed(f.pieces + [buffer[..end]], buffer[end..]);
        buffer := buffer[end..];
        if sentence != "" { out := out + [sentence]; }
        end := BoundaryEnd(buffer);
      }
      AllTaken(whole, f, buffer, out);
    }

    /** A cut at the last comma, if that lies beyond `least`. */
    method CutAtComma(ghost f: Feed, before: seq<string>, least: nat) returns (out: seq<string>)
      requires Speaks(f, buffer, before)
      modifies this
      ensures Speaks(if LastComma(f.rest) > least then CommaCut(f) else f, buffer, out) && emitted == old(emitted)
    {
      out := before;
      var comma := LastComma(buffer);
      if comma > least {
        CutSpeaks(f, buffer, out);
        out := out + [Trim(buffer[..comma + 1])];
        buffer := buffer[comma + 2..];
      }
    }

    /** None stands for an absent last chunk. */
    method Flush() returns (last: Option<string>)
      modifies this
      ensures buffer == "" && emitted == old(emitted)
      ensures last == if Trim(old(buffer)) == "" then None else Some(Trim(old(buffer)))
    {
      var rest := Trim(buffer);
      buffer := "";
      last := if |rest| > 0 then Some(rest) else None;
    }
  }

  /** One reply: a fresh chunker fed with every delta, then flushed. */
  method SpeakReply(eagerFirst: bool, deltas: seq<string>) returns (chunks: seq<string>)
    ensures chunks == Said(Fed(eagerFirst, deltas))
  {
    var chunker := new SentenceChunker(eagerFirst);
    chunks := [];
    for i := 0 to |deltas|
      invariant chunker.eagerFirst == eagerFirst && fresh(chunker)
      invariant var f := Fed(eagerFirst, deltas[..i]);
                Speaks(f, chunker.buffer, chunks) && chunker.emitted == (f.pieces != [])
    {
      ghost var f := Fed(eagerFirst, deltas[..i]);
      var out := chunker.PushDelta(deltas[i]);
      assert deltas[..i + 1][..i] == deltas[..i];
      SpokenJoin(f.pieces, Push(eagerFirst && f.pieces == [], f.rest, deltas[i]).pieces);
      chunks := chunks + out;
    }
    assert deltas[..|deltas|] == deltas;
    var last := chunker.Flush();
    if last.Some? { chunks := chunks + [last.value]; }
  }

  // ---- Steps of a push ---------------------------------------------------------------

  /** f has been taken off the front of `whole` and spoken; `buffer` is still to be cut. */
  ghost predicate Taken(whole: string, f: Feed, buffer: string, out: seq<string>) {
    && Sentences(whole) == Feed(f.pieces + Sentences(buffer).pieces, Sentences(buffer).rest)
    && Speaks(f, buffer, out)
  }

  ghost predicate Speaks(f: Feed, buffer: string, out: seq<string>) { f.rest == buffer && out == Spoken(f.pieces) }

  lemma SpokenAppend(pieces: seq<string>, piece: string)
    ensures Spoken(pieces + [piece]) == Spoken(pieces) + [Trim(piece)]
  {}

  lemma TakeSentence(whole: string, f: Feed, buffer: string, out: seq<string>)
    requires Taken(whole, f, buffer, out) && BoundaryEnd(buffer) > 0
    ensures var end := BoundaryEnd(buffer);
            && Trim(buffer[..end]) != ""
            && Taken(whole, Feed(f.pieces + [buffer[..end]], buffer[end..]), buffer[end..], out + [Trim(buffer[..end])])
  {
    var piece, more := buffer[..BoundaryEnd(buffer)], Sentences(buffer[BoundaryEnd(buffer)..]).pieces;
    SentenceIsSpeakable(buffer);
    SpokenAppend(f.pieces, piece);
    assert f.pieces + ([piece] + more) == (f.pieces + [piece]) + more;
  }

  lemma AllTaken(whole: string, f: Feed, buffer: string, out: seq<string>)
    requires Taken(whole, f, buffer, out) && BoundaryEnd(buffer) == 0
    ensures f == Sentences(whole) && Speaks(f, buffer, out)
  {}

  lemma CutSpeaks(f: Feed, buffer: string, out: seq<string>)
    requires Speaks(f, buffer, out) && LastComma(buffer) >= 0
    ensures Speaks(CommaCut(f), buffer[LastComma(buffer) + 2..], out + [Trim(buffer[..LastComma(buffer) + 1])])
  {
    DroppedSpace(f.rest, LastComma(f.rest));
    SpokenAppend(f.pieces, f.rest[..LastComma(f.rest) + 2]);
  }

  // ---- Trimming pieces ---------------------------------------------------------------

  lemma {:induction false} TrimStartReaches(s: string, k: nat)
    requires k < |s| && !IsSpace(s[k])
    ensures var t := TrimStart(s); |t| >= |s| - k && t == s[|s| - |t|..]
  {
    if IsSpace(s[0]) {
      TrimStartReaches(s[1..], k - 1);
    }
  }

  lemma {:induction false} TrimEndReaches(s: string, k: nat)
    requires k < |s| && !IsSpace(s[k]) && forall j :: k < j < |s| ==> IsSpace(s[j])
    ensures TrimEnd(s) == s[..k + 1]
  {
    if k < |s| - 1 {
      TrimEndReaches(s[..|s| - 1], k);
      assert s[..|s| - 1][..k + 1] == s[..k + 1];
    } else {
      assert s[..k + 1] == s;
    }
  }

  /** A trimmed text ends in its last solid character. */
  lemma TrimEndsIn(s: string, k: nat)
    requires k < |s| && !IsSpace(s[k]) && forall j :: k < j < |s| ==> IsSpace(s[j])
    ensures var r := Trim(s); r != "" && r[|r| - 1] == s[k]
  {
    TrimStartReaches(s, k);
    var t := TrimStart(s);
    TrimEndReaches(t, k - (|s| - |t|));
  }

  /** The cut leaves out one space, which trimming removes anyway. */
  lemma DroppedSpace(s: string, comma: nat)
    requires comma + 2 <= |s| && s[comma] == ',' && s[comma + 1] == ' '
    ensures Trim(s[..comma + 1]) == Trim(s[..comma + 2])
  {
    var short, long := s[..comma + 1], s[..comma + 2];
    TrimStartReaches(short, comma);
    TrimStartReaches(long, comma);
    assert long == short + " ";
    TrimStartExtends(short, " ", comma);
    var t := TrimStart(short);
    TrimEndReaches(t, |t| - 1);
    TrimEndReaches(t + " ", |t| - 1);
    assert (t + " ")[..|t|] == t;
  }

  lemma {:induction false} TrimStartExtends(s: string, more: string, k: nat)
    requires k < |s| && !IsSpace(s[k])
    ensures TrimStart(s + more) == TrimStart(s) + more
  {
    if IsSpace(s[0]) {
      assert (s + more)[1..] == s[1..] + more;
      TrimStartExtends(s[1..], more, k - 1);
    }
  }

  // ---- Boundaries --------------------------------------------------------------------

  lemma {:induction false} BoundaryShape(s: string)
    requires BoundaryEnd(s) > 0
    ensures var end := BoundaryEnd(s);
            && 2 <= end && IsSpace(s[end - 1]) && !IsSpace(s[end - 2]) && (Ender(s[end - 2]) || Closer(s[end - 2]))
  {
    if BoundaryHere(s) == 0 {
      BoundaryShape(s[1..]);
    }
  }

  lemma SentenceIsSpeakable(s: string)
    requires BoundaryEnd(s) > 0
    ensures var r := Trim(s[..BoundaryEnd(s)]); r != "" && (Ender(r[|r| - 1]) || Closer(r[|r| - 1]))
  {
    BoundaryShape(s);
    TrimEndsIn(s[..BoundaryEnd(s)], BoundaryEnd(s) - 2);
  }

  lemma CommaIsSpeakable(s: string)
    requires LastComma(s) >= 0
    ensures var r := Trim(s[..LastComma(s) + 2]); r != "" && r[|r| - 1] == ','
  {
    TrimEndsIn(s[..LastComma(s) + 2], LastComma(s));
  }

  /** A boundary once seen is not changed by what arrives later, and nothing before it
      becomes one. */
  lemma {:induction false} BoundaryIsStable(s: string, more: string)
    ensures BoundaryEnd(s) > 0 ==> BoundaryEnd(s + more) == BoundaryEnd(s)
    ensures BoundaryEnd(s) == 0 && BoundaryEnd(s + more) > 0 ==> BoundaryEnd(s + more) > |s|
  {
    if s == "" {
    } else {
      assert (s + more)[1..] == s[1..] + more;
      BoundaryIsStable(s[1..], more);
      if BoundaryHere(s) == 0 && BoundaryEnd(s[1..]) > 0 {
        BoundaryShape(s[1..]);
      }
    }
  }

  lemma {:induction false} NoBoundaryInSuffix(s: string, k: nat)
    requires BoundaryEnd(s) == 0 && k <= |s|
    ensures BoundaryEnd(s[k..]) == 0
  {
    if k > 0 {
      NoBoundaryInSuffix(s[1..], k - 1);
      assert s[1..][k - 1..] == s[k..];
    } else {
      assert s[0..] == s;
    }
  }

  function Prepend(piece: string, f: Feed): Feed { Feed([piece] + f.pieces, f.rest) }
  function Then(f: Feed, g: Feed): Feed { Feed(f.pieces + g.pieces, g.rest) }

  lemma PrependThen(piece: string, f: Feed, g: Feed)
    ensures Then(Prepend(piece, f), g) == Prepend(piece, Then(f, g))
  {}

  lemma TakesFirst(s: string, piece: string, tail: string)
    requires s == piece + tail && BoundaryEnd(s) == |piece| > 0
    ensures Sentences(s) == Prepend(piece, Sentences(tail))
  {}

  /** Splitting is on-line: what arrives later only continues from the rest. */
  lemma {:induction false} SentencesAreStable(s: string, more: string)
    ensures Sentences(s + more) == Then(Sentences(s), Sentences(Sentences(s).rest + more))
    decreases |s|
  {
    var end := BoundaryEnd(s);
    if end > 0 {
      var piece, tail := s[..end], s[end..];
      BoundaryIsStable(s, more);
      SentencesAreStable(tail, more);
      TakesFirst(s, piece, tail);
      Regroup(piece, tail, more);
      TakesFirst(s + more, piece, tail + more);
      PrependThen(piece, Sentences(tail), Sentences(Sentences(tail).rest + more));
    } else {
      assert [] + Sentences(s + more).pieces == Sentences(s + more).pieces;
    }
  }

  lemma Regroup<T>(a: seq<T>, b: seq<T>, c: seq<T>)
    ensures a + (b + c) == (a + b) + c
  {}

  lemma {:induction false} RestHasNoBoundary(text: string)
    ensures BoundaryEnd(Sentences(text).rest) == 0
    decreases |text|
  {
    if BoundaryEnd(text) > 0 {
      RestHasNoBoundary(text[BoundaryEnd(text)..]);
    }
  }

  lemma {:induction false} NoCommaAfterLast(s: string, k: nat)
    requires LastComma(s) < k <= |s|
    ensures LastComma(s[k..]) == -1
    decreases |s|
  {
    if |s[k..]| >= 2 {
      NoCommaAfterLast(s[..|s| - 1], k);
      assert s[..|s| - 1][k..] == s[k..][..|s[k..]| - 1];
    }
  }

  lemma CutLeavesNothing(f: Feed)
    requires LastComma(f.rest) >= 0 && BoundaryEnd(f.rest) == 0
    ensures BoundaryEnd(CommaCut(f).rest) == 0 && LastComma(CommaCut(f).rest) == -1
  {
    SuffixIsBare(f.rest, LastComma(f.rest) + 2);
  }

  lemma SuffixIsBare(s: string, k: nat)
    requires BoundaryEnd(s) == 0 && LastComma(s) < k <= |s|
    ensures BoundaryEnd(s[k..]) == 0 && LastComma(s[k..]) == -1
  {
    NoBoundaryInSuffix(s, k);
    NoCommaAfterLast(s, k);
  }

  /** Nothing speakable is held back: after every push the buffer has no sentence boundary,
      is not a run-on that could be cut, and, while an eager turn has spoken nothing, is
      not an opening that could be cut. */
  lemma NothingHeldBack(eagerFirst: bool, deltas: seq<string>)
    ensures var f := Fed(eagerFirst, deltas);
            BoundaryEnd(f.rest) == 0 && !RunsOn(f) && !(eagerFirst && CutsEagerly(f))
  {
    if deltas != [] {
      var before := Fed(eagerFirst, deltas[..|deltas| - 1]);
      var eager := eagerFirst && before.pieces == [];
      var f := Sentences(before.rest + deltas[|deltas| - 1]);
      RestHasNoBoundary(before.rest + deltas[|deltas| - 1]);
      if LastComma(f.rest) >= 0 {
        CutLeavesNothing(f);
      }
    }
  }

  // ---- Where the cuts are, spelled out --------------------------------------------------

  /** A sentence end of this length at i: the ender, one closing quote or bracket or none,
      and a white space. */
  predicate EndsAt(s: string, i: nat, n: nat) {
    && i + n <= |s| && 2 <= n <= 3
    && s[i] in {'.', '!', '?', '\U{2026}'} && IsSpace(s[i + n - 1])
    && (n == 3 ==> s[i + 1] in {'"', '\'', ')', ']'})
  }

  predicate NoEndBefore(s: string, m: nat) { forall i :: 0 <= i < m ==> !EndsAt(s, i, 2) && !EndsAt(s, i, 3) }

  /** The cut is behind the leftmost sentence end, and there is none exactly when the text
      holds no sentence end. */
  lemma {:induction false} BoundaryIff(s: string)
    ensures BoundaryEnd(s) == 0 <==> NoEndBefore(s, |s|)
    ensures BoundaryEnd(s) > 0 ==> exists i: nat, n: nat :: EndsAt(s, i, n) && BoundaryEnd(s) == i + n && NoEndBefore(s, i)
  {
    if s != "" {
      var rest := s[1..];
      HereIff(s);
      BoundaryIff(rest);
      if BoundaryHere(s) > 0 {
        assert EndsAt(s, 0, BoundaryHere(s)) && NoEndBefore(s, 0);
      } else if BoundaryEnd(rest) > 0 {
        var i: nat, n: nat :| EndsAt(rest, i, n) && BoundaryEnd(rest) == i + n && NoEndBefore(rest, i);
        assert EndsAt(s, i + 1, n);
        assert !NoEndBefore(s, |s|);
        LaterEnd(s, i);
      } else {
        LaterEnd(s, |rest|);
      }
    }
  }

  lemma HereIff(s: string)
    ensures BoundaryHere(s) > 0 <==> EndsAt(s, 0, 2) || EndsAt(s, 0, 3)
    ensures BoundaryHere(s) > 0 ==> EndsAt(s, 0, BoundaryHere(s))
  {}

  lemma LaterEnd(s: string, m: nat)
    requires s != "" && BoundaryHere(s) == 0 && NoEndBefore(s[1..], m)
    ensures NoEndBefore(s, m + 1)
  {
    HereIff(s);
    forall i | 0 <= i < m + 1
      ensures !EndsAt(s, i, 2) && !EndsAt(s, i, 3)
    {
      if i > 0 {
        assert !EndsAt(s[1..], i - 1, 2) && !EndsAt(s[1..], i - 1, 3);
      }
    }
  }

  predicate CommaAt(s: string, k: int) { 0 <= k && k + 2 <= |s| && s[k] == ',' && s[k + 1] == ' ' }

  /** No comma and space stands further right. */
  lemma {:induction false} LastCommaIff(s: string, k: nat)
    ensures LastComma(s) >= k <==> exists j :: k <= j && CommaAt(s, j)
  {
    if |s| >= 2 && !CommaAt(s, |s| - 2) {
      var front := s[..|s| - 1];
      LastCommaIff(front, k);
      assert forall j :: CommaAt(front, j) ==> CommaAt(s, j);
      assert forall j :: CommaAt(s, j) ==> CommaAt(front, j);
    }
  }

  /** When a push cuts at a comma: a rest over 80 characters with a comma past 40, or, while
      nothing was emitted, one over 48 with a comma past 24. */
  lemma CutsIff(eager: bool, buffer: string, delta: string)
    ensures var f := Sentences(buffer + delta);
            Push(eager, buffer, delta) != f
            <==> || (|f.rest| > 80 && exists j :: 41 <= j && CommaAt(f.rest, j))
                 || (eager && f.pieces == [] && |f.rest| > 48 && exists j :: 25 <= j && CommaAt(f.rest, j))
  {
    var f := Sentences(buffer + delta);
    LastCommaIff(f.rest, 41);
    LastCommaIff(f.rest, 25);
  }

  // ---- Conservation ------------------------------------------------------------------

  function Join(parts: seq<string>): string {
    if parts == [] then "" else Join(parts[..|parts| - 1]) + parts[|parts| - 1]
  }

  lemma JoinSnoc(parts: seq<string>, part: string)
    ensures Join(parts + [part]) == Join(parts) + part
  {}

  lemma {:induction false} JoinConcat(a: seq<string>, b: seq<string>)
    ensures Join(a + b) == Join(a) + Join(b)
  {
    if b == [] {
      assert a + b == a;
    } else {
      var front, last := b[..|b| - 1], b[|b| - 1];
      JoinConcat(a, front);
      JoinSnoc(a + front, last);
      Regroup(Join(a), Join(front), last);
      assert a + b == (a + front) + [last];
    }
  }

  function Whole(f: Feed): string { Join(f.pieces) + f.rest }

  lemma JoinOne(piece: string)
    ensures Join([piece]) == piece
  {}

  lemma WholePrepend(piece: string, more: Feed)
    ensures Whole(Prepend(piece, more)) == piece + Whole(more)
  {
    JoinConcat([piece], more.pieces);
    JoinOne(piece);
    Regroup(piece, Join(more.pieces), more.rest);
  }

  lemma {:induction false} SentencesAreWhole(text: string)
    ensures Whole(Sentences(text)) == text
    decreases |text|
  {
    var end := BoundaryEnd(text);
    if end > 0 {
      var piece, tail := text[..end], text[end..];
      SentencesAreWhole(tail);
      TakesFirst(text, piece, tail);
      WholePrepend(piece, Sentences(tail));
    } else {
      assert "" + text == text;
    }
  }

  lemma CutIsWhole(f: Feed)
    requires LastComma(f.rest) >= 0
    ensures Whole(CommaCut(f)) == Whole(f)
  {}

  lemma PushIsWhole(eager: bool, buffer: string, delta: string)
    ensures Whole(Push(eager, buffer, delta)) == buffer + delta
  {
    var f := Sentences(buffer + delta);
    SentencesAreWhole(buffer + delta);
    if RunsOn(f) {
      CutIsWhole(f);
    }
    if eager && CutsEagerly(f) {
      CutIsWhole(f);
    }
  }

  /** However a text is split into deltas, the pieces and the buffer are a partition of it. */
  lemma {:induction false} PiecesPartition(eagerFirst: bool, deltas: seq<string>)
    ensures Whole(Fed(eagerFirst, deltas)) == Join(deltas)
  {
    if deltas != [] {
      var before, delta := Fed(eagerFirst, deltas[..|deltas| - 1]), deltas[|deltas| - 1];
      var eager := eagerFirst && before.pieces == [];
      PiecesPartition(eagerFirst, deltas[..|deltas| - 1]);
      PushIsWhole(eager, before.rest, delta);
      var now := Push(eager, before.rest, delta);
      JoinConcat(before.pieces, now.pieces);
      Regroup(Join(before.pieces), Join(now.pieces), now.rest);
      Regroup(Join(before.pieces), before.rest, delta);
    }
  }

  lemma {:induction false} SpokenKeepsSolid(pieces: seq<string>)
    ensures Solid(Join(Spoken(pieces))) == Solid(Join(pieces))
  {
    if pieces != [] {
      var front, last := pieces[..|pieces| - 1], pieces[|pieces| - 1];
      assert front + [last] == pieces;
      SpokenKeepsSolid(front);
      TrimKeepsSolid(last);
      SolidConcat(Join(front), last);
      SolidConcat(Join(Spoken(front)), Trim(last));
      SpokenAppend(front, last);
      JoinConcat(Spoken(front), [Trim(last)]);
      JoinOne(Trim(last));
    }
  }

  /** Everything that is said: the chunks and, when it is not blank, the flushed rest. */
  function Said(f: Feed): seq<string> { Spoken(f.pieces) + (if Trim(f.rest) == "" then [] else [Trim(f.rest)]) }

  /** The text is said in order and in full, white space apart, for every splitting. */
  lemma SaidInFull(eagerFirst: bool, deltas: seq<string>)
    ensures Solid(Join(Said(Fed(eagerFirst, deltas)))) == Solid(Join(deltas))
  {
    var f := Fed(eagerFirst, deltas);
    PiecesPartition(eagerFirst, deltas);
    SolidConcat(Join(f.pieces), f.rest);
    SpokenKeepsSolid(f.pieces);
    TrimKeepsSolid(f.rest);
    SolidConcat(Join(Spoken(f.pieces)), Trim(f.rest));
    if Trim(f.rest) != "" {
      JoinConcat(Spoken(f.pieces), [Trim(f.rest)]);
      JoinOne(Trim(f.rest));
    } else {
      assert Solid(f.rest) == "";
      assert Spoken(f.pieces) + [] == Spoken(f.pieces);
    }
  }

  // ---- Speakable chunks --------------------------------------------------------------

  /** A chunk ends where the text has a sentence end, or a comma. */
  predicate EndsWell(chunk: string) {
    chunk != "" && (Ender(chunk[|chunk| - 1]) || Closer(chunk[|chunk| - 1]) || chunk[|chunk| - 1] == ',')
  }

  predicate AllEndWell(chunks: seq<string>) { forall k :: 0 <= k < |chunks| ==> EndsWell(chunks[k]) }

  lemma {:induction false} SentencesEndWell(text: string)
    ensures AllEndWell(Spoken(Sentences(text).pieces))
    decreases |text|
  {
    if BoundaryEnd(text) > 0 {
      SentenceIsSpeakable(text);
      SentencesEndWell(text[BoundaryEnd(text)..]);
      var f := Sentences(text);
      forall k | 0 <= k < |f.pieces|
        ensures EndsWell(Trim(f.pieces[k]))
      {
        if k > 0 {
          assert EndsWell(Spoken(Sentences(text[BoundaryEnd(text)..]).pieces)[k - 1]);
        }
      }
    }
  }

  /** No empty chunk is ever emitted, and none that stops in the middle of a clause. */
  lemma {:induction false} ChunksEndWell(eagerFirst: bool, deltas: seq<string>)
    ensures AllEndWell(Spoken(Fed(eagerFirst, deltas).pieces))
  {
    if deltas != [] {
      var before, delta := Fed(eagerFirst, deltas[..|deltas| - 1]), deltas[|deltas| - 1];
      ChunksEndWell(eagerFirst, deltas[..|deltas| - 1]);
      PushEndsWell(eagerFirst && before.pieces == [], before.rest, delta);
      SpokenJoin(before.pieces, Push(eagerFirst && before.pieces == [], before.rest, delta).pieces);
    }
  }

  lemma SpokenJoin(a: seq<string>, b: seq<string>)
    ensures Spoken(a + b) == Spoken(a) + Spoken(b)
  {}

  lemma PushEndsWell(eager: bool, buffer: string, delta: string)
    ensures AllEndWell(Spoken(Push(eager, buffer, delta).pieces))
  {
    var f := Sentences(buffer + delta);
    SentencesEndWell(buffer + delta);
    CutEndsWell(f);
    CutEndsWell(CutRunOn(f));
  }

  lemma CutEndsWell(f: Feed)
    requires AllEndWell(Spoken(f.pieces))
    ensures LastComma(f.rest) >= 0 ==> AllEndWell(Spoken(CommaCut(f).pieces))
  {
    if LastComma(f.rest) >= 0 {
      CommaIsSpeakable(f.rest);
      SpokenAppend(f.pieces, f.rest[..LastComma(f.rest) + 2]);
    }
  }

  // ---- Splittings and sentences ---------------------------------------------------------

  /** A push that leaves f would cut its rest at a comma. */
  predicate Cuts(eagerFirst: bool, f: Feed) { RunsOn(f) || (eagerFirst && CutsEagerly(f)) }

  /** No prefix of the text is left with a clause to be cut. */
  predicate Calm(eagerFirst: bool, text: string) {
    forall n :: 0 <= n <= |text| ==> !Cuts(eagerFirst, Sentences(text[..n]))
  }

  lemma CalmPrefix(eagerFirst: bool, text: string, more: string)
    requires Calm(eagerFirst, text + more)
    ensures Calm(eagerFirst, text) && !Cuts(eagerFirst, Sentences(text + more))
  {
    assert (text + more)[..|text + more|] == text + more;
    forall n | 0 <= n <= |text|
      ensures !Cuts(eagerFirst, Sentences(text[..n]))
    {
      assert (text + more)[..n] == text[..n];
    }
  }

  lemma {:induction false} CalmIsSentences(eagerFirst: bool, deltas: seq<string>)
    requires Calm(eagerFirst, Join(deltas))
    ensures Fed(eagerFirst, deltas) == Sentences(Join(deltas))
  {
    if deltas != [] {
      var front, delta := deltas[..|deltas| - 1], deltas[|deltas| - 1];
      CalmPrefix(eagerFirst, Join(front), delta);
      CalmIsSentences(eagerFirst, front);
      SentencesAreStable(Join(front), delta);
      CalmPush(eagerFirst, Sentences(Join(front)), delta);
    }
  }

  lemma CalmPush(eagerFirst: bool, before: Feed, delta: string)
    requires !Cuts(eagerFirst, Then(before, Sentences(before.rest + delta)))
    ensures Push(eagerFirst && before.pieces == [], before.rest, delta) == Sentences(before.rest + delta)
  {}

  predicate EndsInComma(piece: string) { var r := Trim(piece); r != "" && r[|r| - 1] == ',' }

  lemma FirstPushCuts(eagerFirst: bool, head: string)
    requires Cuts(eagerFirst, Sentences(head))
    ensures Push(eagerFirst, "", head) == CommaCut(Sentences(head))
  {
    var f := Sentences(head);
    assert "" + head == head;
    RestHasNoBoundary(head);
    CutLeavesNothing(f);
  }

  lemma CutEndsInComma(f: Feed)
    requires LastComma(f.rest) >= 0
    ensures var p := CommaCut(f).pieces; |p| == |f.pieces| + 1 && EndsInComma(p[|f.pieces|])
  {
    CommaIsSpeakable(f.rest);
  }

  lemma SentenceEndsOtherwise(f: Feed, s: string)
    ensures var p := Then(f, Sentences(s)).pieces; |p| > |f.pieces| ==> !EndsInComma(p[|f.pieces|])
  {
    if BoundaryEnd(s) > 0 {
      SentenceIsSpeakable(s);
    }
  }

  lemma HeardApart(a: seq<string>, b: seq<string>, k: nat)
    requires k < |a| && EndsInComma(a[k]) && (k < |b| ==> !EndsInComma(b[k]))
    ensures Spoken(a) != Spoken(b)
  {
    if k < |b| {
      assert Spoken(a)[k] == Trim(a[k]) && Spoken(b)[k] == Trim(b[k]);
    } else {
      assert |Spoken(a)| == |a| && |Spoken(b)| == |b|;
    }
  }

  /** A stream whose first delta ends where a clause is cut does not speak the sentences. */
  lemma CutIsHeard(eagerFirst: bool, head: string, tail: string)
    requires Cuts(eagerFirst, Sentences(head))
    ensures Spoken(Fed(eagerFirst, [head, tail]).pieces) != Spoken(Sentences(head + tail).pieces)
  {
    var f := Sentences(head);
    FirstPushCuts(eagerFirst, head);
    TwoDeltas(eagerFirst, head, tail);
    CutEndsInComma(f);
    SentencesAreStable(head, tail);
    SentenceEndsOtherwise(f, f.rest + tail);
    HeardApart(Fed(eagerFirst, [head, tail]).pieces, Sentences(head + tail).pieces, |f.pieces|);
  }

  lemma JoinTwo(a: string, b: string)
    ensures Join([a, b]) == a + b
  {
    JoinOne(a);
    JoinSnoc([a], b);
    assert [a] + [b] == [a, b];
  }

  lemma TwoDeltas(eagerFirst: bool, a: string, b: string)
    ensures Join([a, b]) == a + b
    ensures Push(eagerFirst, "", a).pieces <= Fed(eagerFirst, [a, b]).pieces
  {
    JoinTwo(a, b);
    assert [a, b][..1] == [a] && [a][..0] == [];
    assert Fed(eagerFirst, [a]).pieces == Push(eagerFirst, "", a).pieces;
  }

  predicate SaysSentences(eagerFirst: bool, deltas: seq<string>) {
    Spoken(Fed(eagerFirst, deltas).pieces) == Spoken(Sentences(Join(deltas)).pieces)
  }

  lemma UncalmSplit(eagerFirst: bool, text: string) returns (deltas: seq<string>)
    requires !Calm(eagerFirst, text)
    ensures Join(deltas) == text && !SaysSentences(eagerFirst, deltas)
  {
    var n :| 0 <= n <= |text| && Cuts(eagerFirst, Sentences(text[..n]));
    var head, tail := text[..n], text[n..];
    assert head + tail == text;
    CutIsHeard(eagerFirst, head, tail);
    TwoDeltas(eagerFirst, head, tail);
    deltas := [head, tail];
  }

  /** Exactly when every way of cutting a text into deltas says its sentences and nothing
      shorter: when no prefix of it leaves a clause to be cut at a comma. */
  lemma SplitsSaySentencesIff(eagerFirst: bool, text: string)
    ensures Calm(eagerFirst, text) <==> forall deltas :: Join(deltas) == text ==> SaysSentences(eagerFirst, deltas)
  {
    if Calm(eagerFirst, text) {
      forall deltas | Join(deltas) == text
        ensures SaysSentences(eagerFirst, deltas)
      {
        CalmIsSentences(eagerFirst, deltas);
      }
    } else {
      var deltas := UncalmSplit(eagerFirst, text);
    }
  }

  /** No stretch between boundaries is longer than the limit. */
  predicate Short(f: Feed, limit: nat) { |f.rest| <= limit && forall p :: p in f.pieces ==> |p| <= limit }

  lemma {:induction false} RestWithinStretch(text: string, limit: nat)
    requires Short(Sentences(text), limit)
    ensures BoundaryEnd(text) == 0 ==> |text| <= limit
    ensures BoundaryEnd(text) > 0 ==> BoundaryEnd(text) <= limit
  {
    if BoundaryEnd(text) > 0 {
      assert Sentences(text).pieces[0] in Sentences(text).pieces;
    }
  }

  /** Texts whose stretches stay within 48 characters (80 without the eager cut) are calm. */
  lemma ShortIsCalm(eagerFirst: bool, text: string)
    requires Short(Sentences(text), if eagerFirst then EAGER else RUN_ON)
    ensures Calm(eagerFirst, text)
  {
    forall n | 0 <= n <= |text|
      ensures !Cuts(eagerFirst, Sentences(text[..n]))
    {
      assert text[..n] + text[n..] == text;
      ShortPrefix(text[..n], text[n..], if eagerFirst then EAGER else RUN_ON);
    }
  }

  lemma ShortPrefix(head: string, tail: string, limit: nat)
    requires Short(Sentences(head + tail), limit)
    ensures |Sentences(head).rest| <= limit
  {
    var s := Sentences(head).rest + tail;
    SentencesAreStable(head, tail);
    assert forall p :: p in Sentences(s).pieces ==> p in Sentences(head + tail).pieces;
    RestWithinStretch(s, limit);
    RestHasNoBoundary(head);
    BoundaryIsStable(Sentences(head).rest, tail);
  }

  /** The documented promise: with short stretches, every splitting says the same. */
  lemma ShortSplitsAlike(eagerFirst: bool, a: seq<string>, b: seq<string>)
    requires Join(a) == Join(b) && Short(Sentences(Join(a)), if eagerFirst then EAGER else RUN_ON)
    ensures Fed(eagerFirst, a) == Fed(eagerFirst, b) && Said(Fed(eagerFirst, a)) == Said(Sentences(Join(b)))
  {
    ShortIsCalm(eagerFirst, Join(a));
    CalmIsSentences(eagerFirst, a);
    CalmIsSentences(eagerFirst, b);
  }

  // ---- Splittings and each other -----------------------------------------------------------

  /** A feed after the one cut that a push makes of it. */
  function Settled(eagerFirst: bool, f: Feed): Feed { if Cuts(eagerFirst, f) then CommaCut(f) else f }

  /** Every prefix that leaves a clause to be cut is cut where the whole text is: no sentence
      ends and no comma comes after it. */
  predicate SameCut(eagerFirst: bool, text: string) {
    forall n :: 0 <= n <= |text| && Cuts(eagerFirst, Sentences(text[..n])) ==> CutAlike(Sentences(text[..n]), Sentences(text))
  }

  predicate CutAlike(f: Feed, g: Feed) { f.pieces == g.pieces && LastComma(f.rest) == LastComma(g.rest) }

  lemma {:induction false} LastCommaGrows(s: string, more: string)
    ensures LastComma(s) <= LastComma(s + more)
    decreases |more|
  {
    if more == "" {
      assert s + more == s;
    } else {
      assert (s + more)[..|s + more| - 1] == s + more[..|more| - 1];
      LastCommaGrows(s, more[..|more| - 1]);
    }
  }

  /** A push cuts once at most. */
  lemma OneCut(eager: bool, g: Feed)
    requires BoundaryEnd(g.rest) == 0
    ensures CutEager(eager, CutRunOn(g)) == if RunsOn(g) || (eager && CutsEagerly(g)) then CommaCut(g) else g
  {
    if LastComma(g.rest) >= 0 {
      CutLeavesNothing(g);
    }
  }

  lemma ThenCuts(eagerFirst: bool, before: Feed, g: Feed)
    ensures Cuts(eagerFirst, Then(before, g)) <==> RunsOn(g) || (eagerFirst && before.pieces == [] && CutsEagerly(g))
    ensures LastComma(g.rest) >= 0 ==> CommaCut(Then(before, g)) == Then(before, CommaCut(g))
  {
    if LastComma(g.rest) >= 0 {
      Regroup(before.pieces, g.pieces, [g.rest[..LastComma(g.rest) + 2]]);
    }
  }

  /** A push on a feed that nothing was cut from. */
  lemma PushSettles(eagerFirst: bool, before: Feed, delta: string)
    ensures var f := Then(before, Sentences(before.rest + delta));
            Then(before, Push(eagerFirst && before.pieces == [], before.rest, delta)) == Settled(eagerFirst, f)
  {
    var g := Sentences(before.rest + delta);
    RestHasNoBoundary(before.rest + delta);
    OneCut(eagerFirst && before.pieces == [], g);
    ThenCuts(eagerFirst, before, g);
  }

  lemma CommaCutIs(f: Feed, piece: string, left: string)
    requires f.rest == piece + left && |piece| == LastComma(f.rest) + 2
    ensures LastComma(f.rest) >= 0 ==> CommaCut(f) == Feed(f.pieces + [piece], left)
  {
    assert (piece + left)[..|piece|] == piece && (piece + left)[|piece|..] == left;
  }

  /** What has no boundary and no comma is only added to the buffer. */
  lemma BarePush(left: string, delta: string)
    requires BoundaryEnd(left + delta) == 0 && LastComma(left + delta) == -1
    ensures Push(false, left, delta) == Feed([], left + delta)
  {}

  lemma BareTail(piece: string, left: string)
    requires BoundaryEnd(piece + left) == 0 && LastComma(piece + left) < |piece|
    ensures BoundaryEnd(left) == 0 && LastComma(left) == -1
  {
    SuffixIsBare(piece + left, |piece|);
    assert (piece + left)[|piece|..] == left;
  }

  /** A push on a feed already cut adds to the rest only, as long as no sentence ends and no
      comma comes. */
  lemma PushAfterCut(f: Feed, piece: string, left: string, delta: string)
    requires LastComma(f.rest) >= 0 && f.rest == piece + left && |piece| == LastComma(f.rest) + 2
    requires BoundaryEnd(f.rest + delta) == 0 && LastComma(f.rest + delta) == LastComma(f.rest)
    ensures Then(CommaCut(f), Push(false, CommaCut(f).rest, delta)) == CommaCut(Feed(f.pieces, f.rest + delta))
  {
    CommaCutIs(f, piece, left);
    Regroup(piece, left, delta);
    CommaCutIs(Feed(f.pieces, f.rest + delta), piece, left + delta);
    BareTail(piece, left + delta);
    BarePush(left, delta);
    assert (f.pieces + [piece]) + [] == f.pieces + [piece];
  }

  lemma NoPieces(text: string)
    requires Sentences(text).pieces == []
    ensures BoundaryEnd(text) == 0 && Sentences(text) == Feed([], text)
  {}

  /** Between two prefixes with the same sentences none ends. */
  lemma NoneEnds(head: string, more: string, tail: string)
    requires Sentences(head).pieces == Sentences((head + more) + tail).pieces
    ensures var f := Sentences(head);
            && Sentences(head + more) == Feed(f.pieces, f.rest + more) && BoundaryEnd(f.rest + more) == 0
            && LastComma(f.rest) <= LastComma(f.rest + more)
  {
    var f := Sentences(head);
    SentencesAreStable(head, more);
    SentencesAreStable(head + more, tail);
    assert |Sentences(f.rest + more).pieces| == 0;
    NoPieces(f.rest + more);
    LastCommaGrows(f.rest, more);
  }

  lemma SameCutAt(eagerFirst: bool, head: string, tail: string)
    requires SameCut(eagerFirst, head + tail) && Cuts(eagerFirst, Sentences(head))
    ensures CutAlike(Sentences(head), Sentences(head + tail))
  {
    assert (head + tail)[..|head|] == head;
  }

  lemma NoneEndsAfter(head: string, tail: string)
    requires Sentences(head).pieces == Sentences(head + tail).pieces
    ensures Sentences(head + tail).rest == Sentences(head).rest + tail
    ensures LastComma(Sentences(head).rest) <= LastComma(Sentences(head + tail).rest)
  {
    assert (head + tail) + "" == head + tail;
    NoneEnds(head, tail, "");
  }

  lemma CutsOn(eagerFirst: bool, f: Feed, delta: string)
    requires Cuts(eagerFirst, f) && LastComma(f.rest + delta) == LastComma(f.rest)
    ensures Cuts(eagerFirst, Feed(f.pieces, f.rest + delta))
  {}

  /** Once cut, a text with the same cut stays cut there. */
  lemma StaysCut(eagerFirst: bool, head: string, delta: string, tail: string)
    requires SameCut(eagerFirst, (head + delta) + tail) && Cuts(eagerFirst, Sentences(head))
    ensures var f, g := Sentences(head), Sentences(head + delta);
            && Cuts(eagerFirst, g) && BoundaryEnd(f.rest + delta) == 0
            && g == Feed(f.pieces, f.rest + delta) && LastComma(f.rest + delta) == LastComma(f.rest)
  {
    CutAlikeAt(eagerFirst, head, delta, tail);
    NoneEnds(head, delta, tail);
    SameSentences(head, delta, tail);
    NoneEndsAfter(head + delta, tail);
    CutsOn(eagerFirst, Sentences(head), delta);
  }

  lemma CutAlikeAt(eagerFirst: bool, head: string, delta: string, tail: string)
    requires SameCut(eagerFirst, (head + delta) + tail) && Cuts(eagerFirst, Sentences(head))
    ensures CutAlike(Sentences(head), Sentences((head + delta) + tail))
  {
    Regroup(head, delta, tail);
    SameCutAt(eagerFirst, head, delta + tail);
  }

  lemma SameSentences(head: string, delta: string, tail: string)
    requires Sentences(head).pieces == Sentences((head + delta) + tail).pieces
    ensures Sentences(head + delta).pieces == Sentences((head + delta) + tail).pieces
  {
    NoneEnds(head, delta, tail);
  }

  lemma {:induction false} SameCutSettles(eagerFirst: bool, deltas: seq<string>, tail: string)
    requires SameCut(eagerFirst, Join(deltas) + tail)
    ensures Fed(eagerFirst, deltas) == Settled(eagerFirst, Sentences(Join(deltas)))
  {
    if deltas != [] {
      var front, delta := deltas[..|deltas| - 1], deltas[|deltas| - 1];
      Regroup(Join(front), delta, tail);
      SameCutSettles(eagerFirst, front, delta + tail);
      SettledOn(eagerFirst, Join(front), delta, tail);
    }
  }

  lemma SettledOn(eagerFirst: bool, head: string, delta: string, tail: string)
    requires SameCut(eagerFirst, (head + delta) + tail)
    ensures var before := Settled(eagerFirst, Sentences(head));
            Then(before, Push(eagerFirst && before.pieces == [], before.rest, delta)) == Settled(eagerFirst, Sentences(head + delta))
  {
    var f := Sentences(head);
    if Cuts(eagerFirst, f) {
      StaysCut(eagerFirst, head, delta, tail);
      var k := LastComma(f.rest) + 2;
      assert f.rest == f.rest[..k] + f.rest[k..];
      PushAfterCut(f, f.rest[..k], f.rest[k..], delta);
    } else {
      SentencesAreStable(head, delta);
      PushSettles(eagerFirst, f, delta);
    }
  }

  /** A clause cut at an earlier comma is heard shorter. */
  lemma EarlierCutIsShorter(s: string, c: nat, d: nat)
    requires c < d && d + 2 <= |s| && s[c] == ',' && s[c + 1] == ' ' && s[d] == ',' && s[d + 1] == ' '
    ensures Trim(s[..c + 2]) != Trim(s[..d + 2])
  {
    var short, more := s[..c + 2], s[c + 2..d + 2];
    assert s[..d + 2] == short + more;
    TrimStartReaches(short, c);
    TrimStartExtends(short, more, c);
    var t := TrimStart(short);
    TrimEndReaches(t, |t| - 2);
    assert (t + more)[|t + more| - 1] == ' ' && (t + more)[|t + more| - 2] == ',';
    TrimEndReaches(t + more, |t + more| - 2);
  }

  lemma OneDelta(eagerFirst: bool, text: string)
    ensures Join([text]) == text && Fed(eagerFirst, [text]) == Settled(eagerFirst, Sentences(text))
  {
    JoinOne(text);
    assert [text][..0] == [] && "" + text == text;
    PushSettles(eagerFirst, Feed([], ""), text);
    assert Then(Feed([], ""), Sentences(text)) == Sentences(text);
    assert Fed(eagerFirst, [text]) == Then(Feed([], ""), Push(eagerFirst, "", text));
  }

  ghost predicate AllSplitsAgree(eagerFirst: bool, text: string) {
    forall a, b :: Join(a) == text && Join(b) == text ==> Spoken(Fed(eagerFirst, a).pieces) == Spoken(Fed(eagerFirst, b).pieces)
  }

  lemma HeardOtherwise(a: seq<string>, b: seq<string>, k: nat)
    requires k < |a| && k < |b| && Trim(a[k]) != Trim(b[k])
    ensures Spoken(a) != Spoken(b)
  {
    assert Spoken(a)[k] == Trim(a[k]) && Spoken(b)[k] == Trim(b[k]);
  }

  lemma LaterCommaIsHeard(f: Feed, g: Feed)
    requires 0 <= LastComma(f.rest) < LastComma(g.rest) && f.pieces == g.pieces && f.rest <= g.rest
    ensures Trim(CommaCut(f).pieces[|f.pieces|]) != Trim(CommaCut(g).pieces[|f.pieces|])
  {
    CutPiece(f);
    CutPiece(g);
    SamePrefix(f.rest, g.rest, LastComma(f.rest) + 2);
    EarlierCutIsShorter(g.rest, LastComma(f.rest), LastComma(g.rest));
  }

  lemma CutPiece(f: Feed)
    requires LastComma(f.rest) >= 0
    ensures var p := CommaCut(f).pieces; |p| == |f.pieces| + 1 && p[|f.pieces|] == f.rest[..LastComma(f.rest) + 2]
  {}

  lemma SamePrefix(s: string, t: string, k: nat)
    requires s <= t && k <= |s|
    ensures s[..k] == t[..k]
  {}

  /** A prefix that is cut elsewhere than the whole text makes two splittings differ. */
  lemma CutElsewhereIsHeard(eagerFirst: bool, head: string, tail: string)
    requires Cuts(eagerFirst, Sentences(head)) && !CutAlike(Sentences(head), Sentences(head + tail))
    ensures Spoken(Fed(eagerFirst, [head, tail]).pieces) != Spoken(Settled(eagerFirst, Sentences(head + tail)).pieces)
  {
    var f, g := Sentences(head), Sentences(head + tail);
    var a := Fed(eagerFirst, [head, tail]).pieces;
    TwoDeltas(eagerFirst, head, tail);
    FirstPushCuts(eagerFirst, head);
    CutPiece(f);
    assert a[|f.pieces|] == CommaCut(f).pieces[|f.pieces|];
    if f.pieces == g.pieces {
      CommaFollows(eagerFirst, head, tail, a);
    } else {
      SentencesAreStable(head, tail);
      SentenceFollows(f, tail, a, Settled(eagerFirst, g).pieces);
    }
  }

  lemma CommaFollows(eagerFirst: bool, head: string, tail: string, a: seq<string>)
    requires var f, g := Sentences(head), Sentences(head + tail);
             && Cuts(eagerFirst, f) && f.pieces == g.pieces && LastComma(f.rest) != LastComma(g.rest)
             && |a| > |f.pieces| && a[|f.pieces|] == CommaCut(f).pieces[|f.pieces|]
    ensures Spoken(a) != Spoken(Settled(eagerFirst, Sentences(head + tail)).pieces)
  {
    var f, g := Sentences(head), Sentences(head + tail);
    NoneEndsAfter(head, tail);
    LaterCommaIsHeard(f, g);
    CutPiece(g);
    assert Settled(eagerFirst, g) == CommaCut(g);
    HeardOtherwise(a, CommaCut(g).pieces, |f.pieces|);
  }

  lemma SentenceFollows(f: Feed, tail: string, a: seq<string>, b: seq<string>)
    requires LastComma(f.rest) >= 0 && |a| > |f.pieces| && a[|f.pieces|] == CommaCut(f).pieces[|f.pieces|]
    requires var g := Then(f, Sentences(f.rest + tail)); g.pieces != f.pieces && g.pieces <= b
    ensures Spoken(a) != Spoken(b)
  {
    var g := Then(f, Sentences(f.rest + tail));
    CutEndsInComma(f);
    SentenceEndsOtherwise(f, f.rest + tail);
    assert |g.pieces| > |f.pieces| ==> b[|f.pieces|] == g.pieces[|f.pieces|];
    HeardApart(a, b, |f.pieces|);
  }

  /** Exactly when the splitting of a text cannot be heard: all ways of cutting it into deltas
      say the same, if and only if every cut a prefix would have is the one the whole has. */
  lemma SplitsAgreeIff(eagerFirst: bool, text: string)
    ensures AllSplitsAgree(eagerFirst, text) <==> SameCut(eagerFirst, text)
  {
    if SameCut(eagerFirst, text) {
      forall a | Join(a) == text
        ensures Fed(eagerFirst, a) == Settled(eagerFirst, Sentences(text))
      {
        assert text + "" == text;
        SameCutSettles(eagerFirst, a, "");
      }
    } else {
      var a, b := SplitsDiffer(eagerFirst, text);
    }
  }

  lemma SplitsDiffer(eagerFirst: bool, text: string) returns (a: seq<string>, b: seq<string>)
    requires !SameCut(eagerFirst, text)
    ensures Join(a) == text && Join(b) == text && Spoken(Fed(eagerFirst, a).pieces) != Spoken(Fed(eagerFirst, b).pieces)
  {
    var n :| 0 <= n <= |text| && Cuts(eagerFirst, Sentences(text[..n])) && !CutAlike(Sentences(text[..n]), Sentences(text));
    assert text[..n] + text[n..] == text;
    a, b := TwoSplits(eagerFirst, text[..n], text[n..]);
  }

  lemma TwoSplits(eagerFirst: bool, head: string, tail: string) returns (a: seq<string>, b: seq<string>)
    requires Cuts(eagerFirst, Sentences(head)) && !CutAlike(Sentences(head), Sentences(head + tail))
    ensures Join(a) == Join(b) == head + tail && Spoken(Fed(eagerFirst, a).pieces) != Spoken(Fed(eagerFirst, b).pieces)
  {
    a, b := [head, tail], [head + tail];
    CutElsewhereIsHeard(eagerFirst, head, tail);
    OneDelta(eagerFirst, head + tail);
    JoinTwo(head, tail);
  }
}
