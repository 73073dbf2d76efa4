/** What a caller of the chunker gets: coverage, chunk sizes, and when it returns at all. */
module ChunkTheorems {
  import opened PyStrings
  import opened Chunking

  // ---- Coverage ----

  /** The positions of a chunk in the normalized text. */
  datatype Span = Span(from: nat, to: nat)

  ghost predicate IsSlice(normal: string, chunk: string, s: Span) {
    s.from < s.to <= |normal| && chunk == normal[s.from..s.to]
  }

  ghost predicate InOneOf(spans: seq<Span>, p: nat) {
    exists i :: 0 <= i < |spans| && spans[i].from <= p < spans[i].to
  }

  /** Between the end of a chunk and this position there are only blanks. */
  ghost predicate IsRawEnd(normal: string, s: Span, end: nat) {
    s.to <= end <= |normal| && forall p :: s.to <= p < end ==> IsSpace(normal[p])
  }

  /** A chunk begins at the first character that is not a blank, `overlap` positions before the place where the text was
      split behind the chunk before; or where that one began, when the split lies within the overlap. */
  ghost predicate Follows(normal: string, overlap: nat, s: Span, from: nat) {
    && s.from <= from <= |normal| && s.to <= from + overlap
    && (from == s.from
        || exists end: nat :: IsRawEnd(normal, s, end) && s.from + overlap < end <= from + overlap
             && forall p :: end - overlap <= p < from ==> IsSpace(normal[p]))
  }

  /** The chunks are non-empty slices in reading order, each beginning where it has to after the one before, and every
      character that is not a blank, up to a position, lies in one of them. */
  ghost predicate Covers(normal: string, overlap: nat, chunks: seq<string>, spans: seq<Span>, upTo: nat) {
    && upTo <= |normal| && |spans| == |chunks|
    && (forall i :: 0 <= i < |spans| ==> IsSlice(normal, chunks[i], spans[i]))
    && (forall i :: 0 < i < |spans| ==> Follows(normal, overlap, spans[i - 1], spans[i].from))
    && (forall p: nat :: p < upTo && !IsSpace(normal[p]) ==> InOneOf(spans, p))
  }

  /** The next chunk may start at this position. */
  ghost predicate MayFollow(normal: string, spans: seq<Span>, overlap: nat, from: nat) {
    spans != [] ==> Follows(normal, overlap, spans[|spans| - 1], from)
  }

  lemma CoverOneMore(
      normal: string, overlap: nat, chunks: seq<string>, spans: seq<Span>, upTo: nat,
      chunk: string, next: Span, upTo': nat)
    requires Covers(normal, overlap, chunks, spans, upTo) && MayFollow(normal, spans, overlap, next.from)
    requires IsSlice(normal, chunk, next) && next.from == upTo <= upTo' <= |normal|
    requires forall p :: next.to <= p < upTo' ==> IsSpace(normal[p])
    ensures Covers(normal, overlap, chunks + [chunk], spans + [next], upTo')
  {
    var more := spans + [next];
    forall p: nat | p < upTo' && !IsSpace(normal[p]) ensures InOneOf(more, p) {
      if p < upTo {
        assert InOneOf(spans, p);
        var i :| 0 <= i < |spans| && spans[i].from <= p < spans[i].to;
        assert more[i] == spans[i];
      } else {
        assert more[|spans|] == next;
      }
    }
  }

  lemma PrefixStripped(s: string, to: nat)
    requires IsStripped(s) && 0 < to <= |s|
    ensures var chunk := Strip(s[..to]);
      && 0 < |chunk| <= to && chunk == s[..|chunk|]
      && forall i :: |chunk| <= i < to ==> IsSpace(s[i])
  {
    var t := s[..to];
    assert LStrip(t) == t;
    var chunk := RStrip(t);
    assert t[0] == s[0];
    forall i | |chunk| <= i < to ensures IsSpace(s[i]) {
      assert t[i] == s[i];
    }
  }

  /** One iteration appends the slice of the rest before the split and moves on past blanks only. */
  lemma IterationCovers(
      normal: string, size: nat, overlap: nat, chunks: seq<string>, spans: seq<Span>, remaining: string)
    returns (next: Span)
    requires size > overlap && IsStripped(remaining) && |normal| >= |remaining| > size
    requires remaining == normal[|normal| - |remaining|..]
    requires Covers(normal, overlap, chunks, spans, |normal| - |remaining|)
    requires MayFollow(normal, spans, overlap, |normal| - |remaining|)
    ensures var chunk := Strip(remaining[..SplitAt(remaining, size)]);
      && chunk != "" && |chunk| <= size
      && |NextRemaining(remaining, size, overlap)| <= |remaining|
      && Covers(normal, overlap, chunks + [chunk], spans + [next], |normal| - |NextRemaining(remaining, size, overlap)|)
      && MayFollow(normal, spans + [next], overlap, |normal| - |NextRemaining(remaining, size, overlap)|)
  {
    hide SplitAt, Strip, IsStripped, Covers, IsSpace;
    var split, from := SplitAt(remaining, size), |normal| - |remaining|;
    var start := OverlapStart(remaining, size, overlap);
    PrefixStripped(remaining, split);
    SuffixStripped(remaining, start);
    var chunk := Strip(remaining[..split]);
    next := Span(from, from + |chunk|);
    var upTo := |normal| - |NextRemaining(remaining, size, overlap)|;
    assert chunk == normal[from..from + |chunk|];
    forall p | next.to <= p < upTo ensures IsSpace(normal[p]) {
      assert normal[p] == remaining[p - from];
    }
    CoverOneMore(normal, overlap, chunks, spans, from, chunk, next, upTo);
    NextFollows(normal, size, overlap, remaining, next, upTo);
  }

  lemma NextFollows(normal: string, size: nat, overlap: nat, remaining: string, s: Span, upTo: nat)
    requires size > overlap && IsStripped(remaining) && |normal| >= |remaining| > size
    requires remaining == normal[|normal| - |remaining|..]
    requires s.from == |normal| - |remaining| && s.to == s.from + |Strip(remaining[..SplitAt(remaining, size)])|
    requires |NextRemaining(remaining, size, overlap)| <= |remaining|
    requires upTo == |normal| - |NextRemaining(remaining, size, overlap)|
    ensures Follows(normal, overlap, s, upTo)
  {
    hide SplitAt, Strip, IsStripped, IsSpace;
    var split := SplitAt(remaining, size);
    PrefixStripped(remaining, split);
    ShrinksOrStands(remaining, size, overlap);
    if split > overlap {
      var end := s.from + split;
      SuffixStripped(remaining, OverlapStart(remaining, size, overlap));
      forall p | s.to <= p < end ensures IsSpace(normal[p]) {
        assert normal[p] == remaining[p - s.from];
      }
      forall p | end - overlap <= p < upTo ensures IsSpace(normal[p]) {
        assert normal[p] == remaining[p - s.from];
      }
      assert IsRawEnd(normal, s, end);
    }
  }

  lemma {:induction false} EveryStateCovers(normal: string, size: nat, overlap: nat, n: nat)
    returns (spans: seq<Span>)
    requires GoodSetting(normal, size, overlap)
    ensures var s := After(normal, size, overlap, n);
      && |s.remaining| <= |normal|
      && Covers(normal, overlap, s.chunks, spans, |normal| - |s.remaining|)
      && MayFollow(normal, spans, overlap, |normal| - |s.remaining|)
      && forall i :: 0 <= i < |s.chunks| ==> |s.chunks[i]| <= size
  {
    hide Iteration, IsStripped, Covers, MayFollow;
    if n == 0 {
      spans := [];
      NothingCovered(normal, overlap);
    } else {
      spans := EveryStateCovers(normal, size, overlap, n - 1);
      LoopStaysOk(normal, size, overlap, n - 1);
      spans := OneIterationMore(normal, size, overlap, After(normal, size, overlap, n - 1), spans);
    }
  }

  lemma OneIterationMore(normal: string, size: nat, overlap: nat, s: Loop, spans: seq<Span>)
    returns (more: seq<Span>)
    requires size > overlap && IsStripped(s.remaining) && |s.remaining| <= |normal|
    requires s.remaining == normal[|normal| - |s.remaining|..]
    requires Covers(normal, overlap, s.chunks, spans, |normal| - |s.remaining|)
    requires MayFollow(normal, spans, overlap, |normal| - |s.remaining|)
    requires forall i :: 0 <= i < |s.chunks| ==> |s.chunks[i]| <= size
    ensures var s' := Iteration(normal, size, overlap, s);
      && |s'.remaining| <= |normal|
      && Covers(normal, overlap, s'.chunks, more, |normal| - |s'.remaining|)
      && MayFollow(normal, more, overlap, |normal| - |s'.remaining|)
      && forall i :: 0 <= i < |s'.chunks| ==> |s'.chunks[i]| <= size
  {
    hide SplitAt, Strip, IsStripped, NextRemaining, Covers, MayFollow;
    more := spans;
    if s.Running? && |s.remaining| > size {
      var next := IterationCovers(normal, size, overlap, s.chunks, spans, s.remaining);
      more := spans + [next];
    }
  }

  lemma NothingCovered(normal: string, overlap: nat)
    ensures Covers(normal, overlap, [], [], 0) && MayFollow(normal, [], overlap, 0)
  {
  }

  lemma LastPieceCovers(normal: string, overlap: nat, s: Loop, spans: seq<Span>)
    requires s.remaining != "" && |s.remaining| <= |normal| && s.remaining == normal[|normal| - |s.remaining|..]
    requires Covers(normal, overlap, s.chunks, spans, |normal| - |s.remaining|)
    requires MayFollow(normal, spans, overlap, |normal| - |s.remaining|)
    ensures Covers(normal, overlap, Finish(s), spans + [Span(|normal| - |s.remaining|, |normal|)], |normal|)
  {
    hide Covers, MayFollow;
    var from := |normal| - |s.remaining|;
    CoverOneMore(normal, overlap, s.chunks, spans, from, s.remaining, Span(from, |normal|), |normal|);
  }

  /** Whenever chunking returns, its chunks cover the normalized text; and the text is blank exactly when there
      are none. */
  lemma ChunksCoverTheText(text: string, size: int, overlap: int)
    requires ChunkTextResult(text, size, overlap).Chunks?
    ensures var normal, chunks := Normalized(text), ChunkTextResult(text, size, overlap).chunks;
      && (chunks == [] <==> Strip(text) == "")
      && (chunks != [] ==> 0 <= overlap && exists spans :: Covers(normal, overlap, chunks, spans, |normal|))
  {
    hide Strip, IsStripped, Normalized, After, Covers, MayFollow, NonSpaces;
    var normal := Normalized(text);
    NormalizingTidiesUp(text);
    if Strip(text) != "" {
      if |normal| <= size {
        ShortTextIsCovered(normal, overlap);
      } else {
        LeftCovers(normal, size, overlap);
      }
    }
  }

  lemma ShortTextIsCovered(normal: string, overlap: nat)
    requires normal != ""
    ensures exists spans :: Covers(normal, overlap, [normal], spans, |normal|)
  {
    hide Covers, MayFollow;
    NothingCovered(normal, overlap);
    LastPieceCovers(normal, overlap, Left(normal, []), []);
    assert Finish(Left(normal, [])) == [normal];
  }

  lemma LeftCovers(normal: string, size: nat, overlap: nat)
    requires GoodSetting(normal, size, overlap)
    ensures var last := After(normal, size, overlap, |normal|);
      && Finish(last) != []
      && exists spans :: Covers(normal, overlap, Finish(last), spans, |normal|)
  {
    hide After, Covers, MayFollow;
    LoopStaysOk(normal, size, overlap, |normal|);
    var last := After(normal, size, overlap, |normal|);
    var spans := EveryStateCovers(normal, size, overlap, |normal|);
    LastPieceCovers(normal, overlap, last, spans);
  }

  // ---- Chunk sizes ----

  lemma FirstIterationBreaks(normal: string, size: nat, overlap: nat)
    requires GoodSetting(normal, size, overlap) && Stuck(normal, size, overlap)
    ensures After(normal, size, overlap, |normal|).Left? && After(normal, size, overlap, |normal|).remaining == normal
  {
    hide SplitAt, Strip, NextRemaining;
    assert After(normal, size, overlap, 0) == Running(normal, []);
    ShrinksOrStands(normal, size, overlap);
    assert After(normal, size, overlap, 1).Left?;
    LeftStaysLeft(normal, size, overlap, 1, |normal|);
  }

  lemma SizesOfFinished(s: Loop, size: nat)
    requires forall i :: 0 <= i < |s.chunks| ==> |s.chunks[i]| <= size
    ensures (forall i :: 0 <= i < |Finish(s)| ==> |Finish(s)[i]| <= size) <==> |s.remaining| <= size
  {
    if s.remaining != "" {
      assert Finish(s)[|s.chunks|] == s.remaining;
    }
  }

  /** Every chunk respects the size, except exactly when the very first split does not get past the overlap:
      then the guard after the first iteration ends the loop and the whole text becomes a chunk. */
  lemma ChunksRespectSizeIff(text: string, size: int, overlap: int)
    requires ChunkTextResult(text, size, overlap).Chunks? && 0 <= overlap < size
    ensures var chunks := ChunkTextResult(text, size, overlap).chunks;
      (forall i :: 0 <= i < |chunks| ==> |chunks[i]| <= size) <==> !Stuck(Normalized(text), size, overlap)
    ensures Stuck(Normalized(text), size, overlap) ==> Normalized(text) in ChunkTextResult(text, size, overlap).chunks
  {
    hide Strip, IsStripped, Normalized, After, Covers, MayFollow, SplitAt;
    var normal := Normalized(text);
    NormalizingTidiesUp(text);
    if |normal| > size {
      var spans := EveryStateCovers(normal, size, overlap, |normal|);
      LoopStaysOk(normal, size, overlap, |normal|);
      SizesOfFinished(After(normal, size, overlap, |normal|), size);
      if Stuck(normal, size, overlap) {
        FirstIterationBreaks(normal, size, overlap);
      }
    }
  }

  // ---- Does it return? ----

  /** Chunking never returns exactly when, after the first iteration, a rest is reached whose split does not get
      past the overlap; looking at as many iterations as the text has characters decides it. */
  lemma NeverReturnsIff(text: string, size: int, overlap: int)
    requires 0 <= overlap < size
    ensures ChunkTextResult(text, size, overlap) == RunsForever
      <==> |Normalized(text)| > size
           && exists n: nat :: n <= |Normalized(text)| && StuckLater(Normalized(text), size, overlap, n)
    ensures ChunkTextResult(text, size, overlap) == RunsForever
      <==> |Normalized(text)| > size && forall n: nat :: After(Normalized(text), size, overlap, n).Running?
  {
    hide Strip, IsStripped, Normalized, After, StuckLater;
    NormalizingTidiesUp(text);
    var normal := Normalized(text);
    if |normal| > size {
      ForeverIffStuckLater(normal, size, overlap);
    }
  }

  function Repeat(c: char, n: nat): (s: string)
    ensures |s| == n && forall i :: 0 <= i < n ==> s[i] == c
  {
    seq(n, _ => c)
  }

  /** Two words and the blank between them. */
  function TwoWords(m: nat, k: nat): string {
    Repeat('a', m) + " " + Repeat('b', k)
  }

  lemma BlankIsTheSplit(m: nat, k: nat, size: nat)
    requires 0 < m < size <= k
    ensures SplitAt(TwoWords(m, k), size) == m + 1
  {
    hide RFind, SplitPosition, Repeat;
    var text, s := TwoWords(m, k), SEPARATORS;
    var end := Boundary(text, size);
    NoMatch(text, "\n\n", end);
    NoMatch(text, "\n", end);
    NoMatch(text, ". ", end);
    NoMatch(text, "? ", end);
    NoMatch(text, "! ", end);
    SkipSeparator(text, size, s);
    SkipSeparator(text, size, s[1..]);
    SkipSeparator(text, size, s[2..]);
    SkipSeparator(text, size, s[3..]);
    SkipSeparator(text, size, s[4..]);
    assert s[1..][1..] == s[2..] && s[2..][1..] == s[3..] && s[3..][1..] == s[4..] && s[4..][1..] == s[5..];
    LastSeparatorDecides(text, size, m);
  }

  lemma LastSeparatorDecides(text: string, size: nat, m: nat)
    requires 0 < m && m + 1 <= Boundary(text, size)
    requires text[m] == ' ' && forall i :: m < i < |text| ==> text[i] != ' '
    ensures SplitPosition(text, size, SEPARATORS[5..]) == m + 1
  {
    var p := RFind(text, " ", Boundary(text, size));
    assert MatchesAt(text, " ", m);
    assert SEPARATORS[5..] == [" "];
    if p >= 0 {
      MatchBegins(text, " ", p);
    }
  }

  lemma TwoWordsAreTidy(m: nat, k: nat)
    requires m > 0 && k > 0
    ensures Tidy(TwoWords(m, k))
  {
  }

  /** The first iteration leaves one character less of the first word, and that is the last progress made. */
  lemma TwoWordsRunForever(size: nat, overlap: nat)
    requires 2 <= overlap < size
    ensures ChunkTextResult(TwoWords(overlap, size), size, overlap) == RunsForever
  {
    hide SplitAt, Strip, IsStripped, Tidy, Normalized, TwoWords;
    var text, next := TwoWords(overlap, size), TwoWords(overlap - 1, size);
    TwoWordsAreTidy(overlap, size);
    TwoWordsAreTidy(overlap - 1, size);
    BlankIsTheSplit(overlap, size, size);
    BlankIsTheSplit(overlap - 1, size, size);
    ShorterFirstWord(overlap, size);
    TidyIsNormal(text);
    StripOfStripped(next) by { assert Tidy(next); TidyStrips(next); }
    assert After(text, size, overlap, 0) == Running(text, []);
    assert NextRemaining(text, size, overlap) == next;
    assert After(text, size, overlap, 1).Running? && After(text, size, overlap, 1).remaining == next;
    assert StuckLater(text, size, overlap, 1);
    NormalizingTidiesUp(text);
    NeverReturnsIff(text, size, overlap);
  }

  lemma TidyStrips(s: string)
    requires Tidy(s)
    ensures IsStripped(s)
  {
  }

  lemma ShorterFirstWord(m: nat, k: nat)
    requires m > 0
    ensures TwoWords(m, k)[1..] == TwoWords(m - 1, k) && |TwoWords(m, k)| == m + 1 + k
    ensures |TwoWords(m - 1, k)| == m + k
  {
  }

  lemma StuckNeedsTwo(remaining: string, size: nat, overlap: nat)
    requires Stuck(remaining, size, overlap) && overlap < size
    ensures overlap >= 2
  {
    hide SplitAt;
  }

  /** With an overlap of 0 or 1 chunking returns for every text; with any larger overlap there is a text for which
      it never does. */
  lemma AlwaysReturnsIffOverlapAtMostOne(size: int, overlap: int)
    requires 0 <= overlap < size
    ensures (forall text :: ChunkTextResult(text, size, overlap) != RunsForever) <==> overlap <= 1
  {
    hide ChunkTextResult, After, Stuck;
    if overlap <= 1 {
      forall text ensures ChunkTextResult(text, size, overlap) != RunsForever {
        NeverReturnsIff(text, size, overlap);
        if n: nat :| StuckLater(Normalized(text), size, overlap, n) {
          StuckNeedsTwo(After(Normalized(text), size, overlap, n).remaining, size, overlap);
        }
      }
    } else {
      TwoWordsRunForever(size, overlap);
    }
  }

  /** Blank text is never an error; otherwise the settings are refused exactly for a size or an overlap out of range,
      the first of them that applies. */
  lemma SettingsAreRefusedIff(text: string, size: int, overlap: int)
    ensures var outcome := ChunkTextResult(text, size, overlap);
      && (Strip(text) == "" ==> outcome == Chunks([]))
      && (outcome.Raises? <==> Strip(text) != "" && !(0 <= overlap < size))
      && (outcome == Raises(SizeNotPositive) <==> Strip(text) != "" && size <= 0)
      && (outcome == Raises(OverlapNegative) <==> Strip(text) != "" && size > 0 && overlap < 0)
      && (outcome == Raises(OverlapNotSmaller) <==> Strip(text) != "" && 0 < size <= overlap)
  {
    hide Strip, Normalized, After;
  }
}
