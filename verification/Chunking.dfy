/** Splitting a document into overlapping chunks. */
module Chunking {
  import opened PyStrings

  // ---- Whitespace normalization: " ".join(text.split()) ----

  function WordLength(s: string): (n: nat)
    ensures n <= |s| && forall i :: 0 <= i < n ==> !IsSpace(s[i])
    ensures n < |s| ==> IsSpace(s[n])
  {
    if s == "" || IsSpace(s[0]) then 0 else 1 + WordLength(s[1..])
  }

  predicate IsWord(w: string) {
    w != "" && forall i :: 0 <= i < |w| ==> !IsSpace(w[i])
  }

  /** str.split(): the maximal runs of non-space characters. */
  function Words(s: string): (words: seq<string>)
    ensures forall w :: w in words ==> IsWord(w)
    decreases |s|
  {
    var t := LStrip(s);
    if t == "" then [] else var n := WordLength(t); [t[..n]] + Words(t[n..])
  }

  function Normalized(text: string): string {
    Join(" ", Words(text))
  }

  /** No space at either end, and single blanks between the words. */
  predicate Tidy(s: string) {
    && IsStripped(s)
    && (forall i :: 0 <= i < |s| && IsSpace(s[i]) ==> s[i] == ' ')
    && (forall i :: 0 <= i < |s| - 1 && IsSpace(s[i]) ==> !IsSpace(s[i + 1]))
  }

  function NonSpaces(s: string): string {
    if s == "" then "" else (if IsSpace(s[0]) then "" else [s[0]]) + NonSpaces(s[1..])
  }

  lemma {:induction false} NonSpacesOfConcat(a: string, b: string)
    ensures NonSpaces(a + b) == NonSpaces(a) + NonSpaces(b)
  {
    hide IsSpace;
    if a == "" {
      assert a + b == b;
    } else {
      NonSpacesOfConcat(a[1..], b);
      assert (a + b)[1..] == a[1..] + b;
    }
  }

  lemma {:induction false} NonSpacesOfSpaces(s: string)
    requires forall i :: 0 <= i < |s| ==> IsSpace(s[i])
    ensures NonSpaces(s) == ""
  {
    if s != "" {
      NonSpacesOfSpaces(s[1..]);
    }
  }

  lemma {:induction false} JoinOfWordsIsTidy(words: seq<string>)
    requires forall w :: w in words ==> IsWord(w)
    ensures Tidy(Join(" ", words)) && (words != [] ==> Join(" ", words) != "")
  {
    if |words| > 1 {
      JoinOfWordsIsTidy(words[1..]);
      var first, rest := words[0], Join(" ", words[1..]);
      assert IsWord(first);
      assert Join(" ", words) == first + " " + rest;
    } else if |words| == 1 {
      assert IsWord(words[0]);
    }
  }

  lemma NonSpacesAfterStart(s: string)
    ensures NonSpaces(s) == NonSpaces(LStrip(s))
  {
    hide NonSpaces, LStrip, IsSpace;
    var t := LStrip(s);
    var skipped := s[..|s| - |t|];
    assert s == skipped + t;
    NonSpacesOfConcat(skipped, t);
    NonSpacesOfSpaces(skipped);
  }

  lemma NonSpacesOfJoin(first: string, words: seq<string>)
    ensures NonSpaces(Join(" ", [first] + words)) == NonSpaces(first) + NonSpaces(Join(" ", words))
  {
    hide NonSpaces;
    assert ([first] + words)[1..] == words;
    if words == [] {
      NonSpacesOfConcat(first, "");
      assert first + "" == first;
    } else {
      var rest := Join(" ", words);
      assert Join(" ", [first] + words) == first + (" " + rest);
      NonSpacesOfConcat(first, " " + rest);
      NonSpacesOfConcat(" ", rest);
      NonSpacesOfSpaces(" ");
    }
  }

  lemma {:induction false} JoinOfWordsKeepsCharacters(s: string)
    ensures NonSpaces(Join(" ", Words(s))) == NonSpaces(s)
    decreases |s|
  {
    hide NonSpaces, LStrip, Join;
    var t := LStrip(s);
    NonSpacesAfterStart(s);
    if t == "" {
      NothingIsNormal();
    } else {
      var n := WordLength(t);
      JoinOfWordsKeepsCharacters(t[n..]);
      assert t == t[..n] + t[n..];
      NonSpacesOfConcat(t[..n], t[n..]);
      NonSpacesOfJoin(t[..n], Words(t[n..]));
    }
  }

  lemma BlankIsSkipped(s: string, rest: string)
    requires s == [' '] + rest && rest != "" && !IsSpace(rest[0])
    ensures LStrip(s) == LStrip(rest) == rest
  {
    assert s[1..] == rest;
  }

  lemma WordsFromStart(s: string)
    requires LStrip(s) != ""
    ensures var t := LStrip(s); Words(s) == [t[..WordLength(t)]] + Words(t[WordLength(t)..])
  {
    hide LStrip, WordLength, IsSpace;
  }

  /** A blank in front changes nothing. */
  lemma WordsAfterBlank(s: string, rest: string)
    requires s == [' '] + rest && rest != "" && !IsSpace(rest[0])
    ensures Words(s) == Words(rest) != []
  {
    hide Words, WordLength, IsSpace, LStrip;
    BlankIsSkipped(s, rest);
    WordsFromStart(s);
    WordsFromStart(rest);
  }

  lemma TidyAfterBlank(s: string, n: nat)
    requires Tidy(s) && n < |s| && IsSpace(s[n])
    ensures n + 1 < |s| && s[n..] == [' '] + s[n + 1..]
    ensures Tidy(s[n + 1..]) && !IsSpace(s[n + 1])
  {
    hide IsSpace;
  }

  lemma WordsOfTidy(s: string)
    requires s != "" && !IsSpace(s[0])
    ensures Words(s) == [s[..WordLength(s)]] + Words(s[WordLength(s)..]) && WordLength(s) > 0
  {
    assert LStrip(s) == s;
  }

  lemma JoinTwo(first: string, words: seq<string>)
    requires words != []
    ensures Join(" ", [first] + words) == first + " " + Join(" ", words)
  {
    assert ([first] + words)[1..] == words;
  }

  lemma {:induction false} TidyIsNormal(s: string)
    requires Tidy(s)
    ensures Normalized(s) == s
    decreases |s|
  {
    hide Words, Join, IsSpace, LStrip, WordLength;
    if s == "" {
      NothingIsNormal();
    } else {
      var n := WordLength(s);
      WordsOfTidy(s);
      if n == |s| {
        NothingIsNormal();
        assert s[n..] == "" && s[..n] == s;
        JoinOne(s);
      } else {
        TidyAfterBlank(s, n);
        var rest := s[n + 1..];
        TidyIsNormal(rest);
        WordsAfterBlank(s[n..], rest);
        JoinTwo(s[..n], Words(rest));
        assert s == s[..n] + " " + rest;
      }
    }
  }

  lemma NothingIsNormal()
    ensures Words("") == [] && Join(" ", []) == ""
  {
  }

  lemma JoinOne(s: string)
    ensures Join(" ", [s] + []) == s
  {
  }

  /** Normalizing keeps every non-space character in order, leaves single blanks, and is idempotent. */
  lemma NormalizingTidiesUp(text: string)
    ensures Tidy(Normalized(text)) && NonSpaces(Normalized(text)) == NonSpaces(text)
    ensures Normalized(Normalized(text)) == Normalized(text)
    ensures Normalized(text) == "" <==> Strip(text) == ""
  {
    hide Tidy;
    JoinOfWordsIsTidy(Words(text));
    JoinOfWordsKeepsCharacters(text);
    TidyIsNormal(Normalized(text));
  }

  // ---- Where to split ----

  const SEPARATORS: seq<string> := ["\n\n", "\n", ". ", "? ", "! ", " "]

  predicate MatchesAt(text: string, separator: string, p: nat) {
    p + |separator| <= |text| && text[p..p + |separator|] == separator
  }

  /** text.rfind(separator, 0, end) */
  function RFind(text: string, separator: string, end: nat): (p: int)
    requires end <= |text| && |separator| > 0
    ensures -1 <= p && (p >= 0 ==> p + |separator| <= end && MatchesAt(text, separator, p))
    ensures forall q: nat :: p < q && q + |separator| <= end ==> !MatchesAt(text, separator, q)
  {
    hide MatchesAt;
    if end < |separator| then -1
    else if MatchesAt(text, separator, end - |separator|) then end - |separator|
    else RFind(text, separator, end - 1)
  }

  function Boundary(text: string, size: nat): nat {
    if size < |text| then size else |text|
  }

  predicate AllNonEmpty(separators: seq<string>) {
    forall k :: 0 <= k < |separators| ==> |separators[k]| > 0
  }

  function SplitPosition(text: string, size: nat, separators: seq<string>): (split: nat)
    requires AllNonEmpty(separators)
    ensures split <= Boundary(text, size)
    ensures split == Boundary(text, size) || split >= 2
  {
    if separators == [] then Boundary(text, size)
    else
      var p := RFind(text, separators[0], Boundary(text, size));
      if p > 0 then p + |separators[0]| else SplitPosition(text, size, separators[1..])
  }

  method FindSplitPosition(text: string, size: nat, separators: seq<string>) returns (split: nat)
    requires AllNonEmpty(separators)
    ensures split == SplitPosition(text, size, separators)
  {
    var boundary := Boundary(text, size);
    assert separators[0..] == separators;
    for k := 0 to |separators|
      invariant SplitPosition(text, size, separators[k..]) == SplitPosition(text, size, separators)
    {
      assert separators[k..][1..] == separators[k + 1..];
      var position := RFind(text, separators[k], boundary);
      if position > 0 {
        return position + |separators[k]|;
      }
    }
    return boundary;
  }

  /** The separator occurs in the window, not at its very beginning. */
  ghost predicate Occurs(text: string, size: nat, separator: string) {
    exists p: nat :: 0 < p && p + |separator| <= Boundary(text, size) && MatchesAt(text, separator, p)
  }

  ghost predicate IsLastOccurrence(text: string, size: nat, separator: string, p: nat) {
    && 0 < p && p + |separator| <= Boundary(text, size) && MatchesAt(text, separator, p)
    && forall q: nat :: p < q && q + |separator| <= Boundary(text, size) ==> !MatchesAt(text, separator, q)
  }

  /** This separator occurs in the window and none before it in the list does. */
  ghost predicate FirstToOccur(text: string, size: nat, separators: seq<string>, k: nat) {
    && k < |separators| && Occurs(text, size, separators[k])
    && forall j :: 0 <= j < k ==> !Occurs(text, size, separators[j])
  }

  /** The split lies behind the last occurrence of the first separator that occurs at all; without any it is the
      end of the window. */
  lemma {:induction false} SplitIsAtFirstSeparatorThatOccurs(text: string, size: nat, separators: seq<string>)
    requires AllNonEmpty(separators)
    ensures (forall k :: 0 <= k < |separators| ==> !Occurs(text, size, separators[k]))
      ==> SplitPosition(text, size, separators) == Boundary(text, size)
    ensures forall k: nat :: FirstToOccur(text, size, separators, k) ==>
      exists p: nat ::
        && IsLastOccurrence(text, size, separators[k], p)
        && SplitPosition(text, size, separators) == p + |separators[k]|
  {
    if separators != [] {
      var first, rest := separators[0], separators[1..];
      var p := RFind(text, first, Boundary(text, size));
      SplitIsAtFirstSeparatorThatOccurs(text, size, rest);
      if p > 0 {
        assert IsLastOccurrence(text, size, first, p);
        assert Occurs(text, size, first);
      } else {
        assert !Occurs(text, size, first);
        assert forall j :: 0 <= j < |rest| ==> rest[j] == separators[j + 1];
        forall k: nat | FirstToOccur(text, size, separators, k)
          ensures k > 0 && FirstToOccur(text, size, rest, k - 1)
        {
          assert forall j :: 0 <= j < k - 1 ==> rest[j] == separators[j + 1];
        }
      }
    }
  }

  function SplitAt(text: string, size: nat): (split: nat)
    ensures split <= Boundary(text, size)
    ensures split == Boundary(text, size) || split >= 2
  {
    SplitPosition(text, size, SEPARATORS)
  }

  lemma NoMatch(text: string, separator: string, end: nat)
    requires end <= |text| && |separator| > 0 && forall i :: 0 <= i < |text| ==> text[i] != separator[0]
    ensures RFind(text, separator, end) == -1
  {
    var p := RFind(text, separator, end);
    if p >= 0 {
      MatchBegins(text, separator, p);
      assert false;
    }
  }

  lemma MatchBegins(text: string, separator: string, p: nat)
    requires |separator| > 0 && MatchesAt(text, separator, p)
    ensures text[p] == separator[0]
  {
    assert text[p..p + |separator|][0] == text[p];
  }

  lemma SkipSeparator(text: string, size: nat, separators: seq<string>)
    requires AllNonEmpty(separators) && |separators| > 0
    requires RFind(text, separators[0], Boundary(text, size)) == -1
    ensures SplitPosition(text, size, separators) == SplitPosition(text, size, separators[1..])
  {
  }

  /** Normalization has removed what the two paragraph separators look for: they never decide a split. */
  lemma ParagraphSeparatorsNeverMatch(text: string, size: nat)
    requires Tidy(text)
    ensures SplitAt(text, size) == SplitPosition(text, size, SEPARATORS[2..])
  {
    hide RFind, SplitPosition;
    assert SEPARATORS[1..][1..] == SEPARATORS[2..];
    NoMatch(text, "\n\n", Boundary(text, size));
    NoMatch(text, "\n", Boundary(text, size));
    SkipSeparator(text, size, SEPARATORS);
    SkipSeparator(text, size, SEPARATORS[1..]);
  }

  // ---- The loop ----

  datatype Loop =
    | Running(remaining: string, chunks: seq<string>)
    | Left(remaining: string, chunks: seq<string>)

  function OverlapStart(remaining: string, size: nat, overlap: nat): nat {
    var split := SplitAt(remaining, size);
    if split > overlap then split - overlap else 0
  }

  function NextRemaining(remaining: string, size: nat, overlap: nat): string {
    Strip(remaining[OverlapStart(remaining, size, overlap)..])
  }

  function WithChunk(chunks: seq<string>, chunk: string): seq<string> {
    if chunk != "" then chunks + [chunk] else chunks
  }

  /** The loop test and, when it passes, one run through the loop body. */
  function Iteration(normal: string, size: nat, overlap: nat, s: Loop): Loop {
    if s.Left? then s
    else if |s.remaining| <= size then Left(s.remaining, s.chunks)
    else
      var chunks := WithChunk(s.chunks, Strip(s.remaining[..SplitAt(s.remaining, size)]));
      var remaining := NextRemaining(s.remaining, size, overlap);
      if |remaining| >= |normal| then Left(remaining, chunks) else Running(remaining, chunks)
  }

  function After(normal: string, size: nat, overlap: nat, n: nat): Loop {
    if n == 0 then Running(normal, []) else Iteration(normal, size, overlap, After(normal, size, overlap, n - 1))
  }

  /** The split does not get past the overlap. */
  predicate Stuck(remaining: string, size: nat, overlap: nat) {
    |remaining| > size && SplitAt(remaining, size) <= overlap
  }

  lemma SuffixStripped(normal: string, from: nat)
    requires IsStripped(normal) && from < |normal|
    ensures Strip(normal[from..]) != "" && |Strip(normal[from..])| <= |normal| - from
    ensures Strip(normal[from..]) == normal[|normal| - |Strip(normal[from..])|..]
    ensures forall i :: from <= i < |normal| - |Strip(normal[from..])| ==> IsSpace(normal[i])
  {
    var s := normal[from..];
    assert s[|s| - 1] == normal[|normal| - 1];
    var t := LStrip(s);
    assert t != "" && IsStripped(t);
    assert Strip(s) == t;
    forall i | from <= i < |normal| - |t| ensures IsSpace(normal[i]) {
      assert normal[i] == s[i - from];
    }
  }

  /** One iteration either makes the rest strictly shorter, exactly when the split gets past the overlap, or
      leaves it as it is. */
  lemma ShrinksOrStands(remaining: string, size: nat, overlap: nat)
    requires IsStripped(remaining) && |remaining| > size > overlap
    ensures var next := NextRemaining(remaining, size, overlap);
      && IsStripped(next) && next != "" && |next| <= |remaining| && next == remaining[|remaining| - |next|..]
      && (|next| < |remaining| <==> SplitAt(remaining, size) > overlap)
      && (next == remaining <==> Stuck(remaining, size, overlap))
  {
    hide SplitAt, Strip;
    SuffixStripped(remaining, OverlapStart(remaining, size, overlap));
    assert remaining[0..] == remaining;
    StripOfStripped(remaining);
  }

  ghost predicate GoodSetting(normal: string, size: nat, overlap: nat) {
    IsStripped(normal) && |normal| > size > overlap
  }

  /** What holds at every loop test. */
  ghost predicate LoopOk(normal: string, size: nat, overlap: nat, n: nat, s: Loop) {
    && IsStripped(s.remaining) && s.remaining != "" && |s.remaining| <= |normal|
    && s.remaining == normal[|normal| - |s.remaining|..]
    && (s.Running? && n > 0 ==> |s.remaining| < |normal|)
    && (s.Running? ==> |s.remaining| + n <= |normal| || Stuck(s.remaining, size, overlap))
    && (s.Left? ==> |s.remaining| <= size || Stuck(normal, size, overlap))
  }

  lemma SuffixOfSuffix(a: string, b: string, c: string)
    requires |c| <= |b| <= |a| && b == a[|a| - |b|..] && c == b[|b| - |c|..]
    ensures c == a[|a| - |c|..]
  {
  }

  lemma IterationStaysOk(normal: string, size: nat, overlap: nat, n: nat, s: Loop)
    requires GoodSetting(normal, size, overlap) && LoopOk(normal, size, overlap, n, s)
    ensures LoopOk(normal, size, overlap, n + 1, Iteration(normal, size, overlap, s))
  {
    hide SplitAt, Strip, IsStripped, NextRemaining, WithChunk;
    if s.Running? && |s.remaining| > size {
      ShrinksOrStands(s.remaining, size, overlap);
      SuffixOfSuffix(normal, s.remaining, NextRemaining(s.remaining, size, overlap));
    }
  }

  lemma {:induction false} LoopStaysOk(normal: string, size: nat, overlap: nat, n: nat)
    requires GoodSetting(normal, size, overlap)
    ensures LoopOk(normal, size, overlap, n, After(normal, size, overlap, n))
  {
    hide Iteration, IsStripped, Stuck;
    if n == 0 {
      assert normal[0..] == normal;
    } else {
      LoopStaysOk(normal, size, overlap, n - 1);
      IterationStaysOk(normal, size, overlap, n - 1, After(normal, size, overlap, n - 1));
    }
  }

  /** Leaving is final. */
  lemma {:induction false} LeftStaysLeft(normal: string, size: nat, overlap: nat, n: nat, m: nat)
    requires n <= m && After(normal, size, overlap, n).Left?
    ensures After(normal, size, overlap, m) == After(normal, size, overlap, n)
  {
    hide SplitAt, Strip, NextRemaining, WithChunk;
    if n < m {
      LeftStaysLeft(normal, size, overlap, n, m - 1);
    }
  }

  /** At a later iteration, a stuck rest stays forever. */
  lemma {:induction false} StuckStaysStuck(normal: string, size: nat, overlap: nat, n: nat, m: nat)
    requires GoodSetting(normal, size, overlap) && 0 < n <= m
    requires After(normal, size, overlap, n).Running? && Stuck(After(normal, size, overlap, n).remaining, size, overlap)
    ensures After(normal, size, overlap, m).Running?
    ensures After(normal, size, overlap, m).remaining == After(normal, size, overlap, n).remaining
  {
    hide SplitAt, Strip, IsStripped, NextRemaining, Stuck;
    if n < m {
      StuckStaysStuck(normal, size, overlap, n, m - 1);
      LoopStaysOk(normal, size, overlap, m - 1);
      assert Stuck(After(normal, size, overlap, m - 1).remaining, size, overlap);
      StuckIsLong(After(normal, size, overlap, m - 1).remaining, size, overlap);
      ShrinksOrStands(After(normal, size, overlap, m - 1).remaining, size, overlap);
    }
  }

  lemma StuckIsLong(remaining: string, size: nat, overlap: nat)
    requires Stuck(remaining, size, overlap)
    ensures |remaining| > size
  {
  }

  ghost predicate StuckLater(normal: string, size: nat, overlap: nat, n: nat) {
    && 0 < n && After(normal, size, overlap, n).Running?
    && Stuck(After(normal, size, overlap, n).remaining, size, overlap)
  }

  /** After as many iterations as there are characters, the loop has been left or stands still for good. */
  lemma DecidedWithinLength(normal: string, size: nat, overlap: nat)
    requires GoodSetting(normal, size, overlap)
    ensures After(normal, size, overlap, |normal|).Running? <==> StuckLater(normal, size, overlap, |normal|)
  {
    hide SplitAt, IsStripped, After, Stuck;
    LoopStaysOk(normal, size, overlap, |normal|);
  }

  /** The loop runs forever exactly when some rest after the first iteration is stuck. */
  lemma ForeverIffStuckLater(normal: string, size: nat, overlap: nat)
    requires GoodSetting(normal, size, overlap)
    ensures (forall n: nat :: After(normal, size, overlap, n).Running?)
      <==> exists n: nat :: n <= |normal| && StuckLater(normal, size, overlap, n)
    ensures (forall n: nat :: After(normal, size, overlap, n).Running?)
      <==> After(normal, size, overlap, |normal|).Running?
  {
    hide SplitAt, IsStripped, After, Stuck;
    DecidedWithinLength(normal, size, overlap);
    if n: nat :| StuckLater(normal, size, overlap, n) {
      forall m: nat ensures After(normal, size, overlap, m).Running? {
        if n <= m {
          StuckStaysStuck(normal, size, overlap, n, m);
        } else if After(normal, size, overlap, m).Left? {
          LeftStaysLeft(normal, size, overlap, m, n);
        }
      }
    }
  }

  // ---- The function ----

  datatype ChunkError = SizeNotPositive | OverlapNegative | OverlapNotSmaller

  datatype Outcome = Chunks(chunks: seq<string>) | Raises(error: ChunkError) | RunsForever

  function Finish(s: Loop): seq<string> {
    if s.remaining != "" then s.chunks + [s.remaining] else s.chunks
  }

  function ChunkTextResult(text: string, size: int, overlap: int): Outcome {
    if Strip(text) == "" then Chunks([])
    else if size <= 0 then Raises(SizeNotPositive)
    else if overlap < 0 then Raises(OverlapNegative)
    else if overlap >= size then Raises(OverlapNotSmaller)
    else
      var normal := Normalized(text);
      if |normal| <= size then Chunks([normal])
      else
        var last := After(normal, size, overlap, |normal|);
        if last.Left? then Chunks(Finish(last)) else RunsForever
  }

  /** The loop as the code has it; a standstill, which the code never leaves, is reported as such. */
  method ChunkText(text: string, size: int, overlap: int) returns (outcome: Outcome)
    ensures outcome == ChunkTextResult(text, size, overlap)
  {
    hide Strip, IsStripped, Tidy, Normalized, SplitPosition, LoopOk;
    if Strip(text) == "" {
      return Chunks([]);
    }
    if size <= 0 {
      return Raises(SizeNotPositive);
    }
    if overlap < 0 {
      return Raises(OverlapNegative);
    }
    if overlap >= size {
      return Raises(OverlapNotSmaller);
    }
    var normal := Normalized(text);
    if |normal| <= size {
      return Chunks([normal]);
    }
    TidyIsStripped(text);
    var chunks: seq<string> := [];
    var remaining := normal;
    ghost var n: nat := 0;
    ghost var left := false;
    while |remaining| > size
      invariant After(normal, size, overlap, n) == Running(remaining, chunks)
      decreases |remaining|
    {
      LoopStaysOk(normal, size, overlap, n);
      ShrinksOrStands(remaining, size, overlap);
      var split := FindSplitPosition(remaining, size, SEPARATORS);
      var chunk := Strip(remaining[..split]);
      if chunk != "" {
        chunks := chunks + [chunk];
      }
      var overlapStart := if split > overlap then split - overlap else 0;
      var next := Strip(remaining[overlapStart..]);
      if |next| == |remaining| && |next| < |normal| {
        StandstillIsForever(normal, size, overlap, n);
        return RunsForever;
      }
      remaining := next;
      n := n + 1;
      if |remaining| >= |normal| {
        left := true;
        break;
      }
    }
    if !left {
      n := n + 1;
    }
    LeftIsTheResult(normal, size, overlap, n);
    if remaining != "" {
      chunks := chunks + [remaining];
    }
    return Chunks(chunks);
  }

  lemma TidyIsStripped(text: string)
    ensures IsStripped(Normalized(text))
  {
    hide Normalized;
    NormalizingTidiesUp(text);
  }

  lemma StandstillIsForever(normal: string, size: nat, overlap: nat, n: nat)
    requires GoodSetting(normal, size, overlap) && After(normal, size, overlap, n).Running?
    requires Stuck(After(normal, size, overlap, n).remaining, size, overlap)
    requires |After(normal, size, overlap, n).remaining| < |normal|
    ensures After(normal, size, overlap, |normal|).Running?
  {
    hide SplitAt, IsStripped, Stuck, Iteration;
    assert n > 0;
    if n <= |normal| {
      StuckStaysStuck(normal, size, overlap, n, |normal|);
    } else if After(normal, size, overlap, |normal|).Left? {
      LeftStaysLeft(normal, size, overlap, |normal|, n);
    }
  }

  lemma LeftIsTheResult(normal: string, size: nat, overlap: nat, n: nat)
    requires GoodSetting(normal, size, overlap) && After(normal, size, overlap, n).Left?
    ensures After(normal, size, overlap, |normal|) == After(normal, size, overlap, n)
  {
    hide After, GoodSetting, IsStripped;
    ForeverIffStuckLater(normal, size, overlap);
    if n <= |normal| {
      LeftStaysLeft(normal, size, overlap, n, |normal|);
    } else {
      LeftStaysLeft(normal, size, overlap, |normal|, n);
    }
  }
}
