/** Splitting a reply at Meta's limit. Text is a sequence of UTF-16 code units, as the plugin and the relay
    count it. */
module Chunking {
  type Unit = u: int | 0 <= u < 0x1_0000
  type Text = seq<Unit>

  const TEXT_CHUNK_LIMIT: nat := 4096

  predicate IsHigh(u: Unit) {
    0xD800 <= u <= 0xDBFF
  }

  predicate IsLow(u: Unit) {
    0xDC00 <= u <= 0xDFFF
  }

  /** What JavaScript's trim takes away: ECMAScript white space and line terminators. */
  predicate IsSpace(u: Unit) {
    || 0x09 <= u <= 0x0D || u == 0x20 || u == 0xA0 || u == 0x1680 || 0x2000 <= u <= 0x200A
    || u == 0x2028 || u == 0x2029 || u == 0x202F || u == 0x205F || u == 0x3000 || u == 0xFEFF
  }

  ghost predicate AllSpace(s: Text) {
    forall i :: 0 <= i < |s| ==> IsSpace(s[i])
  }

  /** Well-formed UTF-16 (The Unicode Standard, section 3.9): surrogates come in pairs, high before low. */
  ghost predicate WellFormed(s: Text) {
    && (forall i :: 0 <= i < |s| && IsHigh(s[i]) ==> i + 1 < |s| && IsLow(s[i + 1]))
    && (forall i :: 0 <= i < |s| && IsLow(s[i]) ==> i > 0 && IsHigh(s[i - 1]))
  }

  /** The first unit from i on that is not white space. */
  function FirstVisible(s: Text, i: nat): (k: nat)
    requires i <= |s|
    ensures i <= k <= |s| && (k < |s| ==> !IsSpace(s[k])) && forall j :: i <= j < k ==> IsSpace(s[j])
    decreases |s| - i
  {
    if i < |s| && IsSpace(s[i]) then FirstVisible(s, i + 1) else i
  }

  /** The end of the last unit before n that is not white space. */
  function LastVisible(s: Text, n: nat): (k: nat)
    requires n <= |s|
    ensures k <= n && (k > 0 ==> !IsSpace(s[k - 1])) && forall j :: k <= j < n ==> IsSpace(s[j])
  {
    if n > 0 && IsSpace(s[n - 1]) then LastVisible(s, n - 1) else n
  }

  function TrimStart(s: Text): (r: Text)
    ensures |r| <= |s| && r == s[|s| - |r|..] && AllSpace(s[..|s| - |r|])
    ensures r != [] ==> !IsSpace(r[0])
  {
    s[FirstVisible(s, 0)..]
  }

  function TrimEnd(s: Text): (r: Text)
    ensures |r| <= |s| && r == s[..|r|] && AllSpace(s[|r|..])
    ensures r != [] ==> !IsSpace(r[|r| - 1])
  {
    s[..LastVisible(s, |s|)]
  }

  predicate At(s: Text, sep: Text, i: int) {
    0 <= i <= |s| - |sep| && s[i..i + |sep|] == sep
  }

  function LastIndexFrom(s: Text, sep: Text, from: int): (r: int)
    requires from <= |s| - |sep|
    ensures r == -1 || (At(s, sep, r) && r <= from)
    ensures forall i :: r < i <= from ==> !At(s, sep, i)
    decreases from + 1
  {
    if from < 0 then -1 else if At(s, sep, from) then from else LastIndexFrom(s, sep, from - 1)
  }

  function LastIndexOf(s: Text, sep: Text): (r: int)
    ensures r == -1 || At(s, sep, r)
    ensures forall i :: At(s, sep, i) ==> i <= r
  {
    LastIndexFrom(s, sep, |s| - |sep|)
  }

  // ----- Where a window is cut -----

  const SEPARATORS: seq<Text> := [[0x0A, 0x0A], [0x0A], [0x2E, 0x20], [0x20]]

  /** No unit is read before the text: position -1 is not a surrogate. */
  function SafeEnd(s: Text, limit: nat): (end: nat)
    requires limit <= |s|
    ensures end <= limit <= end + 1
  {
    if limit > 0 && IsHigh(s[limit - 1]) then limit - 1 else limit
  }

  predicate InBackHalf(window: Text, at: int) {
    2 * at > |window|
  }

  function CutFrom(window: Text, i: nat): (cut: nat)
    requires i <= |SEPARATORS|
    ensures cut <= |window|
    decreases |SEPARATORS| - i
  {
    if i == |SEPARATORS| then |window|
    else
      var at := LastIndexOf(window, SEPARATORS[i]);
      if InBackHalf(window, at) then at + |SEPARATORS[i]| else CutFrom(window, i + 1)
  }

  function Window(rest: Text, limit: nat): Text
    requires limit <= |rest|
  {
    rest[..SafeEnd(rest, limit)]
  }

  function Cut(rest: Text, limit: nat): (cut: nat)
    requires limit <= |rest|
    ensures cut <= SafeEnd(rest, limit)
  {
    CutFrom(Window(rest, limit), 0)
  }

  function Next(rest: Text, limit: nat): (next: Text)
    requires limit <= |rest|
  {
    TrimStart(rest[Cut(rest, limit)..])
  }

  // ----- When the loop ends -----

  /** The rest after n rounds of the loop. */
  function Rest(text: Text, limit: nat, n: nat): Text {
    if n == 0 then text
    else
      var before := Rest(text, limit, n - 1);
      if |before| > limit then Next(before, limit) else before
  }

  ghost predicate Terminates(text: Text, limit: nat) {
    exists n: nat :: |Rest(text, limit, n)| <= limit
  }

  /** What a caller can check first. */
  ghost predicate Splittable(text: Text, limit: nat) {
    || limit >= 2
    || (limit == 1 && forall i :: 0 <= i < |text| - 1 ==> !IsHigh(text[i]))
    || (limit == 0 && AllSpace(text))
  }

  /** A cut is past the middle of its window. */
  lemma CutIsPastTheMiddle(window: Text, i: nat)
    requires i <= |SEPARATORS|
    ensures window != [] ==> 2 * CutFrom(window, i) > |window|
    decreases |SEPARATORS| - i
  {
    if i < |SEPARATORS| {
      CutIsPastTheMiddle(window, i + 1);
    }
  }

  lemma NextIsShorter(rest: Text, limit: nat)
    requires |rest| > limit && Splittable(rest, limit)
    ensures |Next(rest, limit)| < |rest|
    ensures Splittable(Next(rest, limit), limit)
  {
    CutIsPastTheMiddle(Window(rest, limit), 0);
    var tail := rest[Cut(rest, limit)..];
    if limit == 1 {
      assert !IsHigh(rest[0]);
      forall i | 0 <= i < |Next(rest, 1)| - 1
        ensures !IsHigh(Next(rest, 1)[i])
      {
        assert Next(rest, 1)[i] == rest[|rest| - |Next(rest, 1)| + i];
      }
    }
    if limit == 0 {
      assert IsSpace(rest[0]);
    }
  }

  lemma TrimKeepsUnits(s: Text, i: nat)
    requires i < |s| && !IsSpace(s[i])
    ensures var dropped := |s| - |TrimStart(s)|; dropped <= i && TrimStart(s)[i - dropped] == s[i]
  {
    var trimmed := s[..|s| - |TrimStart(s)|];
    assert forall j :: 0 <= j < |trimmed| ==> trimmed[j] == s[j];
  }

  /** A high surrogate that is not last is never trimmed away, and a limit of one never cuts past it. */
  lemma HighSurrogateStays(rest: Text, i: nat)
    requires i < |rest| - 1 && IsHigh(rest[i])
    ensures var next := Next(rest, 1);
            var dropped := |rest| - |next|;
            dropped <= i && next[i - dropped] == rest[i]
  {
    hide TrimStart, CutFrom;
    var cut := Cut(rest, 1);
    assert cut <= i;
    TrimKeepsUnits(rest[cut..], i - cut);
  }

  /** A round at a limit of zero only trims. */
  lemma VisibleUnitStays(rest: Text, i: nat)
    requires i < |rest| && !IsSpace(rest[i])
    ensures var next := Next(rest, 0);
            var dropped := |rest| - |next|;
            dropped <= i && next[i - dropped] == rest[i]
  {
    hide TrimStart, CutFrom;
    assert Cut(rest, 0) == 0;
    assert rest[0..] == rest;
    TrimKeepsUnits(rest, i);
  }

  /** A text the loop cannot finish stays one after every round. */
  lemma NotSplittableStays(rest: Text, limit: nat)
    requires !Splittable(rest, limit)
    ensures |rest| > limit && !Splittable(Next(rest, limit), limit)
  {
    hide Next;
    if limit == 0 {
      var i :| 0 <= i < |rest| && !IsSpace(rest[i]);
      VisibleUnitStays(rest, i);
    } else {
      var i :| 0 <= i < |rest| - 1 && IsHigh(rest[i]);
      HighSurrogateStays(rest, i);
    }
  }

  lemma {:induction false} ShortensToTheLimit(text: Text, limit: nat, n: nat)
    requires Splittable(text, limit)
    ensures Splittable(Rest(text, limit, n), limit)
    ensures |Rest(text, limit, n)| <= limit || |Rest(text, limit, n)| + n <= |text|
  {
    hide Splittable, Next;
    if n > 0 {
      ShortensToTheLimit(text, limit, n - 1);
      if |Rest(text, limit, n - 1)| > limit {
        NextIsShorter(Rest(text, limit, n - 1), limit);
      }
    }
  }

  lemma {:induction false} NeverShortens(text: Text, limit: nat, n: nat)
    requires !Splittable(text, limit)
    ensures !Splittable(Rest(text, limit, n), limit) && |Rest(text, limit, n)| > limit
  {
    hide Splittable, Next;
    if n > 0 {
      NeverShortens(text, limit, n - 1);
      NotSplittableStays(Rest(text, limit, n - 1), limit);
    }
    NotSplittableStays(Rest(text, limit, n), limit);
  }

  /** The loop ends on every text from a limit of two up; at one, exactly when no unit but the last is a
      high surrogate; at zero, exactly on white space. */
  lemma TerminatesExactly(text: Text, limit: nat)
    ensures Terminates(text, limit) <==> Splittable(text, limit)
  {
    if Splittable(text, limit) {
      ShortensToTheLimit(text, limit, |text| + 1);
      assert |Rest(text, limit, |text| + 1)| <= limit;
    } else if Terminates(text, limit) {
      var n: nat :| |Rest(text, limit, n)| <= limit;
      NeverShortens(text, limit, n);
      assert false;
    }
  }

  // ----- The chunks -----

  function Pushed(piece: Text): seq<Text> {
    var trimmed := TrimEnd(piece);
    if trimmed == [] then [] else [trimmed]
  }

  function Chunks(rest: Text, limit: nat): seq<Text>
    requires Splittable(rest, limit)
    decreases |rest|
  {
    if |rest| <= limit then Pushed(rest)
    else
      NextIsShorter(rest, limit);
      Pushed(rest[..Cut(rest, limit)]) + Chunks(Next(rest, limit), limit)
  }

  // ----- What the chunks are -----

  /** A text that fits is sent as it is, but for white space at its end. */
  lemma ShortTextIsOneChunk(text: Text, limit: nat)
    requires 0 < |text| <= limit
    ensures Splittable(text, limit)
    ensures !IsSpace(text[|text| - 1]) ==> Chunks(text, limit) == [text]
  {
    assert LastVisible(text, |text|) == |text| || IsSpace(text[|text| - 1]);
    assert text[..|text|] == text;
  }

  /** Every chunk has something to send and fits. */
  lemma {:induction false} ChunksFit(rest: Text, limit: nat)
    requires Splittable(rest, limit)
    ensures forall i :: 0 <= i < |Chunks(rest, limit)| ==> 0 < |Chunks(rest, limit)[i]| <= limit
    decreases |rest|
  {
    hide Splittable, Next;
    if |rest| > limit {
      NextIsShorter(rest, limit);
      ChunksFit(Next(rest, limit), limit);
    }
  }

  lemma SliceIsWellFormed(s: Text, from: nat, to: nat)
    requires WellFormed(s) && from <= to <= |s|
    requires from > 0 ==> !IsHigh(s[from - 1])
    requires to > 0 ==> !IsHigh(s[to - 1])
    ensures WellFormed(s[from..to])
  {
    var slice := s[from..to];
    forall i | 0 <= i < |slice|
      ensures IsHigh(slice[i]) ==> i + 1 < |slice| && IsLow(slice[i + 1])
      ensures IsLow(slice[i]) ==> i > 0 && IsHigh(slice[i - 1])
    {
      assert slice[i] == s[from + i];
    }
  }

  /** No window and no cut ends between the halves of a pair. */
  lemma CutKeepsPairs(rest: Text, limit: nat)
    requires WellFormed(rest) && limit <= |rest|
    ensures SafeEnd(rest, limit) > 0 ==> !IsHigh(rest[SafeEnd(rest, limit) - 1])
    ensures Cut(rest, limit) > 0 ==> !IsHigh(rest[Cut(rest, limit) - 1])
  {
    CutIsEndOrSeparator(Window(rest, limit), 0);
  }

  lemma SeparatorsEndPlainly(i: nat)
    requires i < |SEPARATORS|
    ensures var sep := SEPARATORS[i]; sep != [] && (sep[|sep| - 1] == 0x0A || sep[|sep| - 1] == 0x20)
  {}

  lemma FoundEndsPlainly(window: Text, sep: Text, at: int)
    requires At(window, sep, at) && sep != [] && (sep[|sep| - 1] == 0x0A || sep[|sep| - 1] == 0x20)
    ensures var cut := at + |sep|; 0 < cut <= |window| && (window[cut - 1] == 0x0A || window[cut - 1] == 0x20)
  {
    var found := window[at..at + |sep|];
    assert found[|sep| - 1] == window[at + |sep| - 1];
  }

  lemma CutIsEndOrSeparator(window: Text, i: nat)
    requires i <= |SEPARATORS|
    ensures var cut := CutFrom(window, i);
            cut == |window| || (cut > 0 && (window[cut - 1] == 0x0A || window[cut - 1] == 0x20))
    decreases |SEPARATORS| - i
  {
    hide At;
    if i < |SEPARATORS| {
      var sep := SEPARATORS[i];
      var at := LastIndexOf(window, sep);
      if InBackHalf(window, at) {
        SeparatorsEndPlainly(i);
        FoundEndsPlainly(window, sep, at);
      } else {
        CutIsEndOrSeparator(window, i + 1);
      }
    }
  }

  lemma NoPairAtSpace(s: Text, i: nat)
    requires WellFormed(s) && 0 < i <= |s| && (i == |s| || IsSpace(s[i]))
    ensures !IsHigh(s[i - 1])
  {}

  lemma TrimsAreWellFormed(s: Text)
    requires WellFormed(s)
    ensures WellFormed(TrimStart(s)) && WellFormed(TrimEnd(s))
  {
    hide WellFormed, TrimStart, TrimEnd;
    var from, to := |s| - |TrimStart(s)|, |TrimEnd(s)|;
    var before := s[..from];
    if from > 0 {
      assert IsSpace(before[from - 1]);
    }
    SliceIsWellFormed(s, from, |s|) by {
      LastIsNotHigh(s);
    }
    if to > 0 {
      if to < |s| {
        var after := s[to..];
        assert after[0] == s[to];
      }
      NoPairAtSpace(s, to);
    }
    SliceIsWellFormed(s, 0, to);
    assert s[0..to] == s[..to] && s[from..|s|] == s[from..];
  }

  lemma LastIsNotHigh(s: Text)
    requires WellFormed(s)
    ensures s != [] ==> !IsHigh(s[|s| - 1])
  {}

  /** Well-formed UTF-16 stays well-formed in every chunk. */
  lemma {:induction false} ChunksAreWellFormed(rest: Text, limit: nat)
    requires Splittable(rest, limit) && WellFormed(rest)
    ensures forall i :: 0 <= i < |Chunks(rest, limit)| ==> WellFormed(Chunks(rest, limit)[i])
    decreases |rest|
  {
    hide Splittable, WellFormed, Cut, Next, TrimEnd;
    if |rest| <= limit {
      TrimsAreWellFormed(rest);
    } else {
      NextIsShorter(rest, limit);
      PartsAreWellFormed(rest, limit);
      ChunksAreWellFormed(Next(rest, limit), limit);
    }
  }

  lemma PartsAreWellFormed(rest: Text, limit: nat)
    requires WellFormed(rest) && limit < |rest|
    ensures WellFormed(TrimEnd(rest[..Cut(rest, limit)])) && WellFormed(Next(rest, limit))
  {
    hide WellFormed, Cut, TrimStart, TrimEnd;
    var cut := Cut(rest, limit);
    CutKeepsPairs(rest, limit);
    LastIsNotHigh(rest);
    SliceIsWellFormed(rest, 0, cut);
    SliceIsWellFormed(rest, cut, |rest|);
    assert rest[0..cut] == rest[..cut] && rest[cut..|rest|] == rest[cut..];
    TrimsAreWellFormed(rest[..cut]);
    TrimsAreWellFormed(rest[cut..]);
  }

  /** The chunks lie in the text, in order and apart, and between them there is only white space. */
  ghost predicate Woven(text: Text, chunks: seq<Text>)
    decreases |chunks|
  {
    if chunks == [] then AllSpace(text)
    else exists at: nat :: WovenAt(text, chunks[0], at) && Woven(text[at + |chunks[0]|..], chunks[1..])
  }

  ghost predicate WovenAt(text: Text, chunk: Text, at: nat) {
    at + |chunk| <= |text| && AllSpace(text[..at]) && text[at..at + |chunk|] == chunk
  }

  lemma SpaceAndSpace(a: Text, b: Text)
    requires AllSpace(a) && AllSpace(b)
    ensures AllSpace(a + b)
  {}

  /** White space in front changes nothing. */
  lemma WovenAtMoves(space: Text, text: Text, chunk: Text, at: nat)
    requires AllSpace(space) && WovenAt(text, chunk, at)
    ensures WovenAt(space + text, chunk, |space| + at)
    ensures (space + text)[|space| + at + |chunk|..] == text[at + |chunk|..]
  {
    hide AllSpace;
    var whole, moved := space + text, |space| + at;
    assert whole[..moved] == space + text[..at];
    SpaceAndSpace(space, text[..at]);
    assert whole[moved..moved + |chunk|] == text[at..at + |chunk|];
  }

  lemma WovenAfterSpace(space: Text, text: Text, chunks: seq<Text>)
    requires AllSpace(space) && Woven(text, chunks)
    ensures Woven(space + text, chunks)
  {
    hide AllSpace;
    if chunks == [] {
      SpaceAndSpace(space, text);
    } else {
      var chunk := chunks[0];
      var at: nat :| WovenAt(text, chunk, at) && Woven(text[at + |chunk|..], chunks[1..]);
      WovenAtMoves(space, text, chunk, at);
    }
  }

  lemma WovenWithPiece(piece: Text, text: Text, chunks: seq<Text>)
    requires Woven(text, chunks)
    ensures Woven(piece + text, Pushed(piece) + chunks)
  {
    var chunk := TrimEnd(piece);
    var space := piece[|chunk|..];
    assert piece == chunk + space;
    WovenAfterSpace(space, text, chunks);
    SpaceAndSpace([], []);
    hide AllSpace, TrimEnd;
    if chunk == [] {
      assert Pushed(piece) + chunks == chunks && piece + text == space + text;
    } else {
      var whole, all := piece + text, [chunk] + chunks;
      assert all == Pushed(piece) + chunks && all[0] == chunk;
      assert whole[|chunk|..] == space + text && all[1..] == chunks;
      assert WovenAt(whole, chunk, 0);
      assert Woven(whole[0 + |chunk|..], all[1..]);
    }
  }

  lemma WovenNothing()
    ensures Woven([], [])
  {}

  lemma RoundIsWoven(rest: Text, limit: nat, chunks: seq<Text>)
    requires limit < |rest| && Woven(Next(rest, limit), chunks)
    ensures Woven(rest, Pushed(rest[..Cut(rest, limit)]) + chunks)
  {
    hide Woven, Cut, TrimStart, Pushed;
    var cut, next := Cut(rest, limit), Next(rest, limit);
    var tail := rest[cut..];
    var space := tail[..|tail| - |next|];
    assert tail == space + next;
    WovenAfterSpace(space, next, chunks);
    WovenWithPiece(rest[..cut], tail, chunks);
    assert rest == rest[..cut] + tail;
  }

  /** Nothing but white space is lost, and nothing is reordered or repeated. */
  lemma {:induction false} ChunksAreWoven(rest: Text, limit: nat)
    requires Splittable(rest, limit)
    ensures Woven(rest, Chunks(rest, limit))
    decreases |rest|
  {
    hide Splittable, Woven, Cut, Next, Pushed;
    if |rest| <= limit {
      WovenNothing();
      WovenWithPiece(rest, [], []);
      assert rest + [] == rest && Pushed(rest) + [] == Pushed(rest);
    } else {
      NextIsShorter(rest, limit);
      ChunksAreWoven(Next(rest, limit), limit);
      RoundIsWoven(rest, limit, Chunks(Next(rest, limit), limit));
    }
  }

  /** At least half the limit goes with every round. */
  lemma RoundTakesHalfTheLimit(rest: Text, limit: nat)
    requires limit >= 2 && |rest| > limit
    ensures 2 * (|rest| - |Next(rest, limit)|) >= limit
  {
    CutIsPastTheMiddle(Window(rest, limit), 0);
    LongCut(Window(rest, limit), 0);
  }

  lemma LongCut(window: Text, i: nat)
    requires i <= |SEPARATORS|
    ensures window != [] ==> CutFrom(window, i) == |window| || 2 * CutFrom(window, i) >= |window| + 2
    decreases |SEPARATORS| - i
  {
    if i < |SEPARATORS| {
      LongCut(window, i + 1);
    }
  }

  /** The number of messages is bounded by the text: all chunks but one account for half a limit each. */
  lemma {:induction false} FewChunks(rest: Text, limit: nat)
    requires limit >= 2
    ensures (|Chunks(rest, limit)| - 1) * limit <= 2 * |rest|
    decreases |rest|
  {
    hide Next, Cut, TrimEnd;
    var n := |Chunks(rest, limit)|;
    if |rest| <= limit {
      AtMostOneChunk(n, limit);
    } else {
      NextIsShorter(rest, limit);
      var next := Next(rest, limit);
      FewChunks(next, limit);
      RoundTakesHalfTheLimit(rest, limit);
      MoreChunks(n, |Chunks(next, limit)|, limit, |rest|, |next|);
    }
  }

  lemma AtMostOneChunk(n: nat, limit: nat)
    requires n <= 1
    ensures (n - 1) * limit <= 0
  {}

  lemma MoreChunks(n: nat, m: nat, limit: nat, rest: nat, next: nat)
    requires n <= m + 1 && (m - 1) * limit <= 2 * next && 2 * (rest - next) >= limit
    ensures (n - 1) * limit <= 2 * rest
  {
    assert m * limit == (m - 1) * limit + limit;
    assert (m - (n - 1)) * limit >= 0;
    assert (m - (n - 1)) * limit == m * limit - (n - 1) * limit;
  }

  /** `last` is the last place of separator k, and no separator from i up to k is in the back half. */
  ghost predicate Preferred(window: Text, i: nat, k: nat, last: int)
    requires k < |SEPARATORS|
  {
    && i <= k && At(window, SEPARATORS[k], last) && InBackHalf(window, last)
    && (forall later :: last < later ==> !At(window, SEPARATORS[k], later))
    && (forall l :: i <= l < k ==> NotInBackHalf(window, SEPARATORS[l]))
  }

  ghost predicate NotInBackHalf(window: Text, sep: Text) {
    forall at :: InBackHalf(window, at) ==> !At(window, sep, at)
  }

  /** A window is cut behind the most preferred separator its back half holds, at its last place; one whose
      back half holds none is cut at its end. */
  lemma CutPrefersParagraphs(window: Text, i: nat) returns (k: nat, last: int)
    requires i <= |SEPARATORS|
    ensures k < |SEPARATORS| ==> Preferred(window, i, k, last) && CutFrom(window, i) == last + |SEPARATORS[k]|
    ensures k >= |SEPARATORS| ==> CutFrom(window, i) == |window| && forall l :: i <= l < |SEPARATORS| ==>
              NotInBackHalf(window, SEPARATORS[l])
    decreases |SEPARATORS| - i
  {
    if i == |SEPARATORS| {
      return i, 0;
    }
    k, last := i, LastIndexOf(window, SEPARATORS[i]);
    if !InBackHalf(window, last) {
      assert NotInBackHalf(window, SEPARATORS[i]);
      k, last := CutPrefersParagraphs(window, i + 1);
    }
  }

  // ----- Truncating -----

  function TruncateUnits(text: Text, limit: nat): (r: Text)
    ensures |r| <= limit && |r| <= |text| && r == text[..|r|]
    ensures |text| > limit ==> |r| >= limit - 1
    ensures |text| <= limit ==> r == text
  {
    if |text| <= limit then text else text[..SafeEnd(text, limit)]
  }

  lemma TruncationIsWellFormed(text: Text, limit: nat)
    requires WellFormed(text)
    ensures WellFormed(TruncateUnits(text, limit))
  {
    if |text| > limit {
      CutKeepsPairs(text, limit);
      SliceIsWellFormed(text, 0, SafeEnd(text, limit));
    } else {
      assert text[..|text|] == text;
    }
  }

  /** What a caller may rely on. */
  ghost predicate ChunksFrom(text: Text, limit: nat, chunks: seq<Text>) {
    && (forall i :: 0 <= i < |chunks| ==> 0 < |chunks[i]| <= limit)
    && Woven(text, chunks)
    && (WellFormed(text) ==> forall i :: 0 <= i < |chunks| ==> WellFormed(chunks[i]))
    && (limit >= 2 ==> (|chunks| - 1) * limit <= 2 * |text|)
  }

  lemma ChunksAreGood(text: Text, limit: nat)
    requires Splittable(text, limit)
    ensures ChunksFrom(text, limit, Chunks(text, limit))
  {
    hide Splittable, WellFormed, Woven, Chunks;
    ChunksFit(text, limit);
    ChunksAreWoven(text, limit);
    if WellFormed(text) {
      ChunksAreWellFormed(text, limit);
    }
    if limit >= 2 {
      FewChunks(text, limit);
    }
  }

  // ----- The loops -----

  lemma ChunksOfRound(rest: Text, limit: nat)
    requires |rest| > limit && Splittable(rest, limit)
    ensures Splittable(Next(rest, limit), limit)
    ensures Chunks(rest, limit) == Pushed(rest[..Cut(rest, limit)]) + Chunks(Next(rest, limit), limit)
  {
    NextIsShorter(rest, limit);
  }

  lemma ChunksOfRest(rest: Text, limit: nat)
    requires |rest| <= limit && Splittable(rest, limit)
    ensures Chunks(rest, limit) == Pushed(rest)
  {}

  method BestCut(window: Text) returns (cut: nat)
    ensures cut == CutFrom(window, 0)
  {
    var i := 0;
    while i < |SEPARATORS|
      invariant 0 <= i <= |SEPARATORS|
      invariant CutFrom(window, 0) == CutFrom(window, i)
    {
      var at := LastIndexOf(window, SEPARATORS[i]);
      if InBackHalf(window, at) {
        return at + |SEPARATORS[i]|;
      }
      i := i + 1;
    }
    return |window|;
  }

  method ChunkText(text: Text, limit: nat) returns (chunks: seq<Text>)
    requires Splittable(text, limit)
    ensures chunks == Chunks(text, limit)
    ensures ChunksFrom(text, limit, chunks)
  {
    hide Splittable, CutFrom, SafeEnd, TrimStart, TrimEnd, Pushed, ChunksFrom, Chunks;
    chunks := [];
    var rest := text;
    while |rest| > limit
      invariant Splittable(rest, limit)
      invariant Chunks(text, limit) == chunks + Chunks(rest, limit)
      decreases |rest|
    {
      NextIsShorter(rest, limit);
      ChunksOfRound(rest, limit);
      assert chunks + (Pushed(rest[..Cut(rest, limit)]) + Chunks(Next(rest, limit), limit)) ==
               chunks + Pushed(rest[..Cut(rest, limit)]) + Chunks(Next(rest, limit), limit);
      var window := rest[..SafeEnd(rest, limit)];
      var cut := BestCut(window);
      assert window[..cut] == rest[..cut];
      chunks := Push(chunks, window[..cut]);
      rest := TrimStart(rest[cut..]);
    }
    ChunksOfRest(rest, limit);
    chunks := Push(chunks, rest);
    ChunksAreGood(text, limit);
  }

  // The step that skips a piece which Pushed leaves out: ChunksAreWoven needs no chunk for it.
  method Push(chunks: seq<Text>, piece: Text) returns (more: seq<Text>)
    ensures more == chunks + Pushed(piece)
  {
    var trimmed := TrimEnd(piece);
    more := if trimmed != [] then chunks + [trimmed] else chunks;
  }
}
