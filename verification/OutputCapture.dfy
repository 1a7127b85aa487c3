/** The bounded capture of one output stream of a spawned command: it keeps the beginning and the end of the
    stream around a marker whose own length depends on the number it prints. Mirrors `appendCapturedOutput`,
    `appendTail`, `renderCapturedOutput` and `buildTruncationMarker` of src/jobs/omx-exec.service.ts, on
    sequences of UTF-16 code units. */
module OutputCapture {
  import Decimal
  import opened Ascii
  import opened Sequences

  // ----- the marker -----

  function Opening(): (text: Text)
    ensures |text| == 15
  {
    Codes("\n...[truncated ")
  }

  function Closing(): (text: Text)
    ensures |text| == 11
  {
    Codes(" chars]...\n")
  }

  function Marker(omitted: nat): (text: Text) {
    Opening() + Codes(Decimal.Print(omitted)) + Closing()
  }

  function MarkerLength(omitted: nat): nat {
    26 + Decimal.Length(omitted)
  }

  lemma MarkerSize(omitted: nat)
    ensures |Marker(omitted)| == MarkerLength(omitted)
  {
  }

  /** The marker says in decimal notation how many characters are left out. */
  lemma MarkerSays(omitted: nat)
    ensures exists digits: string ::
              && (forall i :: 0 <= i < |digits| ==> '0' <= digits[i] <= '9') && Decimal.Parse(digits) == omitted
              && Marker(omitted) == Codes("\n...[truncated ") + Codes(digits) + Codes(" chars]...\n")
  {
    Decimal.ParsePrint(omitted);
    var digits := Decimal.Print(omitted);
    assert Marker(omitted) == Codes("\n...[truncated ") + Codes(digits) + Codes(" chars]...\n");
  }

  /** How many characters must go when the marker prints `omitted`. */
  function Needed(total: nat, limit: nat, omitted: nat): nat {
    if total + MarkerLength(omitted) <= limit then 0 else total + MarkerLength(omitted) - limit
  }

  lemma NeededMonotone(total: nat, limit: nat, a: nat, b: nat)
    requires a <= b
    ensures Needed(total, limit, a) <= Needed(total, limit, b)
  {
    Decimal.LengthMonotone(a, b);
  }

  function Settle(total: nat, limit: nat, omitted: nat): (r: nat)
    requires limit > 0
    requires omitted <= Needed(total, limit, omitted) && omitted <= 2 * total + 80
    ensures Needed(total, limit, r) == r
    ensures forall q :: Needed(total, limit, q) <= q && omitted <= q ==> r <= q
    decreases 2 * total + 80 - omitted
  {
    var next := Needed(total, limit, omitted);
    if next == omitted then omitted
    else
      NeededMonotone(total, limit, omitted, next);
      assert forall q :: Needed(total, limit, q) <= q && omitted <= q ==> next <= q by {
        forall q | Needed(total, limit, q) <= q && omitted <= q ensures next <= q {
          NeededMonotone(total, limit, omitted, q);
        }
      }
      Settle(total, limit, next)
  }

  function Excess(total: nat, limit: nat): nat {
    if total <= limit then 0 else total - limit
  }

  /** The number that the marker of a stream of `total` characters prints: the least count that is enough
      for the marker that prints it. */
  function Omitted(total: nat, limit: nat): (r: nat)
    requires limit > 0
    ensures Needed(total, limit, r) == r
    ensures forall q :: Needed(total, limit, q) <= q ==> r <= q
  {
    Settle(total, limit, Excess(total, limit))
  }

  /** The loop of `buildTruncationMarker`. It ends for every total and every positive limit. */
  method BuildTruncationMarker(total: nat, limit: nat) returns (marker: Text)
    requires limit > 0
    ensures marker == Marker(Omitted(total, limit))
  {
    var omitted := Excess(total, limit);
    while true
      invariant omitted <= Needed(total, limit, omitted) && omitted <= 2 * total + 80
      invariant Settle(total, limit, omitted) == Omitted(total, limit)
      decreases 2 * total + 80 - omitted
    {
      marker := Marker(omitted);
      MarkerSize(omitted);
      var markerAwareOmitted := if total + |marker| <= limit then 0 else total - (limit - |marker|);
      if markerAwareOmitted == omitted {
        return;
      }
      NeededMonotone(total, limit, omitted, markerAwareOmitted);
      omitted := markerAwareOmitted;
    }
  }

  /** Two counts can both describe themselves, but only neighbours at a digit boundary; the loop takes the lower. */
  lemma SelfConsistentCounts(total: nat, limit: nat, q: nat)
    requires limit > 0 && Needed(total, limit, q) == q
    ensures q == Omitted(total, limit) || q == Omitted(total, limit) + 1
    ensures q > Omitted(total, limit) ==> Decimal.Length(q) == Decimal.Length(q - 1) + 1
  {
    var r := Omitted(total, limit);
    if q > r {
      LengthGap(r, q);
    }
  }

  // A gap between numbers is at least the gap between their lengths, and equal only across one boundary.
  lemma {:induction false} LengthGap(a: nat, b: nat)
    requires a < b
    ensures Decimal.Length(a) <= Decimal.Length(b)
    ensures Decimal.Length(b) - Decimal.Length(a) >= b - a ==> b == a + 1
  {
    Decimal.LengthMonotone(a, b);
    if b > a + 1 {
      Decimal.LengthMonotone(b, b + 1);
      Decimal.LengthAlmostConstant(b - 1);
      if b == a + 2 {
        Decimal.LengthAlmostConstant(a);
      } else {
        LengthGap(a, b - 1);
      }
    }
  }

  lemma TwoCountsExample()
    ensures Needed(171, 100, 99) == 99 && Needed(171, 100, 100) == 100
    ensures Omitted(171, 100) == 99
  {
    assert Decimal.Length(99) == 2;
    assert Decimal.Length(100) == 3;
    assert Needed(171, 100, 98) == 99;
    var r := Omitted(171, 100);
    assert r == 97 + Decimal.Length(r) && r != 98;
  }

  /** The length of the marker that a stream of `total` characters gets. */
  function MarkerSpan(total: nat, limit: nat): nat
    requires limit > 0
  {
    MarkerLength(Omitted(total, limit))
  }

  /** A longer stream never gets a shorter marker, and one more character at most one more digit. */
  lemma MarkerSpanMonotone(shorter: nat, longer: nat, limit: nat)
    requires limit > 0 && shorter <= longer
    ensures Omitted(shorter, limit) <= Omitted(longer, limit)
    ensures MarkerSpan(shorter, limit) <= MarkerSpan(longer, limit)
    ensures longer == shorter + 1 ==> MarkerSpan(longer, limit) <= MarkerSpan(shorter, limit) + 1
  {
    var r, r' := Omitted(shorter, limit), Omitted(longer, limit);
    assert Needed(shorter, limit, r') <= r';
    Decimal.LengthMonotone(r, r');
    if longer == shorter + 1 {
      Decimal.LengthAlmostConstant(r);
      assert Needed(longer, limit, r + 2) <= r + 2;
      Decimal.LengthMonotone(r', r + 2);
    }
  }

  // ----- capture and rendering -----

  datatype Captured = Captured(head: Text, tail: Text, length: nat, truncated: bool)

  const EMPTY := Captured([], [], 0, false)

  /** `s.slice(0, n)`. */
  function Slice(s: Text, n: nat): Text {
    if |s| <= n then s else s[..n]
  }

  // The share of the budget that the head gets, and the share of the tail.
  function HeadRoom(budget: nat): nat { (budget + 1) / 2 }

  function TailRoom(budget: nat): nat { budget / 2 }

  function AppendTail(current: Captured, chunk: Text, tailLength: nat): Text {
    LastN((if current.truncated then current.tail else current.head) + chunk, tailLength)
  }

  /** The characters of the stream that fit next to the marker, or 0 when the marker leaves no room. */
  function Budget(total: nat, limit: int): (room: nat)
    ensures room == 0 || room < limit
  {
    if limit <= 0 || MarkerSpan(total, limit) >= limit then 0 else limit - MarkerSpan(total, limit)
  }

  lemma BudgetShrinks(shorter: nat, longer: nat, limit: int)
    requires shorter <= longer
    ensures Budget(longer, limit) <= Budget(shorter, limit)
    ensures longer == shorter + 1 ==> Budget(shorter, limit) <= Budget(longer, limit) + 1
  {
    if limit > 0 {
      MarkerSpanMonotone(shorter, longer, limit);
    }
  }

  // A chunk that takes the stream over the limit, or comes after it.
  function AppendBeyond(current: Captured, chunk: Text, limit: nat, budget: nat): Captured {
    var nextLength := current.length + |chunk|;
    if budget == 0 then Captured([], AppendTail(current, chunk, limit), nextLength, true)
    else
      var source := if current.truncated then current.head else current.head + chunk;
      Captured(Slice(source, HeadRoom(budget)), AppendTail(current, chunk, TailRoom(budget)), nextLength, true)
  }

  function Append(current: Captured, chunk: Text, limit: int): Captured {
    var nextLength := current.length + |chunk|;
    if chunk == [] then current
    else if limit <= 0 then Captured([], [], nextLength, true)
    else if !current.truncated && nextLength <= limit then Captured(current.head + chunk, [], nextLength, false)
    else AppendBeyond(current, chunk, limit, Budget(nextLength, limit))
  }

  function AppendAll(chunks: seq<Text>, limit: int): Captured {
    if chunks == [] then EMPTY
    else Append(AppendAll(chunks[..|chunks| - 1], limit), chunks[|chunks| - 1], limit)
  }

  function Render(capture: Captured, limit: int): Text {
    if !capture.truncated then capture.head
    else if limit <= 0 then []
    else
      var omitted := Omitted(capture.length, limit);
      if MarkerLength(omitted) >= limit then LastN(capture.tail, limit)
      else capture.head + Marker(omitted) + capture.tail
  }

  predicate LastFit(fit: nat, total: nat, tailLength: nat, limit: int) {
    && limit < fit < total && Budget(fit, limit) > 0
    && tailLength == TailRoom(Budget(fit, limit)) + total - fit
  }

  /** How long the tail of a truncated capture is. Only where the marker leaves no room does it depend on the
      chunks: it may then have been cut when the marker last did leave room, and have grown since. */
  ghost predicate TailLength(total: nat, tailLength: nat, limit: int) {
    if Budget(total, limit) > 0 then tailLength == TailRoom(Budget(total, limit))
    else tailLength == limit || (tailLength < limit && exists fit :: LastFit(fit, total, tailLength, limit))
  }

  /** A capture that keeps `HeadRoom(budget)` characters of the beginning and `tailLength` of the end. */
  function Cut(stream: Text, budget: nat, tailLength: nat): Captured {
    Captured(Slice(stream, HeadRoom(budget)), LastN(stream, tailLength), |stream|, true)
  }

  /** What a capture holds of the stream seen so far. */
  ghost predicate Holds(capture: Captured, stream: Text, limit: int) {
    if stream == [] || |stream| <= limit then capture == Captured(stream, [], |stream|, false)
    else if limit <= 0 then capture == Captured([], [], |stream|, true)
    else
      && capture == Cut(stream, Budget(|stream|, limit), |capture.tail|)
      && TailLength(|stream|, |capture.tail|, limit)
  }

  // A suffix that grows with the stream, and a prefix that shrinks.
  lemma SuffixGrows(stream: Text, tailLength: nat, chunk: Text, n: nat)
    requires tailLength <= |stream|
    ensures LastN(LastN(stream, tailLength) + chunk, n) == LastN(stream + chunk, Min(n, tailLength + |chunk|))
  {
    assert LastN(stream, tailLength) + chunk == (stream + chunk)[|stream| - tailLength..];
  }

  lemma PrefixShrinks(stream: Text, chunk: Text, longer: nat, shorter: nat)
    requires shorter <= longer <= |stream|
    ensures Slice(Slice(stream, longer), shorter) == Slice(stream + chunk, shorter)
  {
  }

  lemma AppendBeyondCut(stream: Text, chunk: Text, limit: nat, before: nat, budget: nat, tailLength: nat)
    requires budget <= before <= |stream| && tailLength <= |stream| && HeadRoom(before) <= |stream|
    requires budget > 0 ==> tailLength == TailRoom(before)
    ensures AppendBeyond(Cut(stream, before, tailLength), chunk, limit, budget)
         == Cut(stream + chunk, budget, if budget > 0 then TailRoom(budget) else Min(limit, tailLength + |chunk|))
  {
    PrefixShrinks(stream, chunk, HeadRoom(before), HeadRoom(budget));
    SuffixGrows(stream, tailLength, chunk, if budget > 0 then TailRoom(budget) else limit);
  }

  lemma AppendBeyondWhole(stream: Text, chunk: Text, limit: nat, budget: nat)
    ensures AppendBeyond(Captured(stream, [], |stream|, false), chunk, limit, budget)
         == Cut(stream + chunk, budget, if budget > 0 then TailRoom(budget) else limit)
  {
  }

  lemma TailLengthGrows(total: nat, added: nat, tailLength: nat, limit: int)
    requires TailLength(total, tailLength, limit) && total > limit > 0 && added > 0
    ensures var budget := Budget(total + added, limit);
            TailLength(total + added, if budget > 0 then TailRoom(budget) else Min(limit, tailLength + added), limit)
  {
    if Budget(total + added, limit) == 0 && tailLength + added < limit {
      if Budget(total, limit) > 0 {
        assert LastFit(total, total + added, tailLength + added, limit);
      } else {
        var fit :| LastFit(fit, total, tailLength, limit);
        assert LastFit(fit, total + added, tailLength + added, limit);
      }
    }
  }

  lemma CutHolds(stream: Text, tailLength: nat, limit: int)
    requires |stream| > limit > 0 && TailLength(|stream|, tailLength, limit)
    ensures Holds(Cut(stream, Budget(|stream|, limit), tailLength), stream, limit)
  {
    assert |LastN(stream, tailLength)| == tailLength;
  }

  lemma BeyondCutHolds(stream: Text, chunk: Text, tailLength: nat, limit: nat, before: nat, budget: nat)
    requires |stream| > limit > 0 && chunk != [] && TailLength(|stream|, tailLength, limit)
    requires before == Budget(|stream|, limit) && budget == Budget(|stream| + |chunk|, limit)
    ensures Holds(AppendBeyond(Cut(stream, before, tailLength), chunk, limit, budget), stream + chunk, limit)
  {
    hide Budget;
    var next := if budget > 0 then TailRoom(budget) else Min(limit, tailLength + |chunk|);
    assert TailLength(|stream| + |chunk|, next, limit) by {
      TailLengthGrows(|stream|, |chunk|, tailLength, limit);
    }
    assert AppendBeyond(Cut(stream, before, tailLength), chunk, limit, budget) == Cut(stream + chunk, budget, next) by {
      BudgetShrinks(|stream|, |stream| + |chunk|, limit);
      AppendBeyondCut(stream, chunk, limit, before, budget, tailLength);
    }
    CutHolds(stream + chunk, next, limit);
  }

  lemma BeyondWholeHolds(stream: Text, chunk: Text, limit: nat, budget: nat)
    requires |stream| <= limit < |stream| + |chunk| && limit > 0
    requires budget == Budget(|stream| + |chunk|, limit)
    ensures Holds(AppendBeyond(Captured(stream, [], |stream|, false), chunk, limit, budget), stream + chunk, limit)
  {
    AppendBeyondWhole(stream, chunk, limit, budget);
    CutHolds(stream + chunk, if budget > 0 then TailRoom(budget) else limit, limit);
  }

  lemma AppendWithin(current: Captured, stream: Text, chunk: Text, limit: int)
    requires Holds(current, stream, limit) && chunk != [] && (limit <= 0 || |stream| + |chunk| <= limit)
    ensures Holds(Append(current, chunk, limit), stream + chunk, limit)
  {
  }

  lemma AppendOver(current: Captured, stream: Text, chunk: Text, limit: nat, budget: nat)
    requires Holds(current, stream, limit) && chunk != [] && |stream| + |chunk| > limit > 0
    requires budget == Budget(|stream| + |chunk|, limit)
    ensures Append(current, chunk, limit) == AppendBeyond(current, chunk, limit, budget)
  {
    hide Budget;
  }

  lemma AppendHolds(current: Captured, stream: Text, chunk: Text, limit: int)
    requires Holds(current, stream, limit)
    ensures Holds(Append(current, chunk, limit), stream + chunk, limit)
  {
    if chunk == [] {
      assert stream + chunk == stream;
    } else if limit <= 0 || |stream| + |chunk| <= limit {
      AppendWithin(current, stream, chunk, limit);
    } else {
      var budget := Budget(|stream| + |chunk|, limit);
      AppendOver(current, stream, chunk, limit, budget);
      if current.truncated {
        BeyondCutHolds(stream, chunk, |current.tail|, limit, Budget(|stream|, limit), budget);
      } else {
        BeyondWholeHolds(stream, chunk, limit, budget);
      }
    }
  }

  lemma {:induction false} AppendAllHolds(chunks: seq<Text>, limit: int)
    ensures Holds(AppendAll(chunks, limit), Flatten(chunks), limit)
  {
    if chunks != [] {
      AppendAllHolds(chunks[..|chunks| - 1], limit);
      AppendHolds(AppendAll(chunks[..|chunks| - 1], limit), Flatten(chunks[..|chunks| - 1]), chunks[|chunks| - 1], limit);
    }
  }

  // ----- the whole stream -----

  /** The output that a stream should get, whatever its chunks: everything that fits; or the beginning and the
      end around the marker; or, where the marker leaves no room, the end. */
  function Expected(stream: Text, limit: int): Text {
    var budget := Budget(|stream|, limit);
    if |stream| <= limit then stream
    else if limit <= 0 then []
    else if budget == 0 then LastN(stream, limit)
    else stream[..HeadRoom(budget)] + Marker(Omitted(|stream|, limit)) + stream[|stream| - TailRoom(budget)..]
  }

  /** `output` is `stream` with `omitted` characters after the first `front` ones replaced by a marker that says so. */
  predicate Abridged(output: Text, stream: Text, front: nat, omitted: nat) {
    && front + omitted <= |stream|
    && output == stream[..front] + Marker(omitted) + stream[front + omitted..]
  }

  // What the budget leaves out is what the marker prints, and both together fill the limit.
  lemma BudgetAddsUp(total: nat, limit: int)
    requires total > limit && Budget(total, limit) > 0
    ensures Budget(total, limit) + Omitted(total, limit) == total
    ensures Budget(total, limit) + |Marker(Omitted(total, limit))| == limit
  {
    MarkerSize(Omitted(total, limit));
  }

  /** The output is as long as the limit allows. Around a marker it is what the marker says: so many characters
      left out, with as many in front as behind or one more. */
  lemma ExpectedSize(stream: Text, limit: int)
    ensures limit >= 0 ==> |Expected(stream, limit)| == Min(|stream|, limit)
    ensures |stream| > limit && Budget(|stream|, limit) > 0 ==>
              exists front: nat, omitted: nat ::
                && Abridged(Expected(stream, limit), stream, front, omitted)
                && 0 <= 2 * front + omitted - |stream| <= 1
  {
    hide Budget, Omitted, Marker;
    if |stream| > limit && Budget(|stream|, limit) > 0 {
      BudgetAddsUp(|stream|, limit);
      var omitted := Omitted(|stream|, limit);
      var front := HeadRoom(Budget(|stream|, limit));
      assert Abridged(Expected(stream, limit), stream, front, omitted);
    }
  }

  /** Where the marker leaves room or nothing is left out, the output depends on the stream alone. Otherwise it is
      an end of the stream, of at most `limit` characters. */
  lemma Rendered(chunks: seq<Text>, limit: int)
    ensures var stream, output := Flatten(chunks), Render(AppendAll(chunks, limit), limit);
            if |stream| <= limit || limit <= 0 || Budget(|stream|, limit) > 0 then output == Expected(stream, limit)
            else output == LastN(stream, |output|) && TailLength(|stream|, |output|, limit)
  {
    AppendAllHolds(chunks, limit);
  }

  /** The chunks matter for streams of this length: the marker has just lost its room, and it still had room
      when the stream was over the limit but the tail would not fill up again since. */
  predicate ChunksMatter(total: nat, limit: int) {
    total > limit > 0 && Budget(total, limit) == 0 && Budget(Max(limit + 1, total - limit + 1), limit) > 0
  }

  // The last moment when the marker had room left room for the marker alone and one character in front.
  lemma LastMomentWithRoom(early: nat, total: nat, limit: int) returns (fit: nat)
    requires early <= total && Budget(early, limit) > 0 && Budget(total, limit) == 0
    ensures early <= fit < total && Budget(fit, limit) == 1 && TailRoom(Budget(fit, limit)) == 0
    decreases total - early
  {
    BudgetShrinks(early, early + 1, limit);
    if Budget(early + 1, limit) == 0 {
      fit := early;
    } else {
      fit := LastMomentWithRoom(early + 1, total, limit);
    }
  }

  lemma AppendPair(first: Text, second: Text, limit: int)
    ensures AppendAll([first, second], limit) == Append(Append(EMPTY, first, limit), second, limit)
    ensures Flatten([first, second]) == first + second
  {
    var chunks: seq<Text> := [first, second];
    assert chunks[..1] == [first] && chunks[..1][..0] == [];
    assert AppendAll(chunks[..1], limit) == Append(EMPTY, first, limit);
    assert Flatten(chunks[..1]) == [] + first == first;
  }

  lemma RenderedTail(capture: Captured, limit: int)
    requires capture.truncated && limit > 0 && Budget(capture.length, limit) == 0
    ensures Render(capture, limit) == LastN(capture.tail, limit)
  {
  }

  // A capture cut at the last moment with room keeps none of the end, and grows too short a tail afterwards.
  lemma ShortTail(first: Text, second: Text, limit: nat)
    requires |second| < limit < |first| && second != []
    requires Budget(|first|, limit) == 1 && Budget(|first| + |second|, limit) == 0
    ensures |Render(AppendAll([first, second], limit), limit)| == |second|
  {
    hide Budget, Render;
    AppendPair(first, second, limit);
    AppendOver(EMPTY, [], first, limit, 1);
    var cut := Append(EMPTY, first, limit);
    assert cut.tail == [] && cut.truncated && cut.length == |first|;
    var capture := Append(cut, second, limit);
    assert capture == AppendBeyond(cut, second, limit, 0);
    assert capture.tail == second && capture.truncated;
    RenderedTail(capture, limit);
  }

  // In the band, splitting the stream at the right place shortens the output.
  lemma ChunksMatterThere(stream: Text, limit: int) returns (chunks: seq<Text>)
    requires ChunksMatter(|stream|, limit)
    ensures Flatten(chunks) == stream && Render(AppendAll(chunks, limit), limit) != Expected(stream, limit)
  {
    hide Budget;
    var fit := LastMomentWithRoom(Max(limit + 1, |stream| - limit + 1), |stream|, limit);
    chunks := [stream[..fit], stream[fit..]];
    AppendPair(stream[..fit], stream[fit..], limit);
    ShortTail(stream[..fit], stream[fit..], limit);
    ExpectedSize(stream, limit);
  }

  // Outside it they make no difference.
  lemma ChunksMatterOnlyThere(chunks: seq<Text>, limit: int)
    requires !ChunksMatter(|Flatten(chunks)|, limit)
    ensures Render(AppendAll(chunks, limit), limit) == Expected(Flatten(chunks), limit)
  {
    hide Budget;
    Rendered(chunks, limit);
    var total := |Flatten(chunks)|;
    if total > limit > 0 && Budget(total, limit) == 0 {
      forall fit | LastFit(fit, total, |Render(AppendAll(chunks, limit), limit)|, limit)
        ensures total - fit >= limit
      {
        if total - fit < limit {
          BudgetShrinks(Max(limit + 1, total - limit + 1), fit, limit);
        }
      }
    }
  }

  /** The output of a stream depends on its chunks exactly in that narrow band of lengths. */
  lemma ChunkingMatters(stream: Text, limit: int)
    ensures ChunksMatter(|stream|, limit) <==>
            exists chunks: seq<Text> :: Flatten(chunks) == stream && Render(AppendAll(chunks, limit), limit) != Expected(stream, limit)
  {
    if ChunksMatter(|stream|, limit) {
      var chunks := ChunksMatterThere(stream, limit);
    } else {
      forall chunks: seq<Text> | Flatten(chunks) == stream
        ensures Render(AppendAll(chunks, limit), limit) == Expected(stream, limit)
      {
        ChunksMatterOnlyThere(chunks, limit);
      }
    }
  }

  lemma HundredAndOne()
    ensures Decimal.Length(99) == 2 && Decimal.Length(101) == 3
    ensures Budget(100, 29) == 1 && Budget(101, 29) == 0
  {
    assert Decimal.Length(9) == 1 && Decimal.Length(10) == 2;
    var fits, full := Omitted(100, 29), Omitted(101, 29);
    assert Needed(100, 29, 99) == 99;
    assert fits == 97 + Decimal.Length(fits) && full == 98 + Decimal.Length(full);
  }

  /** The band is not empty: for a limit of 29, the output of 101 characters is their last 29 when they arrive at once,
      but only the very last one when that one arrives by itself. */
  lemma ChunkingMattersExample(stream: Text)
    requires |stream| == 101
    ensures ChunksMatter(101, 29)
    ensures |Render(AppendAll([stream], 29), 29)| == 29
    ensures |Render(AppendAll([stream[..100], stream[100..]], 29), 29)| == 1
  {
    hide Budget, Render, AppendAll, AppendBeyond;
    HundredAndOne();
    BudgetShrinks(73, 100, 29);
    WholeTail(stream, 29);
    ShortTail(stream[..100], stream[100..], 29);
  }

  lemma WholeTail(stream: Text, limit: nat)
    requires |stream| > limit > 0 && Budget(|stream|, limit) == 0
    ensures |Render(AppendAll([stream], limit), limit)| == limit
  {
    hide Budget, Render;
    var chunks := [stream];
    assert chunks[..|chunks| - 1] == [];
    assert AppendAll(chunks, limit) == Append(EMPTY, stream, limit);
    AppendOver(EMPTY, [], stream, limit, 0);
    RenderedTail(AppendAll([stream], limit), limit);
  }
}
