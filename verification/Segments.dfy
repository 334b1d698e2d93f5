/** The spans of candles fetched for a position: whole days as day bars, the ragged ends as minute bars. */
module Segments {
  import opened Protocol

  datatype Segment = MinuteBars(start: int, end: int) | DayBars(start: int, end: int)
  {
    predicate Covers(at: int) { start <= at <= end }
  }

  const MIN_SPAN_FOR_DAILY: int := 2 * DAY
  const TICK: int := 1

  function Midnight(at: int): int { at - at % DAY }

  function FirstDay(start: int): int { if Midnight(start) == start then start else Midnight(start) + DAY }

  predicate Whole(start: int, end: int) { end <= start || end - start < MIN_SPAN_FOR_DAILY }

  function Cut(start: int, firstDay: int, lastDay: int, end: int): seq<Segment> {
    (if start < firstDay then [MinuteBars(start, firstDay - TICK)] else [])
    + [DayBars(firstDay, lastDay - TICK), MinuteBars(lastDay, end)]
  }

  function SegmentsOf(start: int, end: int): seq<Segment> {
    if Whole(start, end) then [MinuteBars(start, end)] else Cut(start, FirstDay(start), Midnight(end), end)
  }

  lemma DaysBetween(start: int, end: int)
    requires !Whole(start, end)
    ensures start <= FirstDay(start) < start + DAY && FirstDay(start) % DAY == 0
    ensures Midnight(end) <= end < Midnight(end) + DAY && Midnight(end) % DAY == 0
    ensures FirstDay(start) < Midnight(end)
  {
  }

  /** The list is built in place; its second way out, for a span with no whole day, is never taken. */
  method Split(start: int, end: int) returns (segments: seq<Segment>)
    ensures segments == SegmentsOf(start, end)
  {
    if end <= start || end - start < MIN_SPAN_FOR_DAILY {
      return [MinuteBars(start, end)];
    }
    var midnight := Midnight(start);
    var firstDay := if midnight == start then midnight else midnight + DAY;
    var lastDay := Midnight(end);
    DaysBetween(start, end);
    if lastDay <= firstDay {
      assert false;
      return [MinuteBars(start, end)];
    }
    segments := [];
    if start < firstDay {
      segments := segments + [MinuteBars(start, firstDay - TICK)];
    }
    segments := segments + [DayBars(firstDay, lastDay - TICK)];
    segments := segments + [MinuteBars(lastDay, end)];
  }

  /** The segments follow each other from the first moment to the last without gap or overlap. */
  ghost predicate Tiles(segments: seq<Segment>, start: int, end: int) {
    && segments != []
    && segments[0].start == start
    && segments[|segments| - 1].end == end
    && (forall i, j :: 0 <= i < j < |segments| && j == i + 1 ==> segments[j].start == segments[i].end + TICK)
    && (start <= end ==> forall i :: 0 <= i < |segments| ==> segments[i].start <= segments[i].end)
  }

  /** Inside the span, and of whole days where day bars are asked for. */
  predicate Fits(segment: Segment, start: int, end: int) {
    && start <= segment.start && segment.end <= end
    && (segment.DayBars? ==> segment.start % DAY == 0 && (segment.end + TICK) % DAY == 0)
  }

  /** How many microsecond labels the minute parts hold. */
  function MinuteLength(segments: seq<Segment>): int {
    if segments == [] then 0
    else
      var last := segments[|segments| - 1];
      MinuteLength(segments[..|segments| - 1]) + if last.MinuteBars? then last.end - last.start + TICK else 0
  }

  lemma MinuteLengthEnd(front: seq<Segment>, last: Segment)
    ensures MinuteLength(front + [last])
         == MinuteLength(front) + if last.MinuteBars? then last.end - last.start + TICK else 0
  {
    assert (front + [last])[..|front|] == front;
  }

  lemma CutLength(start: int, firstDay: int, lastDay: int, end: int)
    requires start <= firstDay < lastDay <= end
    ensures MinuteLength(Cut(start, firstDay, lastDay, end)) == (firstDay - start) + (end - lastDay + TICK)
  {
    var head := if start < firstDay then [MinuteBars(start, firstDay - TICK)] else [];
    var days, tail := DayBars(firstDay, lastDay - TICK), MinuteBars(lastDay, end);
    if head != [] {
      assert head == [] + [head[0]];
      MinuteLengthEnd([], head[0]);
    }
    MinuteLengthEnd(head, days);
    MinuteLengthEnd(head + [days], tail);
    assert Cut(start, firstDay, lastDay, end) == head + [days] + [tail];
  }

  lemma HasDayBars(start: int, end: int)
    ensures (exists i :: 0 <= i < |SegmentsOf(start, end)| && SegmentsOf(start, end)[i].DayBars?) <==> end - start >= 2 * DAY
  {
    var segments := SegmentsOf(start, end);
    if !Whole(start, end) {
      assert segments[|segments| - 2].DayBars?;
    }
  }

  lemma SegmentsTile(start: int, end: int)
    ensures Tiles(SegmentsOf(start, end), start, end)
    ensures forall i :: 0 <= i < |SegmentsOf(start, end)| ==> Fits(SegmentsOf(start, end)[i], start, end)
    ensures (exists i :: 0 <= i < |SegmentsOf(start, end)| && SegmentsOf(start, end)[i].DayBars?) <==> end - start >= 2 * DAY
    ensures end - start >= 2 * DAY ==> MinuteLength(SegmentsOf(start, end)) < 2 * DAY
  {
    HasDayBars(start, end);
    if !Whole(start, end) {
      DaysBetween(start, end);
      CutLength(start, FirstDay(start), Midnight(end), end);
      CutTiles(start, FirstDay(start), Midnight(end), end);
    }
  }

  lemma CutTiles(start: int, firstDay: int, lastDay: int, end: int)
    requires start <= firstDay < lastDay <= end && firstDay % DAY == 0 && lastDay % DAY == 0
    ensures Tiles(Cut(start, firstDay, lastDay, end), start, end)
    ensures forall i :: 0 <= i < |Cut(start, firstDay, lastDay, end)| ==> Fits(Cut(start, firstDay, lastDay, end)[i], start, end)
  {
  }

  /** In a tiling every moment of the span is in exactly one segment. */
  lemma {:induction false} EachMomentOnce(segments: seq<Segment>, start: int, end: int, at: int) returns (i: nat)
    requires Tiles(segments, start, end) && start <= at <= end
    ensures i < |segments| && segments[i].Covers(at)
    ensures forall j :: 0 <= j < |segments| && segments[j].Covers(at) ==> j == i
    decreases |segments|
  {
    var last := |segments| - 1;
    if |segments| == 1 {
      i := 0;
    } else if at < segments[last].start {
      var front := segments[..last];
      assert segments[last].start == segments[last - 1].end + TICK;
      assert Tiles(front, start, segments[last - 1].end);
      i := EachMomentOnce(front, start, segments[last - 1].end, at);
    } else {
      i := last;
      EarlierEnds(segments, start, end, last);
    }
  }

  lemma {:induction false} EarlierEnds(segments: seq<Segment>, start: int, end: int, k: nat)
    requires Tiles(segments, start, end) && start <= end && k < |segments|
    ensures forall j :: 0 <= j < k ==> segments[j].end < segments[k].start
  {
    if k > 0 {
      EarlierEnds(segments, start, end, k - 1);
      assert segments[k].start == segments[k - 1].end + TICK;
    }
  }

  // Candles.

  datatype Candle = Candle(at: int, high: real, low: real)

  /** What the terminal holds for a symbol: minute bars, and day bars that each sum up the minute bars of their day. */
  datatype Market = Market(minutes: set<Candle>, days: set<Candle>)

  predicate InDay(bar: Candle, day: Candle) { day.at <= bar.at < day.at + DAY }

  ghost predicate SumsUp(day: Candle, minutes: set<Candle>) {
    && day.at % DAY == 0
    && (forall b :: b in minutes && InDay(b, day) ==> day.low <= b.low && b.high <= day.high)
    && (exists b :: b in minutes && InDay(b, day) && b.high == day.high)
    && (exists b :: b in minutes && InDay(b, day) && b.low == day.low)
  }

  predicate HasDay(bar: Candle, days: set<Candle>) { exists d :: d in days && InDay(bar, d) }

  ghost predicate Consistent(market: Market) {
    && (forall d {:trigger SumsUp(d, market.minutes)} :: d in market.days ==> SumsUp(d, market.minutes))
    && (forall b {:trigger HasDay(b, market.days)} :: b in market.minutes ==> HasDay(b, market.days))
  }

  /** The bars labelled within a segment, of the kind it asks for. */
  function Fetched(market: Market, segment: Segment): set<Candle> {
    set b | b in (if segment.MinuteBars? then market.minutes else market.days) && segment.start <= b.at <= segment.end
  }

  function MinuteBarsWithin(market: Market, start: int, end: int): set<Candle> {
    set b | b in market.minutes && start <= b.at <= end
  }

  predicate AllFetched(candles: seq<Candle>, market: Market, segments: seq<Segment>) {
    && (forall c :: c in candles ==> exists i :: 0 <= i < |segments| && c in Fetched(market, segments[i]))
    && (forall i, c :: 0 <= i < |segments| && c in Fetched(market, segments[i]) ==> c in candles)
  }

  function HighOf(candles: seq<Candle>): (h: real)
    requires candles != []
    ensures forall c :: c in candles ==> c.high <= h
    ensures exists c :: c in candles && c.high == h
  {
    if |candles| == 1 then candles[0].high
    else
      var rest := HighOf(candles[1..]);
      assert candles == [candles[0]] + candles[1..];
      if candles[0].high > rest then candles[0].high else rest
  }

  function LowOf(candles: seq<Candle>): (l: real)
    requires candles != []
    ensures forall c :: c in candles ==> l <= c.low
    ensures exists c :: c in candles && c.low == l
  {
    if |candles| == 1 then candles[0].low
    else
      var rest := LowOf(candles[1..]);
      assert candles == [candles[0]] + candles[1..];
      if candles[0].low < rest then candles[0].low else rest
  }

  ghost predicate IsHigh(h: real, bars: set<Candle>) {
    (forall b :: b in bars ==> b.high <= h) && exists b :: b in bars && b.high == h
  }

  ghost predicate IsLow(l: real, bars: set<Candle>) {
    (forall b :: b in bars ==> l <= b.low) && exists b :: b in bars && b.low == l
  }

  /** A fetched bar shows only what some minute bars of the span show. */
  lemma FetchedIsWithin(market: Market, start: int, end: int, segment: Segment, c: Candle)
    requires Consistent(market) && Fits(segment, start, end) && c in Fetched(market, segment)
    ensures Shown(c, MinuteBarsWithin(market, start, end))
  {
    if segment.MinuteBars? {
      assert c in MinuteBarsWithin(market, start, end);
    } else {
      assert SumsUp(c, market.minutes);
      var h :| h in market.minutes && InDay(h, c) && h.high == c.high;
      var l :| l in market.minutes && InDay(l, c) && l.low == c.low;
      DayEndsInside(segment.start, segment.end, c.at);
      assert h in MinuteBarsWithin(market, start, end) && l in MinuteBarsWithin(market, start, end);
    }
  }

  lemma DayEndsInside(start: int, end: int, day: int)
    requires start % DAY == 0 && (end + TICK) % DAY == 0 && day % DAY == 0
    requires start <= day <= end
    ensures day + DAY <= end + TICK
  {
  }

  /** Every minute bar in a segment is covered by a fetched bar reaching at least as far. */
  lemma WithinIsFetched(market: Market, start: int, end: int, segment: Segment, b: Candle)
    requires Consistent(market) && Fits(segment, start, end) && b in market.minutes && segment.Covers(b.at)
    ensures exists c :: c in Fetched(market, segment) && Reaches(c, b)
  {
    if segment.MinuteBars? {
      assert b in Fetched(market, segment) && Reaches(b, b);
    } else {
      assert HasDay(b, market.days);
      var d :| d in market.days && InDay(b, d);
      assert SumsUp(d, market.minutes);
      DayInside(segment.start, segment.end, b.at, d.at);
      assert d in Fetched(market, segment) && Reaches(d, b);
    }
  }

  predicate Reaches(c: Candle, b: Candle) { c.low <= b.low && b.high <= c.high }

  lemma DayInside(start: int, end: int, at: int, day: int)
    requires start % DAY == 0 && (end + TICK) % DAY == 0 && day % DAY == 0
    requires start <= at <= end && day <= at < day + DAY
    ensures start <= day <= end
  {
  }

  /** The extremes of the fetched bars are those of every minute bar in the span. */
  lemma ExtremesKept(market: Market, start: int, end: int, candles: seq<Candle>)
    requires Consistent(market) && AllFetched(candles, market, SegmentsOf(start, end))
    ensures candles == [] <==> MinuteBarsWithin(market, start, end) == {}
    ensures candles != [] ==>
              && IsHigh(HighOf(candles), MinuteBarsWithin(market, start, end))
              && IsLow(LowOf(candles), MinuteBarsWithin(market, start, end))
  {
    SegmentsTile(start, end);
    TilingKeepsExtremes(market, start, end, SegmentsOf(start, end), candles);
  }

  lemma TilingKeepsExtremes(market: Market, start: int, end: int, segments: seq<Segment>, candles: seq<Candle>)
    requires Consistent(market) && Tiles(segments, start, end)
    requires forall i :: 0 <= i < |segments| ==> Fits(segments[i], start, end)
    requires AllFetched(candles, market, segments)
    ensures candles == [] <==> MinuteBarsWithin(market, start, end) == {}
    ensures candles != [] ==>
              && IsHigh(HighOf(candles), MinuteBarsWithin(market, start, end))
              && IsLow(LowOf(candles), MinuteBarsWithin(market, start, end))
  {
    var within := MinuteBarsWithin(market, start, end);
    forall b | b in within ensures Reached(b, candles) {
      var i := EachMomentOnce(segments, start, end, b.at);
      WithinIsFetched(market, start, end, segments[i], b);
    }
    forall c | c in candles ensures Shown(c, within) {
      var i :| 0 <= i < |segments| && c in Fetched(market, segments[i]);
      FetchedIsWithin(market, start, end, segments[i], c);
    }
    ExtremesMatch(within, candles);
  }

  predicate Reached(b: Candle, candles: seq<Candle>) { exists c :: c in candles && Reaches(c, b) }

  predicate Shown(c: Candle, within: set<Candle>) {
    (exists b :: b in within && b.high == c.high) && exists b :: b in within && b.low == c.low
  }

  lemma Bounded(b: Candle, candles: seq<Candle>)
    requires Reached(b, candles)
    ensures candles != [] && LowOf(candles) <= b.low && b.high <= HighOf(candles)
  {
    var c :| c in candles && Reaches(c, b);
  }

  lemma ExtremesMatch(within: set<Candle>, candles: seq<Candle>)
    requires forall b {:trigger Reached(b, candles)} :: b in within ==> Reached(b, candles)
    requires forall c {:trigger Shown(c, within)} :: c in candles ==> Shown(c, within)
    ensures candles == [] <==> within == {}
    ensures candles != [] ==> IsHigh(HighOf(candles), within) && IsLow(LowOf(candles), within)
  {
    forall b | b in within ensures candles != [] && LowOf(candles) <= b.low && b.high <= HighOf(candles) {
      assert Reached(b, candles);
      Bounded(b, candles);
    }
    if candles != [] {
      var h, l := HighOf(candles), LowOf(candles);
      var top :| top in candles && top.high == h;
      var bottom :| bottom in candles && bottom.low == l;
      assert Shown(top, within) && Shown(bottom, within);
    }
  }
}
