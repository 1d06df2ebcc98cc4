/** The page scrollbar's geometry (src/components/CustomScrollbar.tsx):
 *  where the thumb sits for a scroll position, and where a thumb drag
 *  scrolls the page. The viewport and document heights are whole pixels,
 *  as the browser reports them; the scroll position may be fractional. */
module Scrollbar {
  import opened Basics

  const TRACK_MARGIN: real := 14.0
  const MIN_THUMB_SIZE: real := 42.0

  /** The published thumb: shown or not, its height and its top. */
  datatype Thumb = Thumb(visible: bool, height: real, top: real)

  const HIDDEN_THUMB: Thumb := Thumb(false, MIN_THUMB_SIZE, TRACK_MARGIN)

  /** How far the page can scroll. */
  function ScrollRange(viewport: int, document: int): (r: real)
    ensures r >= 0.0 && r >= (document - viewport) as real
    ensures r == 0.0 <==> document <= viewport
    ensures document > viewport ==> r == (document - viewport) as real
  {
    Max((document - viewport) as real, 0.0)
  }

  /** The track the thumb runs in: the viewport less both margins, never
   *  shorter than the smallest thumb. */
  function TrackHeight(viewport: int): (t: real)
    ensures t >= MIN_THUMB_SIZE && t >= viewport as real - 2.0 * TRACK_MARGIN
    ensures t == MIN_THUMB_SIZE || t == viewport as real - 2.0 * TRACK_MARGIN
    ensures t == t.Floor as real
  {
    IntMax(viewport - 28, 42) as real
  }

  /** The thumb's height: the visible share of the track, rounded, at
   *  least the smallest thumb. */
  function ThumbHeight(viewport: int, document: int): (h: real)
    requires 0 <= viewport < document
    ensures MIN_THUMB_SIZE <= h <= TrackHeight(viewport)
    ensures h == h.Floor as real
  {
    var track := TrackHeight(viewport);
    var share := viewport as real / document as real;
    ShareOfTrack(viewport as real, document as real, track);
    RoundBelow(share * track, track.Floor);
    Max(Round(share * track) as real, MIN_THUMB_SIZE)
  }

  /** A share below one of a positive length is below that length. */
  lemma ShareOfTrack(part: real, whole: real, track: real)
    requires 0.0 <= part < whole && track > 0.0
    ensures part / whole * track < track
  {
    var share := part / whole;
    assert share * whole == part;
    assert share < 1.0;
  }

  /** Math.round of a value below a whole number is at most that number. */
  lemma RoundBelow(x: real, n: int)
    requires x < n as real
    ensures Round(x) <= n
  {
  }

  /** y / range scaled to a travel of `travel`, for the three places y can
   *  be relative to [0, range]. */
  lemma Proportion(y: real, range: real, travel: real)
    requires range > 0.0 && travel >= 0.0
    ensures y <= 0.0 ==> Scaled(y, range, travel) <= 0.0
    ensures y >= range ==> Scaled(y, range, travel) >= travel
    ensures 0.0 <= y <= range ==> 0.0 <= Scaled(y, range, travel) <= travel
  {
    var q := y / range;
    assert q * range == y;
    if y >= range {
      assert q >= 1.0;
    }
    if 0.0 <= y <= range {
      assert (1.0 - q) * range == range - y;
    }
  }

  /** ThumbTop at the ends of the range and inside it. */
  lemma TopAt(y: real, range: real, travel: real)
    requires range > 0.0 && travel >= 0.0
    ensures y <= 0.0 ==> ThumbTop(y, range, travel) == TRACK_MARGIN
    ensures y >= range ==> ThumbTop(y, range, travel) == TRACK_MARGIN + travel
    ensures 0.0 <= y <= range ==> ThumbTop(y, range, travel) == TRACK_MARGIN + Scaled(y, range, travel)
  {
    Proportion(y, range, travel);
  }

  /** Scaling keeps order. */
  lemma ScaleMonotone(a: real, b: real, range: real, travel: real)
    requires a <= b && range > 0.0 && travel >= 0.0
    ensures Scaled(a, range, travel) <= Scaled(b, range, travel)
  {
    assert a / range <= b / range;
  }

  /** Scrolling by d / travel * range moves the scaled position by d. */
  lemma Rescale(start: real, d: real, range: real, travel: real)
    requires range > 0.0 && travel > 0.0
    ensures Scaled(start + Scaled(d, travel, range), range, travel) == Scaled(start, range, travel) + d
  {
    var k := d / travel;
    assert (start + k * range) / range == start / range + k;
    assert k * travel == d;
  }

  /** syncThumb for viewport height, document height and scroll position. */
  function SyncThumb(viewport: int, document: int, scrollY: real): (thumb: Thumb)
    requires viewport >= 0
    ensures thumb.visible <==> ScrollRange(viewport, document) > 0.0
    ensures !thumb.visible ==> thumb == HIDDEN_THUMB
    ensures thumb.height >= MIN_THUMB_SIZE
    ensures thumb.visible ==> thumb.height <= TrackHeight(viewport)
    ensures thumb.visible ==>
      TRACK_MARGIN <= thumb.top <= TRACK_MARGIN + TrackHeight(viewport) - thumb.height
  {
    var scrollRange := ScrollRange(viewport, document);
    if scrollRange == 0.0 then HIDDEN_THUMB
    else
      var trackHeight := TrackHeight(viewport);
      var thumbHeight := ThumbHeight(viewport, document);
      Thumb(true, thumbHeight, ThumbTop(scrollY, scrollRange, trackHeight - thumbHeight))
  }

  /** The thumb's top: the scroll position's share of the range, placed on
   *  the thumb's travel below the margin, clamped to the travel. */
  function ThumbTop(scrollY: real, scrollRange: real, travel: real): (top: real)
    requires scrollRange > 0.0
    ensures travel >= 0.0 ==> TRACK_MARGIN <= top <= TRACK_MARGIN + travel
    ensures 0.0 <= Scaled(scrollY, scrollRange, travel) <= travel ==>
      top == TRACK_MARGIN + Scaled(scrollY, scrollRange, travel)
    ensures Scaled(scrollY, scrollRange, travel) < 0.0 && travel >= 0.0 ==> top == TRACK_MARGIN
    ensures Scaled(scrollY, scrollRange, travel) > travel && travel >= 0.0 ==> top == TRACK_MARGIN + travel
  {
    var maxThumbTop := TRACK_MARGIN + travel;
    var nextThumbTop := TRACK_MARGIN + Scaled(scrollY, scrollRange, travel);
    Min(Max(nextThumbTop, TRACK_MARGIN), maxThumbTop)
  }

  /** y / range * length: a distance along one scale carried to another. */
  function Scaled(y: real, range: real, length: real): real
    requires range > 0.0
  {
    y / range * length
  }

  /** The thumb's top before clamping. */
  function Unclamped(viewport: int, document: int, scrollY: real): real
    requires 0 <= viewport < document
  {
    TRACK_MARGIN + Scaled(scrollY, ScrollRange(viewport, document), TrackHeight(viewport) - ThumbHeight(viewport, document))
  }

  /** At the top of the page the thumb is at the top of the track; at the
   *  bottom it is at the bottom of the track; in between it follows the
   *  scroll position proportionally. */
  lemma ThumbFollowsScroll(viewport: int, document: int, scrollY: real)
    requires 0 <= viewport < document
    ensures scrollY <= 0.0 ==> SyncThumb(viewport, document, scrollY).top == TRACK_MARGIN
    ensures scrollY >= ScrollRange(viewport, document) ==>
      SyncThumb(viewport, document, scrollY).top
        == TRACK_MARGIN + TrackHeight(viewport) - ThumbHeight(viewport, document)
    ensures 0.0 <= scrollY <= ScrollRange(viewport, document) ==>
      SyncThumb(viewport, document, scrollY).top == Unclamped(viewport, document, scrollY)
  {
    TopAt(scrollY, ScrollRange(viewport, document), TrackHeight(viewport) - ThumbHeight(viewport, document));
  }

  /** Scrolling further down never moves the thumb up. */
  lemma ThumbMonotone(viewport: int, document: int, y1: real, y2: real)
    requires 0 <= viewport < document && y1 <= y2
    ensures SyncThumb(viewport, document, y1).top <= SyncThumb(viewport, document, y2).top
  {
    var range := ScrollRange(viewport, document);
    var travel := TrackHeight(viewport) - ThumbHeight(viewport, document);
    ScaleMonotone(y1, y2, range, travel);
    assert SyncThumb(viewport, document, y1).top == ThumbTop(y1, range, travel);
    assert SyncThumb(viewport, document, y2).top == ThumbTop(y2, range, travel);
  }

  /** The mouse-move handler: the scroll position to go to, or None when
   *  the page cannot scroll or the thumb has no room to travel. */
  function DragScroll(viewport: int, document: int, thumbHeight: real,
                      dragStartY: real, dragStartScrollY: real, clientY: real): (next: Option<real>)
    ensures next.None? <==>
      ScrollRange(viewport, document) == 0.0 || TrackHeight(viewport) - thumbHeight <= 0.0
    ensures next.Some? ==> 0.0 <= next.value <= ScrollRange(viewport, document)
  {
    var scrollRange := ScrollRange(viewport, document);
    if scrollRange == 0.0 then None
    else
      var maxThumbTravel := TrackHeight(viewport) - thumbHeight;
      if maxThumbTravel <= 0.0 then None
      else
        var deltaY := clientY - dragStartY;
        Some(Min(Max(dragStartScrollY + Scaled(deltaY, maxThumbTravel, scrollRange), 0.0), scrollRange))
  }

  /** Where an unclamped drag goes: the start position plus the pointer's
   *  move scaled from thumb travel to scroll range. A drag that does not
   *  move the pointer stays where it started; moving down never scrolls
   *  up. */
  lemma DragTarget(viewport: int, document: int, thumbHeight: real,
                   dragStartY: real, dragStartScrollY: real, clientY: real, clientY2: real)
    requires DragScroll(viewport, document, thumbHeight, dragStartY, dragStartScrollY, clientY).Some?
    ensures var range := ScrollRange(viewport, document);
      var travel := TrackHeight(viewport) - thumbHeight;
      0.0 <= dragStartScrollY + Scaled(clientY - dragStartY, travel, range) <= range ==>
        DragScroll(viewport, document, thumbHeight, dragStartY, dragStartScrollY, clientY)
          == Some(dragStartScrollY + Scaled(clientY - dragStartY, travel, range))
    ensures 0.0 <= dragStartScrollY <= ScrollRange(viewport, document) ==>
      DragScroll(viewport, document, thumbHeight, dragStartY, dragStartScrollY, dragStartY) == Some(dragStartScrollY)
    ensures clientY <= clientY2 ==>
      DragScroll(viewport, document, thumbHeight, dragStartY, dragStartScrollY, clientY).value
        <= DragScroll(viewport, document, thumbHeight, dragStartY, dragStartScrollY, clientY2).value
  {
    var range := ScrollRange(viewport, document);
    var travel := TrackHeight(viewport) - thumbHeight;
    if clientY <= clientY2 {
      ScaleMonotone(clientY - dragStartY, clientY2 - dragStartY, travel, range);
    }
  }

  /** Dragging and syncing agree: with the thumb synced at the drag's
   *  start, moving the pointer by d scrolls to where the synced thumb
   *  has moved by exactly d, as long as nothing is clamped. */
  lemma DragMovesThumbWithPointer(viewport: int, document: int, dragStartY: real,
                                  dragStartScrollY: real, clientY: real)
    requires 0 <= viewport < document
    requires TrackHeight(viewport) - ThumbHeight(viewport, document) > 0.0
    requires 0.0 <= dragStartScrollY <= ScrollRange(viewport, document)
    requires var thumbHeight := ThumbHeight(viewport, document);
      var travel := TrackHeight(viewport) - thumbHeight;
      var wanted := dragStartScrollY + Scaled(clientY - dragStartY, travel, ScrollRange(viewport, document));
      0.0 <= wanted <= ScrollRange(viewport, document)
    ensures var thumbHeight := ThumbHeight(viewport, document);
      var next := DragScroll(viewport, document, thumbHeight, dragStartY, dragStartScrollY, clientY);
      next.Some? &&
      SyncThumb(viewport, document, next.value).top
        == SyncThumb(viewport, document, dragStartScrollY).top + (clientY - dragStartY)
  {
    var thumbHeight := ThumbHeight(viewport, document);
    var range := ScrollRange(viewport, document);
    var travel := TrackHeight(viewport) - thumbHeight;
    var d := clientY - dragStartY;
    var wanted := dragStartScrollY + Scaled(d, travel, range);
    DragTarget(viewport, document, thumbHeight, dragStartY, dragStartScrollY, clientY, clientY);
    assert SyncThumb(viewport, document, wanted).top == ThumbTop(wanted, range, travel);
    assert SyncThumb(viewport, document, dragStartScrollY).top == ThumbTop(dragStartScrollY, range, travel);
    TopAt(wanted, range, travel);
    TopAt(dragStartScrollY, range, travel);
    Rescale(dragStartScrollY, d, range, travel);
  }
}
