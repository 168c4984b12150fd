/** Scrolling of the two tiled layers: every frame the background and the
    ground texture offsets advance, faster while Shift is held. */
module Scroll {

  const BackgroundSlow: int := 2
  const BackgroundFast: int := 5
  const GroundSlow: int := 6
  const GroundFast: int := 10

  /** The horizontal texture offsets of the background and ground layers. */
  datatype Offsets = Offsets(background: int, ground: int)

  /** Both layers start unscrolled. */
  function Start(): (o: Offsets)
    ensures o.background == 0 && o.ground == 0
  {
    Offsets(0, 0)
  }

  /** One frame of scrolling; `fast` is whether Shift is held. */
  function Advance(o: Offsets, fast: bool): (r: Offsets)
    ensures r.background - o.background == (if fast then BackgroundFast else BackgroundSlow)
    ensures r.ground - o.ground == (if fast then GroundFast else GroundSlow)
    ensures r.background > o.background && r.ground > o.ground
  {
    if fast then Offsets(o.background + BackgroundFast, o.ground + GroundFast)
    else Offsets(o.background + BackgroundSlow, o.ground + GroundSlow)
  }

  /** The offsets after one frame per element of `shift`, first frame first. */
  function AdvanceAll(o: Offsets, shift: seq<bool>): Offsets
    decreases |shift|
  {
    if |shift| == 0 then o else AdvanceAll(Advance(o, shift[0]), shift[1..])
  }

  /** Number of frames with Shift held. */
  function FastFrames(shift: seq<bool>): (n: nat)
    ensures n <= |shift|
    decreases |shift|
  {
    if |shift| == 0 then 0 else (if shift[0] then 1 else 0) + FastFrames(shift[1..])
  }

  /** Over any run of frames each layer's offset has moved by its slow speed
      per frame plus the speed-up per fast frame, so both grow strictly with
      every frame and never by more than the fast speed per frame. */
  lemma {:induction false} AdvanceAllDistance(o: Offsets, shift: seq<bool>)
    ensures var r := AdvanceAll(o, shift);
            && r.background - o.background
               == BackgroundSlow * |shift| + (BackgroundFast - BackgroundSlow) * FastFrames(shift)
            && r.ground - o.ground
               == GroundSlow * |shift| + (GroundFast - GroundSlow) * FastFrames(shift)
    decreases |shift|
  {
    if |shift| > 0 {
      AdvanceAllDistance(Advance(o, shift[0]), shift[1..]);
    }
  }

  /** Consequence: after `n` frames the background has moved between 2n and
      5n and the ground between 6n and 10n; in particular a non-empty run of
      frames strictly increases both offsets. */
  lemma AdvanceAllBounds(o: Offsets, shift: seq<bool>)
    ensures var r := AdvanceAll(o, shift);
            && BackgroundSlow * |shift| <= r.background - o.background <= BackgroundFast * |shift|
            && GroundSlow * |shift| <= r.ground - o.ground <= GroundFast * |shift|
            && (|shift| > 0 ==> r.background > o.background && r.ground > o.ground)
  {
    AdvanceAllDistance(o, shift);
  }
}
