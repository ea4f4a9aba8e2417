/** The 500-point pitch display of the microphone monitors. Each slot
    covers 320 samples of input; while the input is shorter than 500 slots
    a frame writes its own slot, afterwards the display scrolls left by one
    point and the newest point goes into the last slot. */
module MicDisplay {

  /** One chart point: time in seconds and pitch. */
  datatype Point = Point(x: real, y: real)

  /** Slot i starts at time i / sampleRate with pitch 0. */
  function InitialPoints(sampleRate: real): (s: seq<Point>)
    requires sampleRate != 0.0
    ensures |s| == 500
    ensures forall i :: 0 <= i < 500 ==> s[i].y == 0.0
  {
    seq(500, (i: int) => Point(i as real / sampleRate, 0.0))
  }

  /** The display after the frame at sample `position` reported point p. */
  function Recorded(s: seq<Point>, position: nat, p: Point): (r: seq<Point>)
    requires |s| == 500
    ensures |r| == 500
    ensures position / 320 < 500 ==>
      r[position / 320] == p && forall k :: 0 <= k < 500 && k != position / 320 ==> r[k] == s[k]
    ensures position / 320 >= 500 ==>
      r[499] == p && forall k :: 0 <= k < 499 ==> r[k] == s[k + 1]
  {
    if position / 320 < 500 then s[position / 320 := p] else s[1..] + [p]
  }

  /** Once the display scrolls, the last 499 points of the old display are
      kept in order, shifted one slot to the left, so two scrolling updates
      leave the two newest points at the end, oldest first. */
  lemma {:induction false} ScrollingKeepsHistory(s: seq<Point>, position: nat, position': nat, p: Point, q: Point)
    requires |s| == 500 && position / 320 >= 500 && position' / 320 >= 500
    ensures Recorded(Recorded(s, position, p), position', q) == s[2..] + [p, q]
  {
    assert Recorded(s, position, p) == s[1..] + [p];
    assert (s[1..] + [p])[1..] == s[2..] + [p];
  }

  class PitchDisplay {
    var data: array<Point>

    ghost predicate Valid()
      reads this
    {
      data.Length == 500
    }

    /** `IntStream.range(0, 500).mapToObj(i -> new Data(i / sampleRate, 0.0))`. */
    constructor (sampleRate: real)
      requires sampleRate != 0.0
      ensures Valid() && fresh(data)
      ensures data[..] == InitialPoints(sampleRate)
    {
      data := new Point[500]((i: int) => Point(i as real / sampleRate, 0.0));
    }

    /** The buffer update of the recorder listener: write slot
        `position / 320`, or shift every point one slot left and write the
        last slot. */
    method Record(position: nat, posInSec: real, ff: real)
      requires Valid()
      modifies data
      ensures Valid()
      ensures data[..] == Recorded(old(data[..]), position, Point(posInSec, ff))
    {
      var slot := position / 320;
      if slot < 500 {
        data[slot] := data[slot].(x := posInSec);
        data[slot] := data[slot].(y := ff);
      } else {
        var i := 0;
        while i < 500 - 1
          invariant 0 <= i <= 499
          invariant forall k :: 0 <= k < i ==> data[k] == old(data[k + 1])
          invariant forall k :: i <= k < 500 ==> data[k] == old(data[k])
        {
          data[i] := data[i].(x := data[i + 1].x);
          data[i] := data[i].(y := data[i + 1].y);
          i := i + 1;
        }
        data[499] := data[499].(x := posInSec);
        data[499] := data[499].(y := ff);
      }
    }
  }
}
