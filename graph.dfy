/**
 * The history buffer behind each plotted graph of graph.js (everything but
 * drawing): a sliding window of the last `posX` samples, and the sample
 * times at which a jump is to be drawn.
 */
module Graphs {
  import opened Wrappers

  datatype Point = Point(x: real, y: real)

  datatype Options = Options(
    posX: int,
    negX: real,
    posY: real,
    negY: real,
    xLabel: string,
    yLabel: string,
    scale: real,
    yMarkers: seq<(real, string)>,
    maxPos: real,
    maxNeg: real)

  const DefaultOptions := Options(400, 20.0, 300.0, 200.0, "x", "y", 1.0, [], 100.0, 100.0)

  /** The keys a caller passes to the constructor; `None` is a key left out. */
  datatype Overrides = Overrides(
    posX: Option<int>,
    negX: Option<real>,
    posY: Option<real>,
    negY: Option<real>,
    xLabel: Option<string>,
    yLabel: Option<string>,
    scale: Option<real>,
    yMarkers: Option<seq<(real, string)>>,
    maxPos: Option<real>,
    maxNeg: Option<real>)

  const NoOverrides: Overrides := Overrides(None, None, None, None, None, None, None, None, None, None)

  /** The value a spread leaves for one key: the given value, or the default when it was left out. */
  function Pick<T>(given: Option<T>, default: T): T {
    match given
    case Some(v) => v
    case None => default
  }

  /** The relational form of `Pick`, used to state `Merge`'s contract key by key: `v` is the given value, or the default when it was left out. */
  predicate Takes<T(==)>(given: Option<T>, default: T, v: T) {
    match given
    case Some(x) => v == x
    case None => v == default
  }

  /** The defaults, overridden key by key by the keys the caller gave. */
  function Merge(o: Overrides): (r: Options)
    ensures Takes(o.posX, DefaultOptions.posX, r.posX) && Takes(o.negX, DefaultOptions.negX, r.negX)
    ensures Takes(o.posY, DefaultOptions.posY, r.posY) && Takes(o.negY, DefaultOptions.negY, r.negY)
    ensures Takes(o.xLabel, DefaultOptions.xLabel, r.xLabel) && Takes(o.yLabel, DefaultOptions.yLabel, r.yLabel)
    ensures Takes(o.scale, DefaultOptions.scale, r.scale) && Takes(o.yMarkers, DefaultOptions.yMarkers, r.yMarkers)
    ensures Takes(o.maxPos, DefaultOptions.maxPos, r.maxPos) && Takes(o.maxNeg, DefaultOptions.maxNeg, r.maxNeg)
  {
    Options(
      Pick(o.posX, DefaultOptions.posX),
      Pick(o.negX, DefaultOptions.negX),
      Pick(o.posY, DefaultOptions.posY),
      Pick(o.negY, DefaultOptions.negY),
      Pick(o.xLabel, DefaultOptions.xLabel),
      Pick(o.yLabel, DefaultOptions.yLabel),
      Pick(o.scale, DefaultOptions.scale),
      Pick(o.yMarkers, DefaultOptions.yMarkers),
      Pick(o.maxPos, DefaultOptions.maxPos),
      Pick(o.maxNeg, DefaultOptions.maxNeg))
  }

  /** Giving no key yields the defaults; giving every key yields exactly what was given. */
  lemma MergeExtremes(o: Options)
    ensures Merge(NoOverrides) == DefaultOptions
    ensures Merge(Overrides(Some(o.posX), Some(o.negX), Some(o.posY), Some(o.negY), Some(o.xLabel),
                            Some(o.yLabel), Some(o.scale), Some(o.yMarkers), Some(o.maxPos),
                            Some(o.maxNeg))) == o
  {
  }

  /**
   * What `slice(-posX)` keeps of `s`: the last posX elements when posX is
   * positive, everything when it is 0 (-0 is 0), and all but the first
   * -posX when it is negative.
   */
  function Window<T>(s: seq<T>, posX: int): (r: seq<T>)
    ensures |r| <= |s| && r == s[|s| - |r|..]
    ensures posX > 0 ==> |r| == if |s| < posX then |s| else posX
    ensures posX == 0 ==> r == s
    ensures posX < 0 ==> |r| == if |s| < -posX then 0 else |s| + posX
  {
    if posX > 0 then s[(if |s| < posX then 0 else |s| - posX)..]
    else s[(if |s| < -posX then |s| else -posX)..]
  }

  /**
   * Trimming before appending changes nothing for a non-negative posX: the
   * window of (window of u) + v is the window of u + v. With v == [] this
   * says that trimming twice is trimming once.
   */
  lemma {:induction false} WindowOfWindow<T>(u: seq<T>, v: seq<T>, posX: int)
    requires posX >= 0
    ensures Window(Window(u, posX) + v, posX) == Window(u + v, posX)
  {
    if posX > 0 && |u| > posX {
      // only here does the inner window drop anything: it keeps the last posX of u
      var s, k := u + v, |u| - posX;
      assert Window(u, posX) + v == s[k..];
      SuffixOfSuffix(s, k, posX);
    }
  }

  /** The window of a suffix that is still at least posX long is the window of the whole. */
  lemma SuffixOfSuffix<T>(s: seq<T>, k: int, posX: int)
    requires 0 <= k <= |s| - posX && posX > 0
    ensures Window(s[k..], posX) == Window(s, posX)
  {
    assert s[k..][|s| - k - posX..] == s[|s| - posX..];
  }

  class Graph {
    const pos: (real, real)
    var data: seq<Point>
    const options: Options
    var discontinuities: seq<real>
    var mouseX: real
    var discontinuous: bool
    /** Every point held or appended since construction or the last Reset, oldest first. */
    ghost var history: seq<Point>

    /**
     * With a non-negative posX the buffer shows the window of the whole
     * history (points passed to the constructor are trimmed on the first
     * append).
     */
    ghost predicate Valid()
      reads this
    {
      options.posX >= 0 ==> Window(data, options.posX) == Window(history, options.posX)
    }

    /**
     * Starts with the given points (or none), the merged options, no
     * discontinuity recorded and none pending.
     */
    constructor (pos: (real, real), overrides: Overrides, data: seq<Point>)
      ensures Valid() && history == data
      ensures this.pos == pos && this.data == data && options == Merge(overrides)
      ensures discontinuities == [] && mouseX == 0.0 && !discontinuous
    {
      this.pos := pos;
      this.data := data;
      this.options := Merge(overrides);
      this.discontinuities := [];
      this.mouseX := 0.0;
      this.discontinuous := false;
      this.history := data;
    }

    /**
     * Appends the sample (x, y) and trims the buffer to its window; a
     * pending discontinuity is recorded at x and cleared.
     */
    method AddNextPoint(x: real, y: real)
      requires Valid()
      modifies this
      ensures Valid() && history == old(history) + [Point(x, y)]
      ensures data == Window(old(data) + [Point(x, y)], options.posX)
      ensures options.posX >= 0 ==> data == Window(history, options.posX)
      ensures options.posX >= 0 ==> |data| > 0 && data[|data| - 1] == Point(x, y)
      ensures !discontinuous
      ensures discontinuities == if old(discontinuous) then old(discontinuities) + [x] else old(discontinuities)
      ensures mouseX == old(mouseX)
    {
      data := data + [Point(x, y)];
      data := Window(data, options.posX);
      history := history + [Point(x, y)];
      if options.posX >= 0 {
        WindowOfWindow(old(data), [Point(x, y)], options.posX);
        WindowOfWindow(old(history), [Point(x, y)], options.posX);
        WindowOfWindow(old(data) + [Point(x, y)], [], options.posX);
      }

      if discontinuous {
        discontinuous := false;
        discontinuities := discontinuities + [x];
      }
    }

    method SetMousePosition(x: real)
      requires Valid()
      modifies this
      ensures Valid() && mouseX == x
      ensures data == old(data) && history == old(history) && discontinuities == old(discontinuities)
      ensures discontinuous == old(discontinuous)
    {
      mouseX := x;
    }

    /** Empties the buffer; recorded and pending discontinuities stay. */
    method Reset()
      requires Valid()
      modifies this
      ensures Valid() && data == [] && history == []
      ensures discontinuities == old(discontinuities) && discontinuous == old(discontinuous)
      ensures mouseX == old(mouseX)
    {
      data := [];
      history := [];
    }

    /** Marks the next appended point as the first after a jump. */
    method WillBeDiscontinuous()
      requires Valid()
      modifies this
      ensures Valid() && discontinuous
      ensures data == old(data) && history == old(history) && discontinuities == old(discontinuities)
      ensures mouseX == old(mouseX)
    {
      discontinuous := true;
    }
  }
}
