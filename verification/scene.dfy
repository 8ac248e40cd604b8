/** A composed card as the ordered list of drawing calls issued against the
    surface. Later calls paint over earlier ones, so draw order is what
    decides whether the name is legible on its background box. */
module Scene {
  import opened Geometry

  /** What a text call draws. */
  datatype Item = Name | Subtitle | Star | Heart | Caption

  datatype Op =
    | DrawImage(at: Point)
    | FillRect(rect: Rect)
    | StrokeRect(rect: Rect)
      /** pdf-lib `drawRectangle` with both a fill colour and a border */
    | FramedRect(rect: Rect)
      /** a rectangle filled with a translucent colour of the given opacity */
    | TintRect(rect: Rect, opacity: real)
    | FillText(item: Item, at: Point, size: real)
    | StrokeText(item: Item, at: Point, size: real)
    | FillCircle(center: Point, radius: real)
      /** setting (`true`) or clearing (`false`) the canvas text shadow */
    | Shadow(on: bool)
  {
    predicate PaintsRect() {
      FillRect? || StrokeRect? || FramedRect? || TintRect?
    }

    predicate DrawsText() {
      FillText? || StrokeText?
    }

    predicate Draws(it: Item) {
      DrawsText() && item == it
    }

    /** This call paints the interior of `r`. */
    predicate Fills(r: Rect) {
      (FillRect? || FramedRect?) && rect == r
    }
  }

  /** No rectangle is painted from index `k` on. */
  predicate NoRectFrom(ops: seq<Op>, k: int) {
    forall m :: 0 <= m < |ops| && k <= m ==> !ops[m].PaintsRect()
  }

  /** `box` is painted at `i`, the name is drawn at a later `j`, and nothing
      rectangular is painted after that: the name ends up on top of the box. */
  predicate NameOverBoxAt(ops: seq<Op>, box: Rect, i: int, j: int) {
    0 <= i < j < |ops| && ops[i].Fills(box) && ops[j].Draws(Name) && NoRectFrom(ops, j + 1)
  }

  predicate NameOverBox(ops: seq<Op>, box: Rect) {
    exists i, j | 0 <= i < j < |ops| :: NameOverBoxAt(ops, box, i, j)
  }

  /** Appending calls that paint no rectangle keeps the name on top. */
  lemma NameOverBoxAppend(a: seq<Op>, b: seq<Op>, box: Rect)
    requires NameOverBox(a, box)
    requires NoRectFrom(b, 0)
    ensures NameOverBox(a + b, box)
  {
    var i, j :| 0 <= i < j < |a| && NameOverBoxAt(a, box, i, j);
    assert (a + b)[i] == a[i] && (a + b)[j] == a[j];
    forall m | j + 1 <= m < |a + b|
      ensures !(a + b)[m].PaintsRect()
    {
      if m >= |a| {
        assert (a + b)[m] == b[m - |a|];
      }
    }
    assert NameOverBoxAt(a + b, box, i, j);
  }

  /** Prepending any calls keeps the name on top. */
  lemma NameOverBoxPrepend(a: seq<Op>, b: seq<Op>, box: Rect)
    requires NameOverBox(b, box)
    ensures NameOverBox(a + b, box)
  {
    var i, j :| 0 <= i < j < |b| && NameOverBoxAt(b, box, i, j);
    var n := |a|;
    assert (a + b)[n + i] == b[i] && (a + b)[n + j] == b[j];
    forall m | n + j + 1 <= m < |a + b|
      ensures !(a + b)[m].PaintsRect()
    {
      assert (a + b)[m] == b[m - n];
    }
    assert NameOverBoxAt(a + b, box, n + i, n + j);
  }

  /** The name is outlined: a `strokeText` of the name is immediately
      followed by a `fillText` of the name at the same spot and size. */
  predicate NameOutlined(ops: seq<Op>) {
    exists i | 0 <= i < |ops| - 1 ::
      ops[i].StrokeText? && ops[i].item == Name && ops[i + 1] == FillText(Name, ops[i].at, ops[i].size)
  }

  /** Prepending calls keeps the name outlined. */
  lemma NameOutlinedPrepend(a: seq<Op>, b: seq<Op>)
    requires NameOutlined(b)
    ensures NameOutlined(a + b)
  {
    var i :| 0 <= i < |b| - 1 && b[i].StrokeText? && b[i].item == Name && b[i + 1] == FillText(Name, b[i].at, b[i].size);
    assert (a + b)[|a| + i] == b[i] && (a + b)[|a| + i + 1] == b[i + 1];
  }

  /** Two runs of calls that paint no rectangle make one. */
  lemma NoRectConcat(a: seq<Op>, b: seq<Op>)
    requires NoRectFrom(a, 0) && NoRectFrom(b, 0)
    ensures NoRectFrom(a + b, 0)
  {
    forall m | 0 <= m < |a + b|
      ensures !(a + b)[m].PaintsRect()
    {
      if m < |a| { assert (a + b)[m] == a[m]; } else { assert (a + b)[m] == b[m - |a|]; }
    }
  }

  /** A name section between a backdrop and a trailer that paints no
      rectangle stays on top of its box, and every border still strokes the
      rectangle filled just before it. */
  lemma NameSectionBetween(a: seq<Op>, b: seq<Op>, t: seq<Op>, box: Rect)
    requires StrokesFollowFills(a) && StrokesFollowFills(b) && NameOverBox(b, box)
    requires NoRectFrom(t, 0)
    ensures NameOverBox(a + b + t, box) && StrokesFollowFills(a + b + t)
  {
    NameOverBoxPrepend(a, b, box);
    NameOverBoxAppend(a + b, t, box);
    StrokesFollowFillsConcat(a, b);
    assert StrokesFollowFills(t);
    StrokesFollowFillsConcat(a + b, t);
  }

  /** Only text and shadow calls: nothing rectangular, no image. */
  predicate TextOnly(ops: seq<Op>) {
    forall m :: 0 <= m < |ops| ==> ops[m].DrawsText() || ops[m].Shadow?
  }

  lemma TextOnlyConcat(a: seq<Op>, b: seq<Op>)
    requires TextOnly(a) && TextOnly(b)
    ensures TextOnly(a + b)
  {
    forall m | 0 <= m < |a + b|
      ensures (a + b)[m].DrawsText() || (a + b)[m].Shadow?
    {
      if m < |a| { assert (a + b)[m] == a[m]; } else { assert (a + b)[m] == b[m - |a|]; }
    }
  }

  /** A box filled and then stroked, followed by text that includes the
      name: the border strokes the fill, the name ends up over the box, no
      rectangle follows the box and no image is drawn. */
  lemma BoxThenText(box: Rect, rest: seq<Op>, k: int)
    requires TextOnly(rest) && 0 <= k < |rest| && rest[k].Draws(Name)
    ensures var ops := [FillRect(box), StrokeRect(box)] + rest;
            && StrokesFollowFills(ops)
            && NameOverBox(ops, box)
            && NoRectFrom(ops, 2)
            && (forall m :: 0 <= m < |ops| ==> !ops[m].DrawImage?)
  {
    var ops := [FillRect(box), StrokeRect(box)] + rest;
    assert forall m :: 2 <= m < |ops| ==> ops[m] == rest[m - 2];
    assert NameOverBoxAt(ops, box, 0, k + 2);
  }

  /** Every stroked rectangle is exactly the rectangle filled by the call
      just before it: fill and border agree. */
  predicate StrokesFollowFills(ops: seq<Op>) {
    forall i :: 0 <= i < |ops| && ops[i].StrokeRect? ==> 0 < i && ops[i - 1] == FillRect(ops[i].rect)
  }

  lemma StrokesFollowFillsConcat(a: seq<Op>, b: seq<Op>)
    requires StrokesFollowFills(a) && StrokesFollowFills(b)
    ensures StrokesFollowFills(a + b)
  {
    forall i | 0 <= i < |a + b| && (a + b)[i].StrokeRect?
      ensures 0 < i && (a + b)[i - 1] == FillRect((a + b)[i].rect)
    {
      if i < |a| {
        assert (a + b)[i] == a[i] && (a + b)[i - 1] == a[i - 1];
      } else {
        var k := i - |a|;
        assert (a + b)[i] == b[k];
        assert 0 < k;
        assert (a + b)[i - 1] == b[k - 1];
      }
    }
  }

  /** The template image is the base layer: drawn first, at the origin, and
      never again. */
  predicate ImageUnderneath(ops: seq<Op>) {
    && |ops| > 0
    && ops[0] == DrawImage(Origin)
    && forall m :: 0 < m < |ops| ==> !ops[m].DrawImage?
  }

  /** Whether a shadow is in force when call `i` runs; a fresh canvas has none. */
  function ShadowBefore(ops: seq<Op>, i: int): bool
    requires 0 <= i <= |ops|
    decreases i
  {
    if i == 0 then false
    else if ops[i - 1].Shadow? then ops[i - 1].on
    else ShadowBefore(ops, i - 1)
  }

  /** The shadow state is the one set by the most recent shadow call. */
  lemma {:induction false} ShadowSetBy(ops: seq<Op>, k: int, i: int)
    requires 0 <= k < i <= |ops| && ops[k].Shadow?
    requires forall m :: k < m < i ==> !ops[m].Shadow?
    ensures ShadowBefore(ops, i) == ops[k].on
    decreases i
  {
    if i - 1 > k {
      ShadowSetBy(ops, k, i - 1);
    }
  }

  /** Before any shadow call the canvas draws without shadow. */
  lemma {:induction false} NoShadowYet(ops: seq<Op>, i: int)
    requires 0 <= i <= |ops|
    requires forall m :: 0 <= m < i ==> !ops[m].Shadow?
    ensures !ShadowBefore(ops, i)
    decreases i
  {
    if i > 0 {
      NoShadowYet(ops, i - 1);
    }
  }

  /** Exactly the name is drawn with a shadow; every other text is not. */
  predicate ShadowOnlyOnName(ops: seq<Op>) {
    forall i :: 0 <= i < |ops| && ops[i].DrawsText() ==> (ShadowBefore(ops, i) <==> ops[i].item == Name)
  }

  /** Prepending calls that touch no shadow leaves the shadow state unchanged. */
  lemma {:induction false} ShadowShift(a: seq<Op>, b: seq<Op>, i: int)
    requires 0 <= i <= |b|
    requires forall m :: 0 <= m < |a| ==> !a[m].Shadow?
    ensures ShadowBefore(a + b, |a| + i) == ShadowBefore(b, i)
    decreases i
  {
    if i == 0 {
      NoShadowYet(a + b, |a|);
    } else {
      assert (a + b)[|a| + i - 1] == b[i - 1];
      ShadowShift(a, b, i - 1);
    }
  }

  /** Texts of the name bracketed by a shadow switched on and off, then
      texts of other items: the shadow falls on the name alone. */
  lemma ShadowBracketsName(d: seq<Op>, e: seq<Op>)
    requires 2 <= |d| && d[0] == Shadow(true) && d[|d| - 1] == Shadow(false)
    requires forall m :: 0 < m < |d| - 1 ==> d[m].DrawsText() && d[m].item == Name
    requires forall m :: 0 <= m < |e| ==> e[m].DrawsText() && e[m].item != Name
    ensures ShadowOnlyOnName(d + e)
  {
    var x := d + e;
    assert forall m :: 0 <= m < |d| ==> x[m] == d[m];
    assert forall m :: |d| <= m < |x| ==> x[m] == e[m - |d|];
    forall i | 0 <= i < |x| && x[i].DrawsText()
      ensures ShadowBefore(x, i) <==> x[i].item == Name
    {
      if i < |d| {
        ShadowSetBy(x, 0, i);
      } else {
        ShadowSetBy(x, |d| - 1, i);
      }
    }
  }

  /** Prepending calls that draw no text and touch no shadow keeps the
      shadow on the name alone. */
  lemma ShadowOnlyOnNamePrepend(a: seq<Op>, b: seq<Op>)
    requires forall m :: 0 <= m < |a| ==> !a[m].Shadow? && !a[m].DrawsText()
    requires ShadowOnlyOnName(b)
    ensures ShadowOnlyOnName(a + b)
  {
    assert forall m :: 0 <= m < |a| ==> (a + b)[m] == a[m];
    forall i | 0 <= i < |a + b| && (a + b)[i].DrawsText()
      ensures ShadowBefore(a + b, i) <==> (a + b)[i].item == Name
    {
      assert |a| <= i;
      assert (a + b)[i] == b[i - |a|];
      ShadowShift(a, b, i - |a|);
    }
  }

  /** The four border bands of thickness `t` along the edges of a
      `width` x `height` surface: top, bottom, left, right in the canvas
      convention (y grows downwards). */
  function Frame(width: real, height: real, t: real): (ops: seq<Op>)
    requires 0.0 <= t && 2.0 * t <= width && 2.0 * t <= height
    ensures |ops| == 4
    ensures forall i :: 0 <= i < |ops| ==> ops[i].FillRect? && ops[i].rect.WithinSurface(width, height)
    // every band stays clear of the interior [t, width - t] x [t, height - t]
    ensures forall i :: 0 <= i < |ops| ==>
              var r := ops[i].rect;
              r.Right() <= t || width - t <= r.x || r.YEnd() <= t || height - t <= r.y
    // and each edge of the surface is covered by a band
    ensures ops[0].rect == Rect(0.0, 0.0, width, t) && ops[1].rect == Rect(0.0, height - t, width, t)
    ensures ops[2].rect == Rect(0.0, 0.0, t, height) && ops[3].rect == Rect(width - t, 0.0, t, height)
  {
    [ FillRect(Rect(0.0, 0.0, width, t)),
      FillRect(Rect(0.0, height - t, width, t)),
      FillRect(Rect(0.0, 0.0, t, height)),
      FillRect(Rect(width - t, 0.0, t, height)) ]
  }

  /** The decorative-circle loops: `n` circles of radius `r` on the line
      `y`, the i-th one centred at `x0 + step * i`. */
  function CircleRow(n: nat, x0: real, step: real, y: real, r: real): (cs: seq<Op>)
    ensures |cs| == n
    ensures forall i :: 0 <= i < n ==> cs[i] == FillCircle(Point(x0 + step * (i as real), y), r)
  {
    var cs := seq(n, i => FillCircle(Point(x0 + step * (i as real), y), r));
    forall i | 0 <= i < n
      ensures cs[i] == FillCircle(Point(x0 + step * (i as real), y), r)
    {
    }
    cs
  }

  /** Circles paint no rectangle, so a row of them can follow the name. */
  lemma CircleRowPaintsNoRect(n: nat, x0: real, step: real, y: real, r: real)
    ensures NoRectFrom(CircleRow(n, x0, step, y, r), 0)
  {
  }

  /** Every circle of a row lies strictly between `lo` and `hi` when the
      first and the last one do. */
  lemma CircleRowWithin(n: nat, x0: real, step: real, y: real, r: real, lo: real, hi: real)
    requires n > 0 && step >= 0.0
    requires lo < x0 - r && x0 + step * ((n - 1) as real) + r < hi
    ensures forall i :: 0 <= i < n ==> lo < CircleRow(n, x0, step, y, r)[i].center.x - r
    ensures forall i :: 0 <= i < n ==> CircleRow(n, x0, step, y, r)[i].center.x + r < hi
  {
    var cs := CircleRow(n, x0, step, y, r);
    forall i | 0 <= i < n
      ensures lo < cs[i].center.x - r && cs[i].center.x + r < hi
    {
      assert step * (i as real) <= step * ((n - 1) as real);
    }
  }
}
