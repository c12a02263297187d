/** The scatter plot of src/scatterplot.js: an svg whose width and height persist
    between updates, and one `circle.point` per datum, joined by `id`, placed
    linearly between the bounds. Transitions are kept by their end state: an
    entering point ends at radius 15 and opacity 1, a moved point at its new
    position, an exiting point at radius 0 and opacity 0, then removed. An update
    within the 200 ms of a transition, which would interrupt it, is therefore
    not modelled. */
module ScatterPlot {
  import opened Wrappers
  import opened Records
  import opened Extent
  import opened KeyedJoin

  const PointRadius := 15.0
  const UpdateDuration := 200.0
  const EnterDuration := 200.0
  const ExitDuration := 200.0

  /** A `cx` or `cy` value: a number, or not a finite number (division by zero). */
  datatype Coord = At(v: real) | NonFinite

  datatype Bounds = Bounds(xmin: real, xmax: real, ymin: real, ymax: real)

  /** A `circle.point`, identified by `uid` (the element itself), bound to `datum`. */
  datatype Point = Point(uid: nat, elemId: string, datum: Datum, cx: Coord, cy: Coord, r: real, opacity: real)

  /** The argument object of `update`; `data` none is `undefined`. */
  datatype UpdateArgs = UpdateArgs(
    data: Option<seq<Datum>>, width: Option<real>, height: Option<real>,
    xmin: Option<real>, xmax: Option<real>, ymin: Option<real>, ymax: Option<real>)

  // ---------------------------------------------------------------- position

  /** `svg.attr('width')` used as a number: `null` (never set) counts as 0. */
  function StoredSize(a: Option<real>): real {
    if a.Some? then a.value else 0.0
  }

  /** `(v - lo)/(hi - lo) * size`; with hi == lo the quotient is not finite. */
  function Linear(v: real, lo: real, hi: real, size: real): Coord {
    if hi == lo then NonFinite else At((v - lo) / (hi - lo) * size)
  }

  /** lo is placed at 0 and hi at size. */
  lemma LinearEnds(lo: real, hi: real, size: real)
    requires hi != lo
    ensures Linear(lo, lo, hi, size) == At(0.0)
    ensures Linear(hi, lo, hi, size) == At(size)
  {
  }

  /** The mapping is affine: equal steps in data are equal steps on screen. */
  lemma LinearAffine(v: real, w: real, lo: real, hi: real, size: real)
    requires hi != lo
    ensures Linear(w, lo, hi, size).v - Linear(v, lo, hi, size).v == (w - v) / (hi - lo) * size
  {
  }

  /** No flip: with lo < hi and a positive size, larger values lie further along,
      for y as well as for x (larger y is further down the svg). */
  lemma LinearIncreasing(v: real, w: real, lo: real, hi: real, size: real)
    requires lo < hi && size > 0.0 && v < w
    ensures Linear(v, lo, hi, size).v < Linear(w, lo, hi, size).v
  {
    LinearAffine(v, w, lo, hi, size);
    assert (w - v) / (hi - lo) > 0.0;
  }

  /** Equal bounds are not guarded against: every point gets a non-finite coordinate. */
  lemma LinearDegenerate(v: real, lo: real, size: real)
    ensures Linear(v, lo, lo, size) == NonFinite
  {
  }

  // ---------------------------------------------------------------- bounds

  function Xs(data: seq<Datum>): (r: seq<real>)
    ensures |r| == |data| && forall i :: 0 <= i < |data| ==> r[i] == data[i].x
  {
    seq(|data|, i requires 0 <= i < |data| => data[i].x)
  }

  function Ys(data: seq<Datum>): (r: seq<real>)
    ensures |r| == |data| && forall i :: 0 <= i < |data| ==> r[i] == data[i].y
  {
    seq(|data|, i requires 0 <= i < |data| => data[i].y)
  }

  /** `_.minBy(data, f)[f]` on undefined or empty data throws: none. */
  function DataMin(data: Option<seq<Datum>>, ys: bool): Option<real> {
    if data.None? then None else MinOf(if ys then Ys(data.value) else Xs(data.value))
  }

  function DataMax(data: Option<seq<Datum>>, ys: bool): Option<real> {
    if data.None? then None else MaxOf(if ys then Ys(data.value) else Xs(data.value))
  }

  function OrElse(given: Option<real>, fallback: Option<real>): Option<real> {
    if given.Some? then given else fallback
  }

  /** The four bounds: each given one as is, each missing one the minimum or maximum
      over the data. None when a bound is missing and there is no datum to take it
      from, where the source throws a TypeError. */
  function ResolveBounds(a: UpdateArgs): (r: Option<Bounds>)
    ensures r.Some? && a.xmin.Some? ==> r.value.xmin == a.xmin.value
    ensures r.Some? && a.xmax.Some? ==> r.value.xmax == a.xmax.value
    ensures r.Some? && a.ymin.Some? ==> r.value.ymin == a.ymin.value
    ensures r.Some? && a.ymax.Some? ==> r.value.ymax == a.ymax.value
    ensures r.Some? && a.xmin.None? ==>
              a.data.Some? && r.value.xmin in Xs(a.data.value) && forall d :: d in a.data.value ==> r.value.xmin <= d.x
    ensures r.Some? && a.xmax.None? ==>
              a.data.Some? && r.value.xmax in Xs(a.data.value) && forall d :: d in a.data.value ==> d.x <= r.value.xmax
    ensures r.Some? && a.ymin.None? ==>
              a.data.Some? && r.value.ymin in Ys(a.data.value) && forall d :: d in a.data.value ==> r.value.ymin <= d.y
    ensures r.Some? && a.ymax.None? ==>
              a.data.Some? && r.value.ymax in Ys(a.data.value) && forall d :: d in a.data.value ==> d.y <= r.value.ymax
    ensures r.None? <==> (a.xmin.None? || a.xmax.None? || a.ymin.None? || a.ymax.None?)
                         && (a.data.None? || a.data.value == [])
  {
    var xmin := OrElse(a.xmin, DataMin(a.data, false));
    var xmax := OrElse(a.xmax, DataMax(a.data, false));
    var ymin := OrElse(a.ymin, DataMin(a.data, true));
    var ymax := OrElse(a.ymax, DataMax(a.data, true));
    if xmin.Some? && xmax.Some? && ymin.Some? && ymax.Some? then
      Some(Bounds(xmin.value, xmax.value, ymin.value, ymax.value))
    else None
  }

  // ---------------------------------------------------------------- points

  /** `setPosition` for one datum. */
  function Placed(p: Point, d: Datum, b: Bounds, w: real, h: real): Point {
    p.(datum := d, cx := Linear(d.x, b.xmin, b.xmax, w), cy := Linear(d.y, b.ymin, b.ymax, h))
  }

  /** A new `circle.point` with id `'id' + d.id`, positioned, grown to radius 15 and
      faded in to opacity 1. */
  function Entered(uid: nat, d: Datum, b: Bounds, w: real, h: real): Point {
    Placed(Point(uid, "id" + d.id, d, NonFinite, NonFinite, PointRadius, 1.0), d, b, w, h)
  }

  /** An exiting point, shrunk to radius 0 and faded out before its removal. */
  function Shrunk(p: Point): Point {
    p.(r := 0.0, opacity := 0.0)
  }

  /** The join keys of the points: the id of the datum each one is bound to. */
  function Keys(ps: seq<Point>): (r: seq<string>)
    ensures |r| == |ps| && forall i :: 0 <= i < |ps| ==> r[i] == ps[i].datum.id
  {
    seq(|ps|, i requires 0 <= i < |ps| => ps[i].datum.id)
  }

  function Ids(data: seq<Datum>): (r: seq<string>)
    ensures |r| == |data| && forall i :: 0 <= i < |data| ==> r[i] == data[i].id
  {
    seq(|data|, i requires 0 <= i < |data| => data[i].id)
  }

  /** The point datum i ends up as: the point it claims, moved, or a new one whose
      uid is `next + i`. */
  function Slot(ps: seq<Point>, data: seq<Datum>, b: Bounds, w: real, h: real, next: nat, i: nat): Point
    requires i < |data|
  {
    match Match(Keys(ps), Ids(data), i)
    case Some(k) => Placed(ps[k], data[i], b, w, h)
    case None => Entered(next + i, data[i], b, w, h)
  }

  /** The data indices of the points after the join, in document order. */
  function Order(ps: seq<Point>, data: seq<Datum>): (o: seq<nat>)
    ensures |o| == |data| && NoDup(o)
    ensures forall x: nat :: x in o <==> x < |data|
    ensures forall p :: 0 <= p < |o| ==> o[p] < |data|
  {
    OriginsLength(Keys(ps), Ids(data));
    var o := Origins(Keys(ps), Ids(data), 0);
    assert forall p :: 0 <= p < |o| ==> o[p] in o;
    o
  }

  /** The points after `update` with data, in document order, once the exits are gone. */
  function Reconcile(ps: seq<Point>, data: seq<Datum>, b: Bounds, w: real, h: real, next: nat): (r: seq<Point>)
    ensures |r| == |data|
  {
    var o := Order(ps, data);
    seq(|o|, p requires 0 <= p < |o| => assert o[p] in o; Slot(ps, data, b, w, h, next, o[p]))
  }

  /** Which points no datum claims. */
  function Unclaimed(ps: seq<Point>, data: seq<Datum>): (u: seq<bool>)
    ensures |u| == |ps|
    ensures forall j :: 0 <= j < |ps| ==> (u[j] <==> MatchOf(Keys(ps), Ids(data), j).None?)
  {
    seq(|ps|, j requires 0 <= j < |ps| => MatchOf(Keys(ps), Ids(data), j).None?)
  }

  /** The flagged points from point k on, shrunk, in document order. */
  function Gone(ps: seq<Point>, u: seq<bool>, k: nat): (r: seq<Point>)
    requires |u| == |ps| && k <= |ps|
    ensures |r| <= |ps| - k
    decreases |ps| - k
  {
    if k == |ps| then []
    else (if u[k] then [Shrunk(ps[k])] else []) + Gone(ps, u, k + 1)
  }

  lemma {:induction false} GoneMembers(ps: seq<Point>, u: seq<bool>, k: nat, q: Point)
    requires |u| == |ps| && k <= |ps|
    ensures q in Gone(ps, u, k) <==> exists j :: k <= j < |ps| && u[j] && q == Shrunk(ps[j])
    decreases |ps| - k, 1
  {
    if k < |ps| {
      GoneMembersStep(ps, u, k, q);
    }
  }

  lemma {:induction false} GoneMembersStep(ps: seq<Point>, u: seq<bool>, k: nat, q: Point)
    requires |u| == |ps| && k < |ps|
    ensures q in Gone(ps, u, k) <==> exists j :: k <= j < |ps| && u[j] && q == Shrunk(ps[j])
    decreases |ps| - k, 0
  {
    var head := if u[k] then [Shrunk(ps[k])] else [];
    GoneMembers(ps, u, k + 1, q);
    assert Gone(ps, u, k) == head + Gone(ps, u, k + 1);
    if exists j :: k <= j < |ps| && u[j] && q == Shrunk(ps[j]) {
      var j :| k <= j < |ps| && u[j] && q == Shrunk(ps[j]);
      if j == k {
        assert q in head;
      }
    }
  }

  lemma {:induction false} GoneNone(ps: seq<Point>, u: seq<bool>, k: nat)
    requires |u| == |ps| && k <= |ps|
    requires forall j :: 0 <= j < |u| ==> !u[j]
    ensures Gone(ps, u, k) == []
    decreases |ps| - k
  {
    if k < |ps| {
      GoneNone(ps, u, k + 1);
      assert Gone(ps, u, k) == [] + Gone(ps, u, k + 1);
    }
  }

  /** The points no datum claims, shrunk, in document order: the exit selection
      in its final state. */
  function Exits(ps: seq<Point>, data: seq<Datum>): (r: seq<Point>)
    ensures |r| <= |ps|
  {
    Gone(ps, Unclaimed(ps, data), 0)
  }

  /** A point is among the exits exactly when it is an unclaimed point, shrunk. */
  lemma ExitsMembers(ps: seq<Point>, data: seq<Datum>, q: Point)
    ensures q in Exits(ps, data) <==>
            exists j :: 0 <= j < |ps| && MatchOf(Keys(ps), Ids(data), j).None? && q == Shrunk(ps[j])
  {
    var u := Unclaimed(ps, data);
    GoneMembers(ps, u, 0, q);
    if exists j :: 0 <= j < |ps| && u[j] && q == Shrunk(ps[j]) {
      var j :| 0 <= j < |ps| && u[j] && q == Shrunk(ps[j]);
      assert MatchOf(Keys(ps), Ids(data), j).None?;
    }
  }

  /** Every exiting point ends at radius 0 and opacity 0. */
  lemma ExitsShrunk(ps: seq<Point>, data: seq<Datum>, q: Point)
    requires q in Exits(ps, data)
    ensures q.r == 0.0 && q.opacity == 0.0
  {
    ExitsMembers(ps, data, q);
  }

  /** `update` without data: every point moves to its own datum's position. */
  function Repositioned(ps: seq<Point>, b: Bounds, w: real, h: real): (r: seq<Point>)
    ensures |r| == |ps|
    ensures forall i :: 0 <= i < |ps| ==>
              && r[i].uid == ps[i].uid && r[i].datum == ps[i].datum
              && r[i].r == ps[i].r && r[i].opacity == ps[i].opacity
              && r[i].cx == Linear(ps[i].datum.x, b.xmin, b.xmax, w)
              && r[i].cy == Linear(ps[i].datum.y, b.ymin, b.ymax, h)
  {
    seq(|ps|, i requires 0 <= i < |ps| => Placed(ps[i], ps[i].datum, b, w, h))
  }

  predicate UidsDistinct(ps: seq<Point>) {
    forall i, j :: 0 <= i < j < |ps| ==> ps[i].uid != ps[j].uid
  }

  predicate UidsBelow(ps: seq<Point>, next: nat) {
    forall i :: 0 <= i < |ps| ==> ps[i].uid < next
  }

  predicate Distinct(ks: seq<string>) {
    forall i, j :: 0 <= i < j < |ks| ==> ks[i] != ks[j]
  }

  // ---------------------------------------------------------------- the join's properties

  /** Point p comes from datum `Origins(..)[p]`. */
  lemma ReconcileAt(ps: seq<Point>, data: seq<Datum>, b: Bounds, w: real, h: real, next: nat, p: nat)
    requires p < |data|
    ensures Order(ps, data)[p] < |data|
    ensures Reconcile(ps, data, b, w, h, next)[p] == Slot(ps, data, b, w, h, next, Order(ps, data)[p])
  {
    assert Order(ps, data)[p] in Order(ps, data);
  }

  /** After the join the points' keys are exactly the data's ids, one point per datum. */
  lemma ReconcileKeys(ps: seq<Point>, data: seq<Datum>, b: Bounds, w: real, h: real, next: nat)
    ensures |Reconcile(ps, data, b, w, h, next)| == |data|
    ensures forall key :: key in Keys(Reconcile(ps, data, b, w, h, next)) <==> key in Ids(data)
  {
    var r := Reconcile(ps, data, b, w, h, next);
    var o := Order(ps, data);
    forall p | 0 <= p < |r| ensures Keys(r)[p] == Ids(data)[o[p]] {
      ReconcileAt(ps, data, b, w, h, next, p);
    }
    forall key | key in Ids(data) ensures key in Keys(r) {
      var i :| 0 <= i < |data| && Ids(data)[i] == key;
      assert i in o;
      var p :| 0 <= p < |o| && o[p] == i;
      assert Keys(r)[p] == key;
    }
  }

  /** The data index each point comes from, through its key. */
  lemma ReconcileDatum(ps: seq<Point>, data: seq<Datum>, b: Bounds, w: real, h: real, next: nat)
    ensures forall p :: 0 <= p < |data| ==> Reconcile(ps, data, b, w, h, next)[p].datum == data[Order(ps, data)[p]]
  {
    forall p | 0 <= p < |data| ensures Reconcile(ps, data, b, w, h, next)[p].datum == data[Order(ps, data)[p]] {
      ReconcileAt(ps, data, b, w, h, next, p);
    }
  }

  /** Every point is placed by its datum. */
  lemma ReconcilePlaced(ps: seq<Point>, data: seq<Datum>, b: Bounds, w: real, h: real, next: nat, p: nat)
    requires p < |data|
    ensures var q := Reconcile(ps, data, b, w, h, next)[p];
            q.cx == Linear(q.datum.x, b.xmin, b.xmax, w) && q.cy == Linear(q.datum.y, b.ymin, b.ymax, h)
  {
    ReconcileAt(ps, data, b, w, h, next, p);
  }

  /** A point that is the first with its id, when some datum has that id, keeps its
      element and is rebound to the first datum with that id. */
  lemma ReconcileKeepsElement(ps: seq<Point>, data: seq<Datum>, b: Bounds, w: real, h: real, next: nat, k: nat)
    requires k < |ps| && FirstIndex(Keys(ps), ps[k].datum.id) == Some(k) && ps[k].datum.id in Ids(data)
    ensures exists p :: 0 <= p < |data| && Reconcile(ps, data, b, w, h, next)[p].uid == ps[k].uid
              && Reconcile(ps, data, b, w, h, next)[p].elemId == ps[k].elemId
              && Reconcile(ps, data, b, w, h, next)[p].r == ps[k].r
              && Reconcile(ps, data, b, w, h, next)[p].datum == data[FirstIndex(Ids(data), ps[k].datum.id).value]
  {
    var nk, dk := Keys(ps), Ids(data);
    var i := MatchOf(nk, dk, k).value;
    MatchDual(nk, dk, i, k);
    var o := Order(ps, data);
    assert i in o;
    var p :| 0 <= p < |o| && o[p] == i;
    ReconcileAt(ps, data, b, w, h, next, p);
  }

  /** A point whose uid is not an old one is new: it has id `'id' + d.id`,
      radius 15 and opacity 1; a point with an old uid is that old point, moved. */
  lemma ReconcileOrigin(ps: seq<Point>, data: seq<Datum>, b: Bounds, w: real, h: real, next: nat, p: nat)
    requires UidsBelow(ps, next) && p < |data|
    ensures var q := Reconcile(ps, data, b, w, h, next)[p];
            if q.uid >= next then q.elemId == "id" + q.datum.id && q.r == PointRadius && q.opacity == 1.0
            else exists k :: 0 <= k < |ps| && ps[k].uid == q.uid && ps[k].datum.id == q.datum.id
                             && ps[k].elemId == q.elemId && ps[k].r == q.r && ps[k].opacity == q.opacity
  {
    ReconcileAt(ps, data, b, w, h, next, p);
  }

  /** Points never share an element: uids stay distinct and new ones are fresh. */
  lemma ReconcileUids(ps: seq<Point>, data: seq<Datum>, b: Bounds, w: real, h: real, next: nat)
    requires UidsDistinct(ps) && UidsBelow(ps, next)
    ensures UidsDistinct(Reconcile(ps, data, b, w, h, next))
    ensures UidsBelow(Reconcile(ps, data, b, w, h, next), next + |data|)
  {
    var nk, dk := Keys(ps), Ids(data);
    var r := Reconcile(ps, data, b, w, h, next);
    var o := Order(ps, data);
    forall p | 0 <= p < |r| ensures r[p].uid == (match Match(nk, dk, o[p]) case Some(k) => ps[k].uid case None => next + o[p]) {
      ReconcileAt(ps, data, b, w, h, next, p);
    }
    forall p, q | 0 <= p < q < |r| ensures r[p].uid != r[q].uid {
      assert o[p] != o[q];
    }
  }

  /** Exactly the points no datum claims exit, each shrunk to radius 0 and opacity 0. */
  lemma ExitsIff(ps: seq<Point>, data: seq<Datum>, k: nat)
    requires k < |ps|
    ensures MatchOf(Keys(ps), Ids(data), k).None? <==>
            !(FirstIndex(Keys(ps), ps[k].datum.id) == Some(k) && ps[k].datum.id in Ids(data))
    ensures MatchOf(Keys(ps), Ids(data), k).None? ==> Shrunk(ps[k]) in Exits(ps, data)
  {
    KeptIff(Keys(ps), Ids(data), k);
    ExitsMembers(ps, data, Shrunk(ps[k]));
  }

  /** Updating twice with the same data, ids distinct, is updating once: every point
      is claimed by its own datum again, nothing enters and nothing exits. */
  lemma {:induction false} ReconcileIdempotent(ps: seq<Point>, data: seq<Datum>, b: Bounds, w: real, h: real, n1: nat, n2: nat)
    requires Distinct(Ids(data))
    ensures Reconcile(Reconcile(ps, data, b, w, h, n1), data, b, w, h, n2) == Reconcile(ps, data, b, w, h, n1)
    ensures Exits(Reconcile(ps, data, b, w, h, n1), data) == []
  {
    var r := Reconcile(ps, data, b, w, h, n1);
    var nk, dk := Keys(r), Ids(data);
    var o := Order(ps, data);
    ReconcileKeys(ps, data, b, w, h, n1);
    ReconcileDatum(ps, data, b, w, h, n1);
    ReconcileOnePerId(ps, data, b, w, h, n1);
    forall i | 0 <= i < |dk| ensures Match(nk, dk, i).Some? {
      FirstIndexIff(dk, dk[i], i);
    }
    forall p | 0 <= p < |nk| ensures MatchOf(nk, dk, p) == Some(o[p]) {
      FirstIndexIff(nk, nk[p], p);
      FirstIndexIff(dk, nk[p], o[p]);
    }
    OriginsAllClaimed(nk, dk, 0);
    assert Order(r, data) == o;
    forall p | 0 <= p < |r| ensures Reconcile(r, data, b, w, h, n2)[p] == r[p] {
      ReconcileAt(r, data, b, w, h, n2, p);
      ReconcileAt(ps, data, b, w, h, n1, p);
      MatchDual(nk, dk, o[p], p);
    }
    NoExits(r, data);
  }

  /** Nothing exits when every point is claimed. */
  lemma NoExits(ps: seq<Point>, data: seq<Datum>)
    requires forall j :: 0 <= j < |ps| ==> MatchOf(Keys(ps), Ids(data), j).Some?
    ensures Exits(ps, data) == []
  {
    GoneNone(ps, Unclaimed(ps, data), 0);
  }


  /** With distinct ids, one point per id. */
  lemma ReconcileOnePerId(ps: seq<Point>, data: seq<Datum>, b: Bounds, w: real, h: real, next: nat)
    requires Distinct(Ids(data))
    ensures Distinct(Keys(Reconcile(ps, data, b, w, h, next)))
  {
    var r := Reconcile(ps, data, b, w, h, next);
    var o := Order(ps, data);
    ReconcileDatum(ps, data, b, w, h, next);
    forall p, q | 0 <= p < q < |r| ensures Keys(r)[p] != Keys(r)[q] {
      assert o[p] != o[q];
    }
  }

  // ---------------------------------------------------------------- the plot

  /** The svg of one scatter plot and the points in it. `removed` holds the points the
      last update took out, in their final state. */
  class Plot {
    var width: Option<real>
    var height: Option<real>
    var points: seq<Point>
    var removed: seq<Point>
    var nextUid: nat

    ghost predicate Valid()
      reads this
    {
      UidsDistinct(points) && UidsBelow(points, nextUid)
    }

    /** `d3.select(container).append('svg')`: an empty svg without size. */
    constructor()
      ensures Valid()
      ensures width.None? && height.None? && points == [] && removed == []
    {
      width, height, points, removed, nextUid := None, None, [], [], 0;
    }

    /** `update(args)`. A given width or height is stored on the svg, a missing one
        is read back from it; this happens first, so it stays even when the bounds
        then cannot be found and the call throws (`ok` false, points untouched).
        With data the points are joined by id; without, they are moved to their own
        data's positions. */
    method Update(a: UpdateArgs) returns (ok: bool)
      requires Valid()
      modifies this
      ensures Valid()
      ensures width == (if a.width.Some? then a.width else old(width))
      ensures height == (if a.height.Some? then a.height else old(height))
      ensures ok <==> ResolveBounds(a).Some?
      ensures !ok ==> points == old(points) && removed == old(removed) && nextUid == old(nextUid)
      ensures ok && a.data.Some? ==>
                && points == Reconcile(old(points), a.data.value, ResolveBounds(a).value,
                                       StoredSize(width), StoredSize(height), old(nextUid))
                && removed == Exits(old(points), a.data.value)
                && nextUid == old(nextUid) + |a.data.value|
      ensures ok && a.data.None? ==>
                && points == Repositioned(old(points), ResolveBounds(a).value, StoredSize(width), StoredSize(height))
                && removed == [] && nextUid == old(nextUid)
    {
      if a.width.Some? {
        width := a.width;
      }
      if a.height.Some? {
        height := a.height;
      }
      var bounds := ResolveBounds(a);
      if bounds.None? {
        return false;
      }
      var w, h := StoredSize(width), StoredSize(height);
      if a.data.Some? {
        ReconcileUids(points, a.data.value, bounds.value, w, h, nextUid);
        removed := Exits(points, a.data.value);
        points := Reconcile(points, a.data.value, bounds.value, w, h, nextUid);
        nextUid := nextUid + |a.data.value|;
      } else {
        points := Repositioned(points, bounds.value, w, h);
        removed := [];
      }
      return true;
    }
  }

  /** `scatterPlot({container, ...props})`: a new svg, updated once with `props`. */
  method Create(a: UpdateArgs) returns (plot: Plot, ok: bool)
    ensures fresh(plot) && plot.Valid()
    ensures ok <==> ResolveBounds(a).Some?
    ensures plot.width == a.width && plot.height == a.height
    ensures ok && a.data.Some? ==> |plot.points| == |a.data.value|
    ensures ok && a.data.Some? ==> forall i :: 0 <= i < |plot.points| ==>
              var q := plot.points[i];
              q.elemId == "id" + q.datum.id && q.r == PointRadius && q.opacity == 1.0
    ensures !ok || a.data.None? ==> plot.points == [] && plot.removed == []
  {
    plot := new Plot();
    ok := plot.Update(a);
    if ok && a.data.Some? {
      forall i | 0 <= i < |plot.points|
        ensures var q := plot.points[i]; q.elemId == "id" + q.datum.id && q.r == PointRadius && q.opacity == 1.0
      {
        ReconcileOrigin([], a.data.value, ResolveBounds(a).value, StoredSize(plot.width), StoredSize(plot.height), 0, i);
      }
    }
  }
}
