/**
 * A 2D canvas context reduced to what the app does with it: every fill,
 * clip and image draw is recorded as a command, together with the current
 * path that fills and clips use. Pixels are not modelled.
 */
module Canvas {
  import opened Media
  import opened Geometry

  /** The fill colours in use: the default black and the app's three fills. */
  datatype Color =
    | Black    // #000000, a fresh context's fillStyle
    | White    // #FFFFFF, the background
    | Slate50  // #F8FAFC, an empty cell
    | Red100   // #FEE2E2, a cell whose picture failed to load

  /** One element of a path. */
  datatype Seg =
    | MoveTo(x: real, y: real)
    | LineTo(x: real, y: real)
    | QuadTo(cx: real, cy: real, x: real, y: real)
    | Close

  /** One drawing operation, as the canvas receives it. */
  datatype Cmd =
    | RectFill(r: Rect, color: Color)
    | PathFill(path: seq<Seg>, color: Color)
    | SaveState
    | ClipPath(path: seq<Seg>)
    | ImageDraw(src: DataUrl, r: Rect)
    | RestoreState

  /** An exported image: its size and the drawing that produced it. */
  datatype Raster = Raster(width: int, height: int, cmds: seq<Cmd>)

  /** The point a segment ends at, if it moves the pen. */
  predicate EndsAt(s: Seg, x: real, y: real) {
    match s
    case MoveTo(px, py) => px == x && py == y
    case LineTo(px, py) => px == x && py == y
    case QuadTo(_, _, px, py) => px == x && py == y
    case Close => false
  }

  /** Every point of segment s (end point and control point) lies in the box. */
  predicate SegWithin(s: Seg, box: Rect) {
    match s
    case MoveTo(x, y) => InBox(x, y, box)
    case LineTo(x, y) => InBox(x, y, box)
    case QuadTo(cx, cy, x, y) => InBox(cx, cy, box) && InBox(x, y, box)
    case Close => true
  }

  predicate InBox(x: real, y: real, box: Rect) {
    box.x <= x <= box.x + box.w && box.y <= y <= box.y + box.h
  }

  /**
   * Every point of the path lies in the box. Lines and quadratic curves stay
   * in the convex hull of their points, so the region the path encloses does
   * too.
   */
  predicate PathWithin(p: seq<Seg>, box: Rect) {
    forall k :: 0 <= k < |p| ==> SegWithin(p[k], box)
  }

  /**
   * The path drawRoundedRect builds: four straight edges inset by r from the
   * corners, joined by quadratic curves whose control points are the corners.
   */
  function RoundedRectPath(x: real, y: real, w: real, h: real, r: real): seq<Seg> {
    [ MoveTo(x + r, y),
      LineTo(x + w - r, y),
      QuadTo(x + w, y, x + w, y + r),
      LineTo(x + w, y + h - r),
      QuadTo(x + w, y + h, x + w - r, y + h),
      LineTo(x + r, y + h),
      QuadTo(x, y + h, x, y + h - r),
      LineTo(x, y + r),
      QuadTo(x, y, x + r, y),
      Close ]
  }

  /**
   * The rounded rectangle path starts at (x + r, y), returns there with its
   * last curve and is then closed; its four curves bend at the four corners
   * of the rectangle; and for a radius between 0 and both sides it stays
   * inside the rectangle.
   */
  lemma RoundedRectPathShape(x: real, y: real, w: real, h: real, r: real)
    ensures var p := RoundedRectPath(x, y, w, h, r);
      && |p| == 10 && p[0] == MoveTo(x + r, y) && p[9] == Close
      && EndsAt(p[8], x + r, y)
      && p[2].QuadTo? && p[2].cx == x + w && p[2].cy == y
      && p[4].QuadTo? && p[4].cx == x + w && p[4].cy == y + h
      && p[6].QuadTo? && p[6].cx == x && p[6].cy == y + h
      && p[8].QuadTo? && p[8].cx == x && p[8].cy == y
      && (0.0 <= r <= w && r <= h ==> PathWithin(p, Rect(x, y, w, h)))
  {
  }

  /** The drawing context of one canvas. */
  class Context {
    const width: int
    const height: int
    var fillStyle: Color
    /** The current path, as built since the last beginPath. */
    var path: seq<Seg>
    /** Everything drawn so far, oldest first. */
    var cmds: seq<Cmd>

    /** A canvas of the given size with an empty drawing. */
    constructor (width: int, height: int)
      ensures this.width == width && this.height == height
      ensures fillStyle == Black && path == [] && cmds == []
    {
      this.width := width;
      this.height := height;
      fillStyle := Black;
      path := [];
      cmds := [];
    }

    method SetFillStyle(c: Color)
      modifies this`fillStyle
      ensures fillStyle == c
    {
      fillStyle := c;
    }

    method FillRect(x: real, y: real, w: real, h: real)
      modifies this`cmds
      ensures cmds == old(cmds) + [RectFill(Rect(x, y, w, h), fillStyle)]
    {
      cmds := cmds + [RectFill(Rect(x, y, w, h), fillStyle)];
    }

    method BeginPath()
      modifies this`path
      ensures path == []
    {
      path := [];
    }

    method MoveTo(x: real, y: real)
      modifies this`path
      ensures path == old(path) + [Seg.MoveTo(x, y)]
    {
      path := path + [Seg.MoveTo(x, y)];
    }

    method LineTo(x: real, y: real)
      modifies this`path
      ensures path == old(path) + [Seg.LineTo(x, y)]
    {
      path := path + [Seg.LineTo(x, y)];
    }

    method QuadraticCurveTo(cx: real, cy: real, x: real, y: real)
      modifies this`path
      ensures path == old(path) + [QuadTo(cx, cy, x, y)]
    {
      path := path + [QuadTo(cx, cy, x, y)];
    }

    method ClosePath()
      modifies this`path
      ensures path == old(path) + [Close]
    {
      path := path + [Close];
    }

    /** Fills the current path with the current fill colour. */
    method Fill()
      modifies this`cmds
      ensures cmds == old(cmds) + [PathFill(path, fillStyle)]
    {
      cmds := cmds + [PathFill(path, fillStyle)];
    }

    method Save()
      modifies this`cmds
      ensures cmds == old(cmds) + [SaveState]
    {
      cmds := cmds + [SaveState];
    }

    /** Restricts later drawing to the current path. */
    method Clip()
      modifies this`cmds
      ensures cmds == old(cmds) + [ClipPath(path)]
    {
      cmds := cmds + [ClipPath(path)];
    }

    method Restore()
      modifies this`cmds
      ensures cmds == old(cmds) + [RestoreState]
    {
      cmds := cmds + [RestoreState];
    }

    method DrawImage(src: DataUrl, dx: real, dy: real, dw: real, dh: real)
      modifies this`cmds
      ensures cmds == old(cmds) + [ImageDraw(src, Rect(dx, dy, dw, dh))]
    {
      cmds := cmds + [ImageDraw(src, Rect(dx, dy, dw, dh))];
    }

    /** Encodes the canvas; the result keeps the canvas size and drawing. */
    method ToDataUrl() returns (img: Raster)
      ensures img.width == width && img.height == height && img.cmds == cmds
    {
      img := Raster(width, height, cmds);
    }
  }

  /** drawRoundedRect: replaces ctx's current path by the rounded rectangle. */
  method DrawRoundedRect(ctx: Context, x: real, y: real, w: real, h: real, r: real)
    modifies ctx`path
    ensures ctx.path == RoundedRectPath(x, y, w, h, r)
  {
    ctx.BeginPath();
    ctx.MoveTo(x + r, y);
    ctx.LineTo(x + w - r, y);
    ctx.QuadraticCurveTo(x + w, y, x + w, y + r);
    ctx.LineTo(x + w, y + h - r);
    ctx.QuadraticCurveTo(x + w, y + h, x + w - r, y + h);
    ctx.LineTo(x + r, y + h);
    ctx.QuadraticCurveTo(x, y + h, x, y + h - r);
    ctx.LineTo(x, y + r);
    ctx.QuadraticCurveTo(x, y, x + r, y);
    ctx.ClosePath();
  }
}
