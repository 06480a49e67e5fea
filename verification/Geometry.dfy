/**
 * Cover fitting (generateImage in src/App.jsx): scale a picture so that it
 * fills a square cell without distortion, centred, cropping what overflows.
 * The source computes in IEEE doubles; here the geometry is exact.
 */
module Geometry {
  /** A rectangle with top-left corner (x, y), width w and height h. */
  datatype Rect = Rect(x: real, y: real, w: real, h: real)

  /** Rectangle `r` covers rectangle `cell` entirely. */
  predicate Covers(r: Rect, cell: Rect) {
    r.x <= cell.x && r.y <= cell.y && cell.x + cell.w <= r.x + r.w && cell.y + cell.h <= r.y + r.h
  }

  /** Rectangles `r` and `cell` have the same centre. */
  predicate Centred(r: Rect, cell: Rect) {
    r.x + r.w / 2.0 == cell.x + cell.w / 2.0 && r.y + r.h / 2.0 == cell.y + cell.h / 2.0
  }

  /**
   * The rectangle into which a width x height picture is drawn for the square
   * cell at (x, y) of side `size`: a landscape picture (aspect above 1) gets
   * the cell's height, any other the cell's width, and the other side follows
   * the picture's aspect ratio.
   */
  function CoverFit(width: nat, height: nat, x: real, y: real, size: real): Rect
    requires width > 0 && height > 0
  {
    var aspect := width as real / height as real;
    if aspect > 1.0 then
      var dw := size * aspect;
      Rect(x - (dw - size) / 2.0, y, dw, size)
    else
      var dh := size / aspect;
      Rect(x, y - (dh - size) / 2.0, size, dh)
  }

  /**
   * The fitted rectangle covers the cell, is centred on it, keeps the
   * picture's aspect ratio, has the cell's side as its shorter side, and is
   * the cell itself for a square picture.
   */
  lemma CoverFitCoversCentredUndistorted(width: nat, height: nat, x: real, y: real, size: real)
    requires width > 0 && height > 0 && size >= 0.0
    ensures var r := CoverFit(width, height, x, y, size);
      && Covers(r, Rect(x, y, size, size))
      && Centred(r, Rect(x, y, size, size))
      && r.w * height as real == r.h * width as real
      && ((r.w == size && r.h >= size) || (r.h == size && r.w >= size))
      && (width == height ==> r == Rect(x, y, size, size))
  {
    var aspect := width as real / height as real;
    if aspect > 1.0 {
      var dw := size * aspect;
      assert dw * height as real == size * width as real;
    } else {
      var dh := size / aspect;
      assert dh * aspect == size;
      assert dh * width as real == dh * aspect * height as real;
    }
  }

  /** The three worked cases of a 500 px cell: aspect 2, aspect 1/2 and a square picture. */
  lemma CoverFitExamples(x: real, y: real)
    ensures CoverFit(2, 1, x, y, 500.0) == Rect(x - 250.0, y, 1000.0, 500.0)
    ensures CoverFit(1, 2, x, y, 500.0) == Rect(x, y - 250.0, 500.0, 1000.0)
    ensures CoverFit(7, 7, x, y, 500.0) == Rect(x, y, 500.0, 500.0)
  {
  }
}
