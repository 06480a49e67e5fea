/**
 * The state of the App component (src/App.jsx) and the three handlers that
 * change it: selecting a file for a slot, resetting the grid, and generating
 * the composite image. Browser callbacks whose outcome the app only reacts
 * to (the FileReader, window.confirm, decoding each picture) are inputs.
 */
module App {
  import opened Wrappers
  import opened Media
  import opened Layout
  import opened Geometry
  import opened Canvas
  import opened Progress
  import opened Grid
  import opened Composite

  /** The transient error notices. */
  datatype Notice =
    | FileTooLarge   // the picture file is over the size limit
    | ReadFailed     // the FileReader could not read the file
    | NoImage        // generating was asked for with every slot empty

  /** A file chosen in a slot's file picker; only its size matters before reading. */
  datatype SelectedFile = SelectedFile(size: nat)

  class App {
    var images: seq<Option<DataUrl>>
    var isGenerating: bool
    var previewUrl: Option<Raster>
    var error: Option<Notice>
    var progress: nat
    /** Every value passed to setProgress, oldest first. */
    ghost var progressLog: seq<nat>

    ghost predicate Valid()
      reads this
    {
      |images| == CellCount
    }

    /** The initial state: nine empty slots, idle, no preview, no notice, progress 0. */
    constructor ()
      ensures Valid()
      ensures images == EmptyGrid() && !isGenerating && previewUrl == None && error == None
      ensures progress == 0 && progressLog == []
    {
      images := EmptyGrid();
      isGenerating := false;
      previewUrl := None;
      error := None;
      progress := 0;
      progressLog := [];
    }

    /**
     * handleImageChange: `file` is the picked file (None when the picker was
     * dismissed) and `read` what the FileReader then produced (None when it
     * reported an error).
     */
    method HandleImageChange(index: nat, file: Option<SelectedFile>, read: Option<DataUrl>)
      requires Valid() && index < CellCount
      modifies this`images, this`error
      ensures Valid()
      ensures file.None? ==> images == old(images) && error == old(error)
      ensures file.Some? && !FileAccepted(file.value.size) ==>
        images == old(images) && error == Some(FileTooLarge)
      ensures file.Some? && FileAccepted(file.value.size) && read.Some? ==>
        images == WithSlot(old(images), index, read.value) && error == old(error)
      ensures file.Some? && FileAccepted(file.value.size) && read.None? ==>
        images == old(images) && error == Some(ReadFailed)
    {
      if file.None? {
        return;
      }
      if !FileAccepted(file.value.size) {
        error := Some(FileTooLarge);
        return;
      }
      match read {
        case Some(src) =>
          images := WithSlot(images, index, src);
        case None =>
          error := Some(ReadFailed);
      }
    }

    /** resetGrid: `confirmed` is the user's answer to the confirmation prompt. */
    method ResetGrid(confirmed: bool)
      requires Valid()
      modifies this`images, this`previewUrl
      ensures Valid()
      ensures confirmed ==> images == EmptyGrid() && previewUrl == None
      ensures !confirmed ==> images == old(images) && previewUrl == old(previewUrl)
    {
      if confirmed {
        images := EmptyGrid();
        previewUrl := None;
      }
    }

    method SetProgress(p: nat)
      modifies this`progress, this`progressLog
      ensures progress == p && progressLog == old(progressLog) + [p]
    {
      progress := p;
      progressLog := progressLog + [p];
    }

    /**
     * generateImage: `decodes[i]` is the outcome of decoding slot i's picture
     * (None when the image fails to load); it is consulted only for filled
     * slots. With every slot empty, only the NoImage notice is raised.
     * Otherwise the nine cells are drawn in order, progress is reported after
     * each, and the preview becomes the 1580 x 1580 composite.
     */
    method GenerateImage(decodes: seq<Option<Dims>>) returns (started: bool)
      requires Valid() && |decodes| == CellCount
      modifies this
      ensures Valid() && images == old(images)
      ensures started == HasImage(old(images))
      ensures !started ==>
        error == Some(NoImage) && isGenerating == old(isGenerating) && previewUrl == old(previewUrl) &&
        progress == old(progress) && progressLog == old(progressLog)
      ensures started ==>
        error == old(error) && !isGenerating && progress == 100 &&
        progressLog == old(progressLog) + [0] + Trace(CellCount) &&
        previewUrl == Some(Raster(Side(), Side(), CompositeTrace(images, decodes)))
    {
      if !HasImage(images) {
        error := Some(NoImage);
        return false;
      }
      started := true;
      isGenerating := true;
      SetProgress(0);
      var side := CanvasSide(CellSize, Gap);
      var ctx: Context := new Context(side, side);
      ctx.SetFillStyle(White);
      ctx.FillRect(0.0, 0.0, ctx.width as real, ctx.height as real);
      assert ctx.cmds == [RectFill(Rect(0.0, 0.0, Side() as real, Side() as real), White)];
      DrawCells(ctx, images, decodes);
      assert ctx.cmds == CompositeTrace(images, decodes);
      var url := ctx.ToDataUrl();
      previewUrl := Some(url);
      isGenerating := false;
    }

    /**
     * The cell loop of generateImage: draws cells 0..8 in index order and
     * reports the progress after each, whatever each cell's outcome.
     */
    method DrawCells(ctx: Context, slots: seq<Option<DataUrl>>, decodes: seq<Option<Dims>>)
      requires |slots| == CellCount && |decodes| == CellCount
      modifies this`progress, this`progressLog, ctx`cmds, ctx`path, ctx`fillStyle
      ensures ctx.cmds == old(ctx.cmds) + CellsTrace(slots, decodes, |slots|)
      ensures progress == Percent(CellCount) && progressLog == old(progressLog) + Trace(CellCount)
      ensures ctx.path == CellPath(CellCount - 1)
    {
      for i := 0 to CellCount
        invariant ctx.cmds == old(ctx.cmds) + CellsTrace(slots, decodes, i)
        invariant progressLog == old(progressLog) + Trace(i)
        invariant i > 0 ==> progress == Percent(i)
        invariant i > 0 ==> ctx.path == CellPath(i - 1)
      {
        ghost var block := CellCommands(i, slots[i], decodes[i]);
        PaintCell(ctx, i, slots[i], decodes[i]);
        CellsTraceStep(slots, decodes, i);
        AppendAssoc(old(ctx.cmds), CellsTrace(slots, decodes, i), block);
        SetProgress(Percent(i + 1));
        AppendAssoc(old(progressLog), Trace(i), [Percent(i + 1)]);
      }
    }
  }

  /**
   * One iteration of generateImage's cell loop: draws cell i for its slot and,
   * for a filled slot, the outcome of decoding its picture.
   */
  method PaintCell(ctx: Context, i: nat, slot: Option<DataUrl>, decoded: Option<Dims>)
    requires i < CellCount
    modifies ctx`cmds, ctx`path, ctx`fillStyle
    ensures ctx.cmds == old(ctx.cmds) + CellCommands(i, slot, decoded)
    ensures ctx.path == CellPath(i)
    ensures ctx.fillStyle == if slot.None? then Slate50 else if decoded.None? then Red100 else old(ctx.fillStyle)
  {
    var x := CellX(i, CellSize, Gap) as real;
    var y := CellY(i, CellSize, Gap) as real;
    var size := CellSize as real;
    var radius := CornerRadius as real;
    match slot {
      case None =>
        ctx.SetFillStyle(Slate50);
        DrawRoundedRect(ctx, x, y, size, size, radius);
        ctx.Fill();
      case Some(src) =>
        match decoded {
          case Some(img) =>
            ctx.Save();
            DrawRoundedRect(ctx, x, y, size, size, radius);
            ctx.Clip();
            var fit := CoverFit(img.width, img.height, x, y, size);
            ctx.DrawImage(src, fit.x, fit.y, fit.w, fit.h);
            ctx.Restore();
          case None =>
            ctx.SetFillStyle(Red100);
            DrawRoundedRect(ctx, x, y, size, size, radius);
            ctx.Fill();
        }
    }
  }

  /** Sequence concatenation regroups; stated once so the loop need not re-derive it. */
  lemma AppendAssoc<T>(a: seq<T>, b: seq<T>, c: seq<T>)
    ensures a + (b + c) == (a + b) + c
  {
  }
}
