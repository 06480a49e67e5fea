# Color Walk collage compositor, modelled in Dafny

Color Walk is a single React component (`src/App.jsx`) in which a user fills a
3x3 grid with photos and saves them as one square collage. This project models
the component's logic:

- the nine grid slots and the handlers that change them: selecting a file for a
  slot (with its 15 MiB size limit) and resetting the grid;
- `generateImage`: the empty-grid guard, the layout of the nine 500 px cells
  with 20 px gaps on a 1580 px canvas, the rounded-square path of
  `drawRoundedRect`, the cover-fit rectangle of each picture, the per-cell
  fallback to a placeholder or error fill, and the progress reported after each
  cell.

Modules, one file each:

| module | what it holds |
|---|---|
| `Wrappers` | `Option` |
| `Media` | data URLs and decoded picture sizes |
| `Layout` | integer cell arithmetic (row, column, position, canvas side) |
| `Geometry` | rectangles and the cover-fit calculation, over exact reals |
| `Progress` | the percentage reported after each cell |
| `Canvas` | a recording 2D context (`Context` class: fill colour, current path, drawn commands) and `DrawRoundedRect` |
| `Grid` | the nine slots: empty grid, "has an image", replace one slot, the size limit |
| `Composite` | the drawing `generateImage` produces, as functions of slots and decode outcomes, with what it shows per cell |
| `App` | the `App` class holding the component's state, with `HandleImageChange`, `ResetGrid` and `GenerateImage` |

The canvas is modelled by the commands it receives (`RectFill`, `PathFill`,
`SaveState`, `ClipPath`, `ImageDraw`, `RestoreState`), each fill carrying the
current path and fill colour. `GenerateImage` drives a fresh `Context` through
the same calls as the source and is proved to leave exactly
`CompositeTrace(slots, decodes)` in the preview; the properties of that trace
are lemmas in `Composite`, `Geometry`, `Layout` and `Progress`.

Inputs that come from the browser are parameters: the picked file and what the
FileReader returned (`HandleImageChange`), the answer to the confirmation prompt
(`ResetGrid`), and for each slot whether its picture decoded and at what size
(`GenerateImage`, `decodes[i]`). The exported image is the canvas size plus its
command list (`Raster`).

The canvas side is `3 * 500 + 4 * 20 = 1580` (src/App.jsx:79), with one gap
before, between and after the cells. The division at src/App.jsx:99 is
unguarded, so the cover fit is defined only for positive picture sizes.

Progress `Math.round((i + 1) / 9 * 100)` is written exactly as
`(200 * (i + 1) + 9) / 18`; `Progress.PercentIsRoundedShare` proves this is the
round-half-up of `100 * (i + 1) / 9`. Since the fractional part of `100 * k / 9` is a multiple of 1/9, it is always
at least 1/18 away from a half, so the source's double arithmetic rounds to the
same values.

## Model

| member | source | states |
|---|---|---|
| `Layout.CellInsideCanvas` | src/App.jsx:77-88 | for cells 0..8 and any cell size and gap, the cell square lies inside the canvas square of side `3*cellSize + 4*gap`; the first column/row starts at `gap`, the last ends exactly `gap` before the canvas edge |
| `Layout.CellsDisjoint` | src/App.jsx:84-88 | two distinct cell indices give disjoint squares |
| `Layout.NeighboursOneGapApart` | src/App.jsx:84-88 | cell i+1 in the same row starts `cellSize + gap` right of cell i at the same height; cell i+3 starts `cellSize + gap` below at the same column |
| `Layout.AppLayout` | src/App.jsx:77-81 | with 500/20 the canvas is 1580 px and the columns start at 20, 540 and 1060 |
| `Geometry.CoverFitCoversCentredUndistorted` | src/App.jsx:99-111 | for positive picture sizes the fitted rectangle covers the cell, has the cell's centre, keeps `dw * height == dh * width`, has the cell side as its shorter side, and is the cell itself for a square picture |
| `Geometry.CoverFitExamples` | src/App.jsx:99-111 | aspect 2 gives a 1000 x 500 draw shifted 250 left, aspect 1/2 a 500 x 1000 draw shifted 250 up, aspect 1 the cell |
| `Progress.PercentIsRoundedShare` | src/App.jsx:120 | the integer formula equals Math.round of `100 * done / 9` |
| `Progress.PercentStrictlyIncreasing` | src/App.jsx:120 | more finished cells report a strictly higher percentage |
| `Progress.Trace` | src/App.jsx:84-121 | the values reported after cells 1..n are `Percent(1) .. Percent(n)`, n of them |
| `Progress.RunTraceIncreasesToHundred` | src/App.jsx:73-120 | a run reports 0 then nine values: ten values, strictly increasing, last 100 |
| `Canvas.RoundedRectPathShape` | src/App.jsx:43-55 | the path starts at (x+r, y), its last curve returns there before the close, its four curves have the rectangle's corners as control points, and for `0 <= r <= w, h` every point lies in the rectangle |
| `Canvas.DrawRoundedRect` | src/App.jsx:43-55 | drawing the rounded rectangle leaves exactly `RoundedRectPath(x, y, w, h, r)` as the context's current path and changes nothing else |
| `Composite.OneOutcomePerCell` | src/App.jsx:89-118 | each cell's commands paint exactly one outcome: a placeholder fill for an empty slot, one image draw for a filled slot that decodes, an error fill for one that does not |
| `Composite.TraceTally` | src/App.jsx:84-121 | the commands for cells 0..n-1 paint each outcome exactly as many times as those slots call for it |
| `Composite.CompositeTally` | src/App.jsx:82-121 | the whole drawing shows one outcome per cell, nine in all, one error fill per undecodable picture, never aborting |
| `Composite.CellPaintConfined` | src/App.jsx:89-118 | every fill or clip path of cell i lies inside cell i's square, and a drawn picture covers that square and is centred on it |
| `Grid.EmptyGrid` | src/App.jsx:5 | the initial and reset grid has nine slots, all empty |
| `Grid.HasImage` | src/App.jsx:67 | true exactly when some slot holds a picture |
| `Grid.WithSlot` | src/App.jsx:28-30 | the updated grid has the same length, the new picture at `index`, and every other slot unchanged |
| `Grid.SizeLimitBoundary` | src/App.jsx:22-25 | a file of exactly 15 MiB is accepted and one byte more is rejected |
| `Grid.GuardAfterUpdates` | src/App.jsx:28-38 | a reset grid fails the generate guard; a grid with a loaded picture passes it |
| `App.App.constructor` | src/App.jsx:5-9 | initial state: nine empty slots, not generating, no preview, no error, progress 0 |
| `App.App.HandleImageChange` | src/App.jsx:19-34 | no file: nothing changes; over 15 MiB: too-large notice, slots unchanged; read succeeds: only slot `index` changes; read fails: read-failed notice, slots unchanged |
| `App.App.ResetGrid` | src/App.jsx:36-41 | when confirmed, all nine slots become empty and the preview is cleared; otherwise nothing changes |
| `App.App.GenerateImage` | src/App.jsx:66-129 | empty grid: only the no-image notice, no progress, no generating state, no preview change; otherwise progress log is `0` then the nine percentages, progress ends at 100, generating ends false, the slots are unchanged and the preview is the 1580 x 1580 `CompositeTrace` |
| `App.App.DrawCells` | src/App.jsx:84-121 | the loop appends the nine cell blocks in index order and reports `Percent(i + 1)` after cell i, whatever each outcome |
| `App.PaintCell` | src/App.jsx:85-119 | one iteration appends exactly `CellCommands(i, slot, decoded)`: placeholder fill, or save/clip/cover-fitted draw/restore, or error fill |

## Left out

- Rendering of the page, styling, buttons and the preview dialog (src/App.jsx:131-204): user interface only; closing the preview is not modelled.
- The 4-second auto-dismiss of error notices (src/App.jsx:12-17): a timer effect.
- FileReader and Image decoding (src/App.jsx:26-33, 57-64): browser I/O; their outcomes are inputs. The data URL a FileReader produces is treated as never empty, so `!images[i]` and `img !== null` agree.
- Pixels, clipping semantics and PNG encoding (src/App.jsx:75-83, 112, 122): foreign canvas work, recorded as abstract commands; the saved state stack of `save`/`restore` is recorded, not simulated.
- The outer failure path (src/App.jsx:124-125, a "save failed" notice when the canvas itself fails): canvas availability is not modelled, so every non-empty run completes.
- A `drawImage` that throws after `save` (src/App.jsx:112): the model assumes drawing a decoded picture does not throw.
- Geometry.CoverFitCoversCentredUndistorted: only for positive picture width and height; the source would compute Infinity or NaN geometry for a zero-sized picture, which a canvas then ignores. Decoded sizes are positive (`Media.Pixels`).
- IEEE-754 rounding of the cover-fit division: the geometry is exact real arithmetic.
- The confirmation prompt is an input to `ResetGrid`; overlapping asynchronous file reads, where two quick selections each copy the same old grid and the later overwrites the earlier, are not modelled (one read is applied at a time).
