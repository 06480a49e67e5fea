/**
 * The nine grid slots of the app (the `images` state of src/App.jsx): each
 * slot is empty or holds the data URL of a selected picture.
 */
module Grid {
  import opened Wrappers
  import opened Media
  import opened Layout

  /** Largest accepted file: 15 MiB. */
  const MaxFileBytes: nat := 15 * 1024 * 1024

  /** A file is read only if it is at most 15 MiB. */
  predicate FileAccepted(size: nat) {
    size <= MaxFileBytes
  }

  /** The size check accepts exactly 15 MiB and rejects one byte more. */
  lemma SizeLimitBoundary()
    ensures FileAccepted(15728640) && !FileAccepted(15728641)
  {
  }

  /** Array(9).fill(null): nine empty slots. */
  function EmptyGrid(): (g: seq<Option<DataUrl>>)
    ensures |g| == CellCount
    ensures forall i :: 0 <= i < |g| ==> g[i].None?
  {
    seq(CellCount, _ => None)
  }

  /** images.some(img => img !== null): some slot holds a picture. */
  function HasImage(g: seq<Option<DataUrl>>): (b: bool)
    ensures b <==> exists i :: 0 <= i < |g| && g[i].Some?
  {
    if g == [] then false
    else if g[0].Some? then true
    else
      var rest := HasImage(g[1..]);
      assert forall i :: 1 <= i < |g| ==> g[i] == g[1..][i - 1];
      rest
  }

  /** The grid after a picture was loaded into slot `index`: a copy with that one slot replaced. */
  function WithSlot(g: seq<Option<DataUrl>>, index: nat, src: DataUrl): (r: seq<Option<DataUrl>>)
    requires index < |g|
    ensures |r| == |g|
    ensures r[index] == Some(src)
    ensures forall j :: 0 <= j < |g| && j != index ==> r[j] == g[j]
  {
    g[index := Some(src)]
  }

  /** A cleared grid has nothing to compose; a grid with a loaded picture does. */
  lemma GuardAfterUpdates(g: seq<Option<DataUrl>>, index: nat, src: DataUrl)
    requires index < |g|
    ensures !HasImage(EmptyGrid())
    ensures HasImage(WithSlot(g, index, src))
  {
  }
}
