/**
 * The web viewer's store: the list of opened files (held by the file cache),
 * the selected index, the zoom scale in percent and the rotation in degrees.
 * The file cache's own work (IndexedDB, fetch) is not part of this model: its
 * `addFiles` is taken to append the new files and its `removeFile(id)` to drop
 * the file with that id.
 */
module ViewerStore {

  /** A file of the cache; an empty id is JavaScript's falsy id. */
  datatype FileEntry = FileEntry(id: string, ocrText: string)

  datatype Viewer = Viewer(files: seq<FileEntry>, selected: int, scale: int, rotation: int)

  const MinScale := 25
  const MaxScale := 500
  const ScaleStep := 25

  const FullTurn := 360

  /** JavaScript's `x % 360`: the remainder takes the sign of the dividend. */
  function JsRemTurn(a: int): (r: int)
    ensures a >= 0 ==> 0 <= r < FullTurn
    ensures a < 0 ==> -FullTurn < r <= 0
    ensures 0 <= a < FullTurn ==> r == a
    ensures FullTurn <= a < 2 * FullTurn ==> r == a - FullTurn
  {
    if a >= 0 then a % FullTurn else -((-a) % FullTurn)
  }

  /** The selection is no file (-1) or one of the files. */
  predicate SelectionValid(v: Viewer) {
    -1 <= v.selected < |v.files|
  }

  /** The store as created. */
  function Initial(): Viewer {
    Viewer([], -1, 100, 0)
  }

  function FilesAdded(v: Viewer, newFiles: seq<FileEntry>): Viewer {
    var files := v.files + newFiles;
    v.(files := files, selected := if v.selected == -1 && |files| > 0 then 0 else v.selected)
  }

  /** `files.value[index]?.id` is falsy: no file there, or an empty id. */
  predicate NoFileAt(v: Viewer, index: int) {
    !(0 <= index < |v.files|) || v.files[index].id == ""
  }

  function FileRemoved(v: Viewer, index: int): Viewer {
    if NoFileAt(v, index) then v
    else
      var files := v.files[..index] + v.files[index + 1..];
      var selected :=
        if v.selected == index then Min(|files| - 1, index)
        else if v.selected > index then v.selected - 1
        else v.selected;
      v.(files := files, selected := selected)
  }

  function Min(a: int, b: int): int {
    if a <= b then a else b
  }

  function Max(a: int, b: int): int {
    if a >= b then a else b
  }

  function FileSelected(v: Viewer, index: int): Viewer {
    v.(selected := index)
  }

  function OcrTextUpdated(v: Viewer, index: int, text: string): Viewer {
    if NoFileAt(v, index) then v
    else v.(files := v.files[index := v.files[index].(ocrText := text)])
  }

  function ZoomedIn(v: Viewer): Viewer {
    v.(scale := Min(v.scale + ScaleStep, MaxScale))
  }

  function ZoomedOut(v: Viewer): Viewer {
    v.(scale := Max(v.scale - ScaleStep, MinScale))
  }

  function FittedToWidth(v: Viewer): Viewer {
    v.(scale := 100)
  }

  function Rotated(v: Viewer): Viewer {
    v.(rotation := JsRemTurn(v.rotation + 90))
  }

  // ---------------------------------------------------------------------------
  // Properties
  // ---------------------------------------------------------------------------

  /** Adding files selects the first file exactly when nothing was selected and the list is not empty. */
  lemma AddFilesSelection(v: Viewer, newFiles: seq<FileEntry>)
    requires SelectionValid(v)
    ensures var r := FilesAdded(v, newFiles);
            SelectionValid(r) &&
            r.files[..|v.files|] == v.files &&
            (r.selected != v.selected <==> v.selected == -1 && |r.files| > 0) &&
            (r.selected != v.selected ==> r.selected == 0) &&
            (0 <= v.selected ==> r.files[r.selected] == v.files[v.selected])
  {
  }

  /** An index with no file (or a file without an id) changes nothing. */
  lemma RemoveNothing(v: Viewer, index: int)
    requires NoFileAt(v, index)
    ensures FileRemoved(v, index) == v
  {
  }

  /** Removing the selected file selects the one now at its place, or the last, or none. */
  lemma RemoveSelected(v: Viewer, index: int)
    requires !NoFileAt(v, index) && v.selected == index
    ensures var r := FileRemoved(v, index);
            |r.files| == |v.files| - 1 &&
            (r.files == [] ==> r.selected == -1) &&
            (index < |r.files| ==> r.selected == index && r.files[index] == v.files[index + 1]) &&
            (r.files != [] && index == |r.files| ==> r.selected == index - 1)
  {
  }

  /** Removing another file keeps the same file selected. */
  lemma RemoveKeepsSelectedFile(v: Viewer, index: int)
    requires !NoFileAt(v, index) && 0 <= v.selected < |v.files| && v.selected != index
    ensures var r := FileRemoved(v, index);
            0 <= r.selected < |r.files| && r.files[r.selected] == v.files[v.selected] &&
            (v.selected < index ==> r.selected == v.selected) &&
            (v.selected > index ==> r.selected == v.selected - 1)
  {
  }

  /** Removing a file drops exactly that file and keeps the others in order. */
  lemma RemoveDropsOne(v: Viewer, index: int)
    requires !NoFileAt(v, index)
    ensures var r := FileRemoved(v, index);
            |r.files| == |v.files| - 1 &&
            (forall k :: 0 <= k < index ==> r.files[k] == v.files[k]) &&
            (forall k :: index <= k < |r.files| ==> r.files[k] == v.files[k + 1]) &&
            multiset(r.files) + multiset{v.files[index]} == multiset(v.files)
  {
    var r := FileRemoved(v, index);
    assert v.files == v.files[..index] + [v.files[index]] + v.files[index + 1..];
  }

  /** Every action but `selectFile` keeps a valid selection valid; `selectFile` does for an index in range. */
  lemma SelectionStaysValid(v: Viewer, newFiles: seq<FileEntry>, index: int, text: string)
    requires SelectionValid(v)
    ensures SelectionValid(FilesAdded(v, newFiles))
    ensures SelectionValid(FileRemoved(v, index))
    ensures SelectionValid(OcrTextUpdated(v, index, text))
    ensures SelectionValid(ZoomedIn(v)) && SelectionValid(ZoomedOut(v)) && SelectionValid(FittedToWidth(v)) && SelectionValid(Rotated(v))
    ensures -1 <= index < |v.files| ==> SelectionValid(FileSelected(v, index))
  {
  }

  /** Updating a file's text changes that text and nothing else. */
  lemma UpdateOcrTextOnly(v: Viewer, index: int, text: string)
    ensures var r := OcrTextUpdated(v, index, text);
            |r.files| == |v.files| && r.selected == v.selected && r.scale == v.scale && r.rotation == v.rotation &&
            (forall k :: 0 <= k < |v.files| && k != index ==> r.files[k] == v.files[k]) &&
            (!NoFileAt(v, index) ==> r.files[index] == FileEntry(v.files[index].id, text)) &&
            (NoFileAt(v, index) ==> r == v)
  {
  }

  predicate ScaleInRange(v: Viewer) {
    MinScale <= v.scale <= MaxScale
  }

  /** Zooming keeps the scale within [25, 500]; fitting to width sets 100. */
  lemma ZoomStaysInRange(v: Viewer)
    requires ScaleInRange(v)
    ensures ScaleInRange(ZoomedIn(v)) && ZoomedIn(v).scale >= v.scale
    ensures ScaleInRange(ZoomedOut(v)) && ZoomedOut(v).scale <= v.scale
    ensures FittedToWidth(v).scale == 100 && ScaleInRange(FittedToWidth(v))
  {
  }

  /** Below the top step, zooming out undoes zooming in; above the bottom step, the reverse. */
  lemma ZoomInverse(v: Viewer)
    requires ScaleInRange(v)
    ensures v.scale + ScaleStep <= MaxScale ==> ZoomedOut(ZoomedIn(v)) == v
    ensures v.scale - ScaleStep >= MinScale ==> ZoomedIn(ZoomedOut(v)) == v
  {
  }

  predicate RightAngle(v: Viewer) {
    v.rotation == 0 || v.rotation == 90 || v.rotation == 180 || v.rotation == 270
  }

  /** `rotate` turns 0 to 90 to 180 to 270 and back to 0. */
  lemma RotateCycles(v: Viewer)
    requires RightAngle(v)
    ensures RightAngle(Rotated(v))
    ensures v.rotation < 270 ==> Rotated(v).rotation == v.rotation + 90
    ensures v.rotation == 270 ==> Rotated(v).rotation == 0
    ensures Rotated(Rotated(Rotated(Rotated(v)))) == v
  {
  }

  /** The initial store has no files, selects nothing, has scale 100 and no rotation, and is valid. */
  lemma InitialValid()
    ensures Initial() == Viewer([], -1, 100, 0)
    ensures SelectionValid(Initial()) && ScaleInRange(Initial()) && RightAngle(Initial())
  {
  }

  // ---------------------------------------------------------------------------
  // The store
  // ---------------------------------------------------------------------------

  class Store {
    var files: seq<FileEntry>
    var selectedIndex: int
    var scale: int
    var rotation: int

    function Model(): Viewer
      reads this
    {
      Viewer(files, selectedIndex, scale, rotation)
    }

    constructor ()
      ensures Model() == Initial()
    {
      files := [];
      selectedIndex := -1;
      scale := 100;
      rotation := 0;
    }

    method AddFiles(newFiles: seq<FileEntry>)
      modifies this
      ensures Model() == FilesAdded(old(Model()), newFiles)
    {
      files := files + newFiles;
      if selectedIndex == -1 && |files| > 0 {
        selectedIndex := 0;
      }
    }

    method RemoveFile(index: int)
      modifies this
      ensures Model() == FileRemoved(old(Model()), index)
    {
      if !(0 <= index < |files|) || files[index].id == "" {
        return;
      }
      files := files[..index] + files[index + 1..];
      if selectedIndex == index {
        selectedIndex := Min(|files| - 1, index);
      } else if selectedIndex > index {
        selectedIndex := selectedIndex - 1;
      }
    }

    method SelectFile(index: int)
      modifies this
      ensures Model() == FileSelected(old(Model()), index)
    {
      selectedIndex := index;
    }

    method UpdateOcrText(index: int, text: string)
      modifies this
      ensures Model() == OcrTextUpdated(old(Model()), index, text)
    {
      if 0 <= index < |files| && files[index].id != "" {
        files := files[index := files[index].(ocrText := text)];
      }
    }

    method ZoomIn()
      modifies this
      ensures Model() == ZoomedIn(old(Model()))
    {
      scale := Min(scale + ScaleStep, MaxScale);
    }

    method ZoomOut()
      modifies this
      ensures Model() == ZoomedOut(old(Model()))
    {
      scale := Max(scale - ScaleStep, MinScale);
    }

    method FitToWidth()
      modifies this
      ensures Model() == FittedToWidth(old(Model()))
    {
      scale := 100;
    }

    method Rotate()
      modifies this
      ensures Model() == Rotated(old(Model()))
    {
      rotation := JsRemTurn(rotation + 90);
    }
  }
}
