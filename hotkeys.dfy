/**
 * The desktop application's key handler: one if/elif chain over the key's
 * lower-cased text (Latin or the Russian key at the same place) and its key
 * code, with the commands under Ctrl tried last. It reports whether a branch
 * matched. The mode toggles, deleting an image, clearing the list, clearing
 * the OCR cache and undo act on the application object; the Jardic browser,
 * the previous/next image, opening a folder and exporting text are reported
 * as the command taken.
 */
module Hotkeys {
  import opened Text
  import opened Images
  import AppState

  /** The key codes the handler tests; every other key is `Other`. */
  datatype KeyCode = Delete | Up | Down | Other

  /** `event.text()`, `event.key()`, and whether the modifiers are exactly Ctrl. */
  datatype KeyEvent = KeyEvent(text: string, key: KeyCode, ctrlOnly: bool)

  datatype Command =
    | ToggleJardic | DeleteImage | ToggleAddMode | ToggleDeleteMode | PrevImage | NextImage
    | SelectFolder | ExportText | ClearOcrCache | ClearImages | Undo
    | Unhandled

  predicate IsCtrlCommand(c: Command) {
    c == SelectFolder || c == ExportText || c == ClearOcrCache || c == ClearImages || c == Undo
  }

  /** The commands under Ctrl, by lower-cased text. */
  function CtrlDispatch(t: string): Command {
    if t == "o" || t == "щ" then SelectFolder
    else if t == "s" || t == "ы" then ExportText
    else if t == "r" || t == "к" then ClearOcrCache
    else if t == "l" || t == "д" then ClearImages
    else if t == "z" || t == "я" then Undo
    else Unhandled
  }

  /** The branch `handle_hotkeys` takes for an event. */
  function Dispatch(e: KeyEvent): Command {
    var t := Lower(e.text);
    if t == "о" || t == "j" then ToggleJardic
    else if e.key == Delete then DeleteImage
    else if t == "a" || t == "ф" then ToggleAddMode
    else if t == "d" || t == "в" then ToggleDeleteMode
    else if e.key == Up then PrevImage
    else if e.key == Down then NextImage
    else if t == "q" || t == "й" then PrevImage
    else if t == "e" || t == "у" then NextImage
    else if e.ctrlOnly then CtrlDispatch(t)
    else Unhandled
  }

  /** What a command does to the application state (the reported commands change nothing here). */
  function Effect(v: AppState.View, c: Command, files: map<string, Image>, png: Image -> seq<bv8>): AppState.View
    requires v.row < |v.images|
  {
    match c
    case ToggleAddMode => AppState.AddToggled(v)
    case ToggleDeleteMode => AppState.DelToggled(v)
    case DeleteImage => AppState.Deleted(v)
    case ClearImages => AppState.Cleared(v)
    case Undo => AppState.Undone(v, files, png)
    case _ => v
  }

  // ---------------------------------------------------------------------------
  // Properties of the dispatch
  // ---------------------------------------------------------------------------

  /** `j` (and the Russian `о`) toggles the Jardic browser whatever the key code and modifiers. */
  lemma JardicFirst(e: KeyEvent)
    requires Lower(e.text) == "j" || Lower(e.text) == "о"
    ensures Dispatch(e) == ToggleJardic
  {
  }

  /** The text is compared lower-cased, so Shift or Caps Lock does not matter. */
  lemma DispatchIgnoresCase(e: KeyEvent)
    ensures Dispatch(e.(text := Lower(e.text))) == Dispatch(e)
  {
    LowerIdempotent(e.text);
  }

  /** A Ctrl command is taken only when no earlier branch matched: without Ctrl the same key does nothing. */
  lemma CtrlCommandsLast(e: KeyEvent)
    ensures IsCtrlCommand(Dispatch(e)) ==> e.ctrlOnly && Dispatch(e.(ctrlOnly := false)) == Unhandled
    ensures Dispatch(e.(ctrlOnly := false)) != Unhandled ==> Dispatch(e) == Dispatch(e.(ctrlOnly := false))
    ensures !IsCtrlCommand(Dispatch(e)) && Dispatch(e) != Unhandled ==> Dispatch(e.(ctrlOnly := false)) == Dispatch(e)
  {
  }

  /** Ctrl+R (and the Russian `к`) with no other key code clears the OCR cache. */
  lemma CtrlRClearsCache(text: string)
    requires Lower(text) == "r" || Lower(text) == "к"
    ensures Dispatch(KeyEvent(text, Other, true)) == ClearOcrCache
    ensures Dispatch(KeyEvent(text, Other, false)) == Unhandled
  {
  }

  /** Up, `q` and `й` show the previous image; Down, `e` and `у` the next. */
  lemma NavigationKeys(e: KeyEvent)
    requires !(Lower(e.text) in {"о", "j", "a", "ф", "d", "в"}) && e.key != Delete
    ensures e.key == Up || Lower(e.text) == "q" || Lower(e.text) == "й" ==>
              Dispatch(e) == (if e.key == Down then NextImage else PrevImage)
    ensures e.key == Down || Lower(e.text) == "e" || Lower(e.text) == "у" ==>
              Dispatch(e) == (if e.key == Up then PrevImage else NextImage)
  {
  }

  /** Every command keeps the add and delete modes exclusive and the rest of the state well formed. */
  lemma EffectWellFormed(v: AppState.View, c: Command, files: map<string, Image>, png: Image -> seq<bv8>)
    requires AppState.WellFormed(v)
    ensures AppState.WellFormed(Effect(v, c, files, png))
    ensures c == ToggleAddMode ==> Effect(v, c, files, png).addMode == !v.addMode
    ensures c == ToggleDeleteMode ==> Effect(v, c, files, png).deleteMode == !v.deleteMode
  {
    match c
    case DeleteImage => if v.row >= 0 { AppState.DeletedSelection(v); }
    case ClearImages => AppState.SavedHistory(v);
    case Undo => AppState.UndoneWellFormed(v, files, png);
    case _ =>
  }

  // ---------------------------------------------------------------------------
  // handle_hotkeys
  // ---------------------------------------------------------------------------

  /**
   * `handle_hotkeys`: true exactly when a branch matched; the state changes as
   * that branch's command says. `raised` is the FileNotFoundError of an undo
   * whose restored file is gone, which leaves the slot instead of a return.
   */
  method HandleHotkeys(app: AppState.MangaOcrApp, e: KeyEvent, files: map<string, Image>, onDisk: set<string>,
                       png: Image -> seq<bv8>)
    returns (handled: bool, command: Command, raised: bool)
    requires app.Valid() && files.Keys <= onDisk
    modifies app, app.cache
    ensures app.Valid()
    ensures command == Dispatch(e) && (handled <==> command != Unhandled)
    ensures app.Model() == Effect(old(app.Model()), command, files, png)
    ensures app.cache.cache == if command == ClearOcrCache then map[] else old(app.cache.cache)
    ensures raised <==> command == Undo && AppState.UndoRaises(old(app.Model()), onDisk)
  {
    handled, raised := false, false;
    command := Unhandled;
    var keyText := Lower(e.text);
    if keyText == "о" || keyText == "j" {
      command, handled := ToggleJardic, true;
    } else if e.key == Delete {
      app.DeleteSelectedImage();
      command, handled := DeleteImage, true;
    } else if keyText == "a" || keyText == "ф" {
      app.EnableAddBoxMode();
      command, handled := ToggleAddMode, true;
    } else if keyText == "d" || keyText == "в" {
      app.EnableDelBoxMode();
      command, handled := ToggleDeleteMode, true;
    } else if e.key == Up {
      command, handled := PrevImage, true;
    } else if e.key == Down {
      command, handled := NextImage, true;
    } else if keyText == "q" || keyText == "й" {
      command, handled := PrevImage, true;
    } else if keyText == "e" || keyText == "у" {
      command, handled := NextImage, true;
    } else if e.ctrlOnly {
      if keyText == "o" || keyText == "щ" {
        command, handled := SelectFolder, true;
      } else if keyText == "s" || keyText == "ы" {
        command, handled := ExportText, true;
      } else if keyText == "r" || keyText == "к" {
        app.ClearOcrCache();
        command, handled := ClearOcrCache, true;
      } else if keyText == "l" || keyText == "д" {
        app.ClearImages();
        command, handled := ClearImages, true;
      } else if keyText == "z" || keyText == "я" {
        raised := app.UndoAction(files, onDisk, png);
        command, handled := Undo, true;
      }
    }
  }
}
