/**
 * The editor's keyboard shortcuts (src/components/editor/use-keyboard-shortcuts.ts):
 * the list builder and the key-down dispatch. Handlers are named by the
 * action they run instead of being callbacks.
 */
module Shortcuts {
  import opened Common

  datatype Action = Save | Export | Undo | Redo | Delete | Duplicate

  /** A shortcut; absent `ctrl`, `meta` and `shift` are false. */
  datatype Shortcut = Shortcut(key: string, ctrl: bool, meta: bool, shift: bool, action: Action, description: string)

  /** Which optional handlers were supplied; `onSave` is always present. */
  datatype Handlers = Handlers(onExport: bool, onUndo: bool, onRedo: bool, onDelete: bool, onDuplicate: bool)

  /** The parts of a keydown event the dispatcher reads. */
  datatype KeyEvent = KeyEvent(key: string, ctrlKey: bool, metaKey: bool, shiftKey: bool,
                               targetTag: string, targetEditable: bool)

  const SaveShortcut := Shortcut("s", true, false, false, Save, "Save")
  const ExportShortcut := Shortcut("e", true, false, false, Export, "Export")
  const UndoShortcut := Shortcut("z", true, false, false, Undo, "Undo")
  const RedoShortcut := Shortcut("z", true, false, true, Redo, "Redo")
  const DeleteShortcut := Shortcut("Delete", false, false, false, Delete, "Delete slide")
  const DuplicateShortcut := Shortcut("d", true, false, false, Duplicate, "Duplicate slide")

  /** Position of each action in the builder's fixed order. */
  function Rank(a: Action): nat {
    match a
    case Save => 0
    case Export => 1
    case Undo => 2
    case Redo => 3
    case Delete => 4
    case Duplicate => 5
  }

  /** Whether the handler for `a` was supplied. */
  predicate Supplied(h: Handlers, a: Action) {
    match a
    case Save => true
    case Export => h.onExport
    case Undo => h.onUndo
    case Redo => h.onRedo
    case Delete => h.onDelete
    case Duplicate => h.onDuplicate
  }

  function CountOptional(h: Handlers): nat {
    (if h.onExport then 1 else 0) + (if h.onUndo then 1 else 0) + (if h.onRedo then 1 else 0)
      + (if h.onDelete then 1 else 0) + (if h.onDuplicate then 1 else 0)
  }

  /** A conditional push: the shortcut when its handler was supplied, nothing otherwise. */
  function Opt(supplied: bool, sc: Shortcut): seq<Shortcut> {
    if supplied then [sc] else []
  }

  /**
   * createEditorShortcuts: Save first, then one conditional push per optional
   * handler in the order export, undo, redo, delete, duplicate.
   */
  function CreateEditorShortcuts(h: Handlers): (r: seq<Shortcut>)
    ensures |r| == 1 + CountOptional(h)
    ensures r[0] == SaveShortcut
  {
    [SaveShortcut] + Opt(h.onExport, ExportShortcut) + Opt(h.onUndo, UndoShortcut)
      + Opt(h.onRedo, RedoShortcut) + Opt(h.onDelete, DeleteShortcut) + Opt(h.onDuplicate, DuplicateShortcut)
  }

  /** Every entry is the shortcut of a supplied handler. */
  predicate Entries(h: Handlers, r: seq<Shortcut>) {
    forall i :: 0 <= i < |r| ==> Supplied(h, r[i].action) && r[i] == ShortcutFor(r[i].action)
  }

  /** The entries' actions rise strictly in the builder's order and all rank below `n`. */
  predicate Ascending(r: seq<Shortcut>, n: nat) {
    (forall i :: 0 <= i < |r| ==> Rank(r[i].action) < n) &&
    (forall i, j :: 0 <= i < j < |r| ==> Rank(r[i].action) < Rank(r[j].action))
  }

  /** One conditional push keeps the list made of supplied shortcuts, in order. */
  lemma PushKeeps(h: Handlers, r: seq<Shortcut>, a: Action)
    requires Entries(h, r) && Ascending(r, Rank(a))
    ensures Entries(h, r + Opt(Supplied(h, a), ShortcutFor(a)))
    ensures Ascending(r + Opt(Supplied(h, a), ShortcutFor(a)), Rank(a) + 1)
  {
    if Supplied(h, a) {
      var s := r + [ShortcutFor(a)];
      assert forall i :: 0 <= i < |r| ==> s[i] == r[i];
      assert s[|r|] == ShortcutFor(a);
    } else {
      assert r + [] == r;
    }
  }

  /**
   * Every entry of the list is the shortcut of a supplied handler, and the
   * entries follow the order save, export, undo, redo, delete, duplicate.
   */
  lemma EditorShortcutsOrdered(h: Handlers)
    ensures Entries(h, CreateEditorShortcuts(h))
    ensures Ascending(CreateEditorShortcuts(h), 6)
  {
    var r0 := [SaveShortcut];
    assert Entries(h, r0) && Ascending(r0, 1);
    var r1 := r0 + Opt(h.onExport, ExportShortcut);
    assert Entries(h, r1) && Ascending(r1, 2) by { PushKeeps(h, r0, Export); }
    var r2 := r1 + Opt(h.onUndo, UndoShortcut);
    assert Entries(h, r2) && Ascending(r2, 3) by { PushKeeps(h, r1, Undo); }
    var r3 := r2 + Opt(h.onRedo, RedoShortcut);
    assert Entries(h, r3) && Ascending(r3, 4) by { PushKeeps(h, r2, Redo); }
    var r4 := r3 + Opt(h.onDelete, DeleteShortcut);
    assert Entries(h, r4) && Ascending(r4, 5) by { PushKeeps(h, r3, Delete); }
    var r5 := r4 + Opt(h.onDuplicate, DuplicateShortcut);
    assert Entries(h, r5) && Ascending(r5, 6) by { PushKeeps(h, r4, Duplicate); }
  }

  /** Every supplied handler gets its shortcut, with the key and modifiers the source uses. */
  lemma EveryHandlerListed(h: Handlers, a: Action)
    requires Supplied(h, a)
    ensures ShortcutFor(a) in CreateEditorShortcuts(h)
  {
    var r := CreateEditorShortcuts(h);
    var x := Opt(h.onExport, ExportShortcut);
    var u := Opt(h.onUndo, UndoShortcut);
    var d := Opt(h.onRedo, RedoShortcut);
    var l := Opt(h.onDelete, DeleteShortcut);
    var p := Opt(h.onDuplicate, DuplicateShortcut);
    assert r == [SaveShortcut] + x + u + d + l + p;
    match a
    case Save => assert r[0] == SaveShortcut;
    case Export => assert r[1] == ExportShortcut;
    case Undo => assert r[1 + |x|] == UndoShortcut;
    case Redo => assert r[1 + |x| + |u|] == RedoShortcut;
    case Delete => assert r[1 + |x| + |u| + |d|] == DeleteShortcut;
    case Duplicate => assert r[1 + |x| + |u| + |d| + |l|] == DuplicateShortcut;
  }

  function ShortcutFor(a: Action): (sc: Shortcut)
    ensures sc.action == a
  {
    match a
    case Save => SaveShortcut
    case Export => ExportShortcut
    case Undo => UndoShortcut
    case Redo => RedoShortcut
    case Delete => DeleteShortcut
    case Duplicate => DuplicateShortcut
  }

  /** `toLowerCase` on the ASCII letters. */
  function LowerChar(c: char): (r: char)
    ensures 'A' <= c <= 'Z' ==> 'a' <= r <= 'z'
    ensures !('A' <= c <= 'Z') ==> r == c
  {
    if 'A' <= c <= 'Z' then (c as int - 'A' as int + 'a' as int) as char else c
  }

  function ToLower(s: string): (r: string)
    ensures |r| == |s|
    ensures forall i :: 0 <= i < |s| ==> r[i] == LowerChar(s[i])
  {
    seq(|s|, i requires 0 <= i < |s| => LowerChar(s[i]))
  }

  /** Lower-casing twice is lower-casing once. */
  lemma ToLowerIdempotent(s: string)
    ensures ToLower(ToLower(s)) == ToLower(s)
  {
    var t := ToLower(s);
    assert forall i :: 0 <= i < |t| ==> LowerChar(t[i]) == t[i];
  }

  /**
   * The test inside the dispatch loop: a modifier is needed iff the shortcut
   * sets ctrl or meta, and either key satisfies it; shift must agree exactly;
   * keys are compared case-insensitively.
   */
  predicate Matches(sc: Shortcut, e: KeyEvent) {
    var hasModifier := if sc.ctrl || sc.meta then e.ctrlKey || e.metaKey else true;
    var hasShift := if sc.shift then e.shiftKey else !e.shiftKey;
    ToLower(e.key) == ToLower(sc.key) && hasModifier && hasShift
  }

  /** Matching does not see the case of the pressed key. */
  lemma MatchIgnoresCase(sc: Shortcut, e: KeyEvent)
    ensures Matches(sc, e) <==> Matches(sc, e.(key := ToLower(e.key)))
  {
    ToLowerIdempotent(e.key);
  }

  /** Undo (ctrl+z) and Redo (ctrl+shift+z) never both match one event. */
  lemma UndoRedoExclusive(e: KeyEvent)
    ensures !(Matches(UndoShortcut, e) && Matches(RedoShortcut, e))
  {
  }

  /** The position of the first shortcut that matches, if any. */
  function FirstMatch(shortcuts: seq<Shortcut>, e: KeyEvent): (r: Option<nat>)
    ensures r.None? <==> forall i :: 0 <= i < |shortcuts| ==> !Matches(shortcuts[i], e)
    ensures r.Some? ==> r.value < |shortcuts| && Matches(shortcuts[r.value], e)
    ensures r.Some? ==> forall j :: 0 <= j < r.value ==> !Matches(shortcuts[j], e)
  {
    if |shortcuts| == 0 then None
    else if Matches(shortcuts[0], e) then Some(0)
    else
      match FirstMatch(shortcuts[1..], e)
      case None => None
      case Some(k) => Some(k + 1)
  }

  /** `i` is the first position whose shortcut matches `e`. */
  predicate FirstMatchAt(shortcuts: seq<Shortcut>, e: KeyEvent, i: int) {
    0 <= i < |shortcuts| && Matches(shortcuts[i], e) &&
    forall j :: 0 <= j < i ==> !Matches(shortcuts[j], e)
  }

  /** The focus is in a text field, where most shortcuts are ignored. */
  predicate InTextField(e: KeyEvent) {
    e.targetTag == "INPUT" || e.targetTag == "TEXTAREA" || e.targetEditable
  }

  /** `(e.ctrlKey || e.metaKey) && (e.key === "s" || e.key === "e")`, case-sensitive. */
  predicate IsSpecialShortcut(e: KeyEvent) {
    (e.ctrlKey || e.metaKey) && (e.key == "s" || e.key == "e")
  }

  /**
   * handleKeyDown: the action of the one handler that runs, if any. In a text
   * field only ctrl/meta + `s` or `e` reach the matching loop.
   */
  function HandleKeyDown(shortcuts: seq<Shortcut>, e: KeyEvent): (r: Option<Action>)
    ensures InTextField(e) && !IsSpecialShortcut(e) ==> r.None?
    ensures !InTextField(e) || IsSpecialShortcut(e) ==>
      (r.None? <==> forall i :: 0 <= i < |shortcuts| ==> !Matches(shortcuts[i], e))
    ensures r.Some? ==> exists i :: FirstMatchAt(shortcuts, e, i) && r.value == shortcuts[i].action
  {
    if InTextField(e) && !IsSpecialShortcut(e) then None
    else
      match FirstMatch(shortcuts, e)
      case None => None
      case Some(i) => Some(shortcuts[i].action)
  }

  /** The lower-cased key of each action's shortcut. */
  function LowKey(a: Action): string {
    match a
    case Save => "s"
    case Export => "e"
    case Undo => "z"
    case Redo => "z"
    case Delete => "delete"
    case Duplicate => "d"
  }

  lemma LoweredKey(a: Action)
    ensures ToLower(ShortcutFor(a).key) == LowKey(a)
  {
    match a
    case Save => assert ToLower("s") == "s";
    case Export => assert ToLower("e") == "e";
    case Undo => assert ToLower("z") == "z";
    case Redo => assert ToLower("z") == "z";
    case Delete => assert ToLower("Delete") == "delete";
    case Duplicate => assert ToLower("d") == "d";
  }

  /** An event that passes the text-field filter can only match the save or export shortcut. */
  lemma SpecialMatchesSaveOrExport(a: Action, e: KeyEvent)
    requires IsSpecialShortcut(e) && Matches(ShortcutFor(a), e)
    ensures a == Save || a == Export
  {
    LoweredKey(a);
    assert ToLower(e.key) == e.key by {
      if e.key == "s" { assert ToLower("s") == "s"; } else { assert ToLower("e") == "e"; }
    }
  }

  /** In a text field the editor's shortcuts can only save or export. */
  lemma TextFieldOnlySaveOrExport(h: Handlers, e: KeyEvent)
    requires InTextField(e)
    ensures HandleKeyDown(CreateEditorShortcuts(h), e) in {None, Some(Save), Some(Export)}
  {
    var r := CreateEditorShortcuts(h);
    EditorShortcutsOrdered(h);
    assert Entries(h, r);
    var res := HandleKeyDown(r, e);
    if res.Some? {
      var i :| FirstMatchAt(r, e, i) && res.value == r[i].action;
      assert r[i] == ShortcutFor(r[i].action);
      SpecialMatchesSaveOrExport(r[i].action, e);
    }
  }

  /** A position that matches with no earlier match is the one `FirstMatch` finds. */
  lemma FirstMatchIs(shortcuts: seq<Shortcut>, e: KeyEvent, k: nat)
    requires k < |shortcuts| && Matches(shortcuts[k], e)
    requires forall j :: 0 <= j < k ==> !Matches(shortcuts[j], e)
    ensures FirstMatch(shortcuts, e) == Some(k)
  {
    var r := FirstMatch(shortcuts, e);
    assert r.Some?;
    assert !(r.value < k);
    assert !(k < r.value);
  }

  const AllHandlers := Handlers(true, true, true, true, true)

  /** The six shortcuts in the builder's order. */
  const FullList: seq<Shortcut> :=
    [SaveShortcut, ExportShortcut, UndoShortcut, RedoShortcut, DeleteShortcut, DuplicateShortcut]

  /** With every handler supplied the list holds all six shortcuts in the builder's order. */
  lemma AllShortcuts()
    ensures CreateEditorShortcuts(AllHandlers) == FullList
  {
  }

  /** A shortcut whose lower-cased key differs from the pressed key's does not match. */
  lemma KeyDiffers(a: Action, e: KeyEvent)
    requires ToLower(e.key) != LowKey(a)
    ensures !Matches(ShortcutFor(a), e)
  {
    LoweredKey(a);
  }

  /** ctrl+z, dispatched against the full list, finds the Undo shortcut. */
  lemma UndoOnFullList(e: KeyEvent)
    requires e == KeyEvent("z", true, false, false, "DIV", false)
    ensures HandleKeyDown(FullList, e) == Some(Undo)
  {
    assert ToLower(e.key) == "z";
    KeyDiffers(Save, e);
    KeyDiffers(Export, e);
    assert Matches(UndoShortcut, e) by { LoweredKey(Undo); }
    FirstMatchIs(FullList, e, 2);
  }

  /** ctrl+shift+Z, dispatched against the full list, passes Undo and finds Redo. */
  lemma RedoOnFullList(e: KeyEvent)
    requires e == KeyEvent("Z", true, false, true, "DIV", false)
    ensures HandleKeyDown(FullList, e) == Some(Redo)
  {
    assert ToLower(e.key) == "z";
    KeyDiffers(Save, e);
    KeyDiffers(Export, e);
    assert !Matches(UndoShortcut, e);
    assert Matches(RedoShortcut, e) by { LoweredKey(Redo); }
    FirstMatchIs(FullList, e, 3);
  }

  /** Delete, with or without ctrl, dispatched against the full list, finds the Delete shortcut. */
  lemma DeleteOnFullList(e: KeyEvent)
    requires e.key == "Delete" && !e.metaKey && !e.shiftKey && !InTextField(e)
    ensures HandleKeyDown(FullList, e) == Some(Delete)
  {
    assert ToLower(e.key) == "delete";
    KeyDiffers(Save, e);
    KeyDiffers(Export, e);
    KeyDiffers(Undo, e);
    KeyDiffers(Redo, e);
    assert Matches(DeleteShortcut, e) by { LoweredKey(Delete); }
    FirstMatchIs(FullList, e, 4);
  }

  /** ctrl+z runs Undo with every handler supplied. */
  lemma UndoDispatch()
    ensures HandleKeyDown(CreateEditorShortcuts(AllHandlers), KeyEvent("z", true, false, false, "DIV", false)) == Some(Undo)
  {
    AllShortcuts();
    UndoOnFullList(KeyEvent("z", true, false, false, "DIV", false));
  }

  /** ctrl+shift+Z runs Redo, not Undo, with every handler supplied. */
  lemma RedoDispatch()
    ensures HandleKeyDown(CreateEditorShortcuts(AllHandlers), KeyEvent("Z", true, false, true, "DIV", false)) == Some(Redo)
  {
    AllShortcuts();
    RedoOnFullList(KeyEvent("Z", true, false, true, "DIV", false));
  }

  /** The Delete key runs Delete whether or not ctrl is held, since that shortcut needs no modifier. */
  lemma DeleteIgnoresCtrl(ctrl: bool)
    ensures HandleKeyDown(CreateEditorShortcuts(AllHandlers), KeyEvent("Delete", ctrl, false, false, "DIV", false)) == Some(Delete)
  {
    AllShortcuts();
    DeleteOnFullList(KeyEvent("Delete", ctrl, false, false, "DIV", false));
  }
}
