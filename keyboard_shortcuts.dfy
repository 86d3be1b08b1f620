/**
 * `useKeyboardShortcuts` in `src/hooks/useKeyboardShortcuts.ts`: which
 * shortcut a key press fires, and the help text listing the shortcuts.
 *
 * The key event and `navigator.platform` are parameters. A shortcut's handler
 * is identified by the shortcut's position in the list: the key-down handler's
 * effect is "ignored", "no match", or "fired the shortcut at index i" (after
 * calling `preventDefault`).
 */
module KeyboardShortcuts {
  import opened Wrappers
  import opened Strings

  /** The element a key event is aimed at. */
  datatype Target = InputElement | TextAreaElement | SelectElement | OtherElement

  datatype KeyEvent = KeyEvent(target: Target, key: string, ctrlKey: bool, metaKey: bool, altKey: bool, shiftKey: bool)

  /** A `ShortcutConfig` without its handler; a modifier flag left out is `None`. */
  datatype Shortcut = Shortcut(key: string, ctrl: Option<bool>, alt: Option<bool>, shift: Option<bool>, description: string)

  /** `!!flag`: a missing flag counts as false. */
  predicate Flag(flag: Option<bool>)
  {
    flag == Some(true)
  }

  /** Key presses in form fields are left to the field. */
  predicate IsFormField(t: Target)
  {
    t == InputElement || t == TextAreaElement || t == SelectElement
  }

  /** The `find` predicate: same key ignoring case, and each modifier as the shortcut wants it. */
  predicate Matches(s: Shortcut, e: KeyEvent)
  {
    && Lower(s.key) == Lower(e.key)
    && Flag(s.ctrl) == (e.ctrlKey || e.metaKey)
    && Flag(s.alt) == e.altKey
    && Flag(s.shift) == e.shiftKey
  }

  /** `shortcuts.find(…)` from position `from` on: the index of the first matching shortcut. */
  function FindMatch(shortcuts: seq<Shortcut>, e: KeyEvent, from: nat): (r: Option<nat>)
    requires from <= |shortcuts|
    ensures r.Some? ==> from <= r.value < |shortcuts| && Matches(shortcuts[r.value], e)
    ensures r.Some? ==> forall j :: from <= j < r.value ==> !Matches(shortcuts[j], e)
    ensures r.None? ==> forall j :: from <= j < |shortcuts| ==> !Matches(shortcuts[j], e)
    decreases |shortcuts| - from
  {
    if from == |shortcuts| then None
    else if Matches(shortcuts[from], e) then Some(from)
    else FindMatch(shortcuts, e, from + 1)
  }

  /** What `handleKeyDown` does with an event. */
  datatype KeyDownEffect = Ignored | NoMatch | Fired(index: nat)

  /**
   * `handleKeyDown(event)`: ignore form fields; otherwise fire the first
   * matching shortcut, calling `preventDefault` exactly when one matches.
   */
  function HandleKeyDown(shortcuts: seq<Shortcut>, e: KeyEvent): (r: KeyDownEffect)
    ensures r.Ignored? <==> IsFormField(e.target)
    ensures r.Fired? <==> !IsFormField(e.target) && exists j :: 0 <= j < |shortcuts| && Matches(shortcuts[j], e)
    ensures r.Fired? ==> r.index < |shortcuts| && Matches(shortcuts[r.index], e)
                         && forall j :: 0 <= j < r.index ==> !Matches(shortcuts[j], e)
  {
    if IsFormField(e.target) then Ignored
    else
      match FindMatch(shortcuts, e, 0)
      case Some(i) => Fired(i)
      case None => NoMatch
  }

  /** Changing only the letter case of the pressed key, or pressing Meta instead of Ctrl, fires the same shortcut. */
  lemma {:induction false} CaseAndMetaInsensitive(shortcuts: seq<Shortcut>, e: KeyEvent, e': KeyEvent)
    requires e.target == e'.target && Lower(e.key) == Lower(e'.key)
    requires (e.ctrlKey || e.metaKey) == (e'.ctrlKey || e'.metaKey)
    requires e.altKey == e'.altKey && e.shiftKey == e'.shiftKey
    ensures HandleKeyDown(shortcuts, e) == HandleKeyDown(shortcuts, e')
  {
    forall j | 0 <= j < |shortcuts|
      ensures Matches(shortcuts[j], e) <==> Matches(shortcuts[j], e')
    {
    }
    FindMatchSame(shortcuts, e, e', 0);
  }

  /** Two events that match the same shortcuts find the same first match. */
  lemma {:induction false} FindMatchSame(shortcuts: seq<Shortcut>, e: KeyEvent, e': KeyEvent, from: nat)
    requires from <= |shortcuts|
    requires forall j :: 0 <= j < |shortcuts| ==> (Matches(shortcuts[j], e) <==> Matches(shortcuts[j], e'))
    ensures FindMatch(shortcuts, e, from) == FindMatch(shortcuts, e', from)
    decreases |shortcuts| - from
  {
    if from < |shortcuts| {
      FindMatchSame(shortcuts, e, e', from + 1);
    }
  }

  const MAC_CTRL_LABEL := "⌘"

  /** `navigator.platform.includes('Mac')`. */
  predicate IsMac(platform: string)
  {
    Contains(platform, "Mac")
  }

  /** The modifier labels of a shortcut, in the order Ctrl (or ⌘), Alt, Shift, each only if set. */
  function ModifierLabels(s: Shortcut, platform: string): seq<string>
  {
    (if Flag(s.ctrl) then [if IsMac(platform) then MAC_CTRL_LABEL else "Ctrl"] else [])
    + (if Flag(s.alt) then ["Alt"] else [])
    + (if Flag(s.shift) then ["Shift"] else [])
  }

  /** A one-character key is shown upper-cased; a longer key name as it is. */
  function KeyLabel(key: string): (r: string)
    ensures |key| == 1 ==> r == [UpperChar(key[0])]
    ensures |key| != 1 ==> r == key
    ensures Lower(r) == Lower(key)
  {
    if |key| == 1 then [UpperChar(key[0])] else key
  }

  /** The label shown for a shortcut's key is a key the shortcut matches when pressed with the shortcut's modifiers. */
  lemma LabelTriggersShortcut(s: Shortcut, t: Target, meta: bool)
    requires !IsFormField(t)
    ensures Matches(s, KeyEvent(t, KeyLabel(s.key), Flag(s.ctrl) && !meta, Flag(s.ctrl) && meta, Flag(s.alt), Flag(s.shift)))
  {
  }

  /** One line of the help text: the key combination joined with " + ", then ": " and the description. */
  function HelpEntry(s: Shortcut, platform: string): string
  {
    Join(ModifierLabels(s, platform) + [KeyLabel(s.key)], " + ") + ": " + s.description
  }

  /** `getShortcutHelpText()`: one entry per shortcut, in list order. */
  function HelpText(shortcuts: seq<Shortcut>, platform: string): (r: seq<string>)
    ensures |r| == |shortcuts|
    ensures forall i :: 0 <= i < |shortcuts| ==> r[i] == HelpEntry(shortcuts[i], platform)
  {
    seq(|shortcuts|, i requires 0 <= i < |shortcuts| => HelpEntry(shortcuts[i], platform))
  }

  /** The text that announces one set modifier: its label followed by " + ". */
  function Announce(isSet: bool, name: string): string
  {
    if isSet then name + " + " else ""
  }

  /**
   * A help entry spelled out without `join`: each set modifier's label
   * followed by " + ", in the order Ctrl (⌘ on a Mac), Alt, Shift, then the key
   * label, ": " and the description.
   */
  lemma HelpEntrySpelledOut(s: Shortcut, platform: string)
    ensures HelpEntry(s, platform) ==
      Announce(Flag(s.ctrl), if IsMac(platform) then MAC_CTRL_LABEL else "Ctrl")
      + Announce(Flag(s.alt), "Alt")
      + Announce(Flag(s.shift), "Shift")
      + KeyLabel(s.key) + ": " + s.description
  {
    var c := if Flag(s.ctrl) then [if IsMac(platform) then MAC_CTRL_LABEL else "Ctrl"] else [];
    var a := if Flag(s.alt) then ["Alt"] else [];
    var sh := if Flag(s.shift) then ["Shift"] else [];
    JoinAfterOptionals(c, a, sh, KeyLabel(s.key), " + ");
  }
}
