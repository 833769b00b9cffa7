/**
 * The `useKeyboardShortcuts` hook (src/hooks/useKeyboardShortcuts.ts): the
 * first registered shortcut matching a key press fires, except while typing in
 * a form field; `getShortcuts` lists every shortcut with its label. The
 * handler that fires is reported by its index; the window listener is left
 * out.
 */
module KeyboardShortcuts {
  import opened Common

  /** A registered shortcut; an absent modifier flag is `None`. */
  datatype Shortcut = Shortcut(key: string, ctrl: Option<bool>, alt: Option<bool>, shift: Option<bool>, description: string)

  /** The parts of a `keydown` event the hook reads. */
  datatype KeyEvent = KeyEvent(key: string, ctrlKey: bool, altKey: bool, shiftKey: bool, targetTag: string)

  /** `!!flag`. */
  predicate Flag(f: Option<bool>) {
    f == Some(true)
  }

  const FormTags: set<string> := {"INPUT", "TEXTAREA", "SELECT"}

  /** Keys compared without regard to case; every modifier must agree. */
  predicate Matches(s: Shortcut, e: KeyEvent) {
    ToLower(e.key) == ToLower(s.key) && Flag(s.ctrl) == e.ctrlKey && Flag(s.alt) == e.altKey && Flag(s.shift) == e.shiftKey
  }

  /** `handleKeyDown`: the index of the shortcut whose handler runs, if any. */
  method HandleKeyDown(shortcuts: seq<Shortcut>, e: KeyEvent) returns (fired: Option<nat>)
    ensures e.targetTag in FormTags ==> fired.None?
    ensures fired.Some? ==>
      fired.value < |shortcuts| && Matches(shortcuts[fired.value], e) &&
      forall j :: 0 <= j < fired.value ==> !Matches(shortcuts[j], e)
    ensures fired.None? && e.targetTag !in FormTags ==> forall j :: 0 <= j < |shortcuts| ==> !Matches(shortcuts[j], e)
  {
    fired := None;
    if e.targetTag in FormTags {
      return;
    }
    var i := 0;
    while i < |shortcuts|
      invariant 0 <= i <= |shortcuts|
      invariant fired.None? && forall j :: 0 <= j < i ==> !Matches(shortcuts[j], e)
    {
      if ToLower(e.key) == ToLower(shortcuts[i].key) && Flag(shortcuts[i].ctrl) == e.ctrlKey &&
         Flag(shortcuts[i].alt) == e.altKey && Flag(shortcuts[i].shift) == e.shiftKey {
        fired := Some(i);
        break;
      }
      i := i + 1;
    }
  }

  lemma LowerOfUpper(c: char)
    ensures LowerChar(UpperChar(c)) == LowerChar(c)
  {
  }

  /** Matching ignores the case of the pressed key. */
  lemma MatchIgnoresKeyCase(s: Shortcut, e: KeyEvent)
    ensures Matches(s, e) <==> Matches(s, e.(key := ToUpper(e.key)))
  {
    forall i | 0 <= i < |e.key| ensures ToLower(ToUpper(e.key))[i] == ToLower(e.key)[i] {
      LowerOfUpper(e.key[i]);
    }
    assert ToLower(ToUpper(e.key)) == ToLower(e.key);
  }

  /** An absent modifier and one set to false match the same key presses. */
  lemma AbsentFlagIsFalse(s: Shortcut, e: KeyEvent)
    ensures Matches(s.(ctrl := None), e) <==> Matches(s.(ctrl := Some(false)), e)
    ensures Matches(s.(alt := None), e) <==> Matches(s.(alt := Some(false)), e)
    ensures Matches(s.(shift := None), e) <==> Matches(s.(shift := Some(false)), e)
  {
  }

  /** `parts.join(sep)`. */
  function Join(parts: seq<string>, sep: string): string
    decreases |parts|
  {
    if |parts| == 0 then ""
    else if |parts| == 1 then parts[0]
    else parts[0] + sep + Join(parts[1..], sep)
  }

  /** The label's parts after `filter(Boolean)`: the set modifiers in a fixed order, then the upper-cased key unless it is empty. */
  function LabelParts(s: Shortcut): seq<string> {
    (if Flag(s.ctrl) then ["Ctrl"] else []) +
    (if Flag(s.alt) then ["Alt"] else []) +
    (if Flag(s.shift) then ["Shift"] else []) +
    (if s.key != "" then [ToUpper(s.key)] else [])
  }

  /** `shortcutText`. */
  function ShortcutText(s: Shortcut): string {
    Join(LabelParts(s), " + ")
  }

  /** The modifiers a label names, each followed by the separator. */
  function ModifierPrefix(s: Shortcut): string {
    (if Flag(s.ctrl) then "Ctrl + " else "") +
    (if Flag(s.alt) then "Alt + " else "") +
    (if Flag(s.shift) then "Shift + " else "")
  }

  lemma {:induction false} JoinBeforeLast(mods: seq<string>, last: string, sep: string)
    ensures Join(mods + [last], sep) == Concat(mods, sep) + last
    decreases |mods|
  {
    if |mods| > 0 {
      assert (mods + [last])[1..] == mods[1..] + [last];
      JoinBeforeLast(mods[1..], last, sep);
    }
  }

  /** Each part followed by `sep`. */
  function Concat(parts: seq<string>, sep: string): string
    decreases |parts|
  {
    if |parts| == 0 then "" else parts[0] + sep + Concat(parts[1..], sep)
  }

  /**
   * A shortcut with a key is labelled by its modifiers, in the order Ctrl, Alt,
   * Shift, each followed by `" + "`, and then the upper-cased key.
   */
  lemma ShortcutTextShape(s: Shortcut)
    requires s.key != ""
    ensures ShortcutText(s) == ModifierPrefix(s) + ToUpper(s.key)
  {
    var mods := (if Flag(s.ctrl) then ["Ctrl"] else []) +
                (if Flag(s.alt) then ["Alt"] else []) +
                (if Flag(s.shift) then ["Shift"] else []);
    assert LabelParts(s) == mods + [ToUpper(s.key)];
    JoinBeforeLast(mods, ToUpper(s.key), " + ");
    assert Concat(mods, " + ") == ModifierPrefix(s) by {
      ConcatOfModifiers(Flag(s.ctrl), Flag(s.alt), Flag(s.shift));
    }
  }

  lemma ConcatOfModifiers(c: bool, a: bool, sh: bool)
    ensures Concat((if c then ["Ctrl"] else []) + (if a then ["Alt"] else []) + (if sh then ["Shift"] else []), " + ") ==
      (if c then "Ctrl + " else "") + (if a then "Alt + " else "") + (if sh then "Shift + " else "")
  {
    var m := (if c then ["Ctrl"] else []) + (if a then ["Alt"] else []) + (if sh then ["Shift"] else []);
    var rest := (if a then ["Alt"] else []) + (if sh then ["Shift"] else []);
    var last := if sh then ["Shift"] else [];
    assert Concat(last, " + ") == (if sh then "Shift + " else "");
    if a {
      assert rest[1..] == last;
    }
    assert Concat(rest, " + ") == (if a then "Alt + " else "") + (if sh then "Shift + " else "");
    if c {
      assert m[1..] == rest;
    } else {
      assert m == rest;
    }
  }

  /** A shortcut without modifiers is labelled by its upper-cased key alone. */
  lemma PlainKeyLabel(key: string, description: string)
    ensures ShortcutText(Shortcut(key, None, None, None, description)) == ToUpper(key)
  {
  }

  /** One entry of `getShortcuts()`. */
  datatype ShortcutInfo = ShortcutInfo(key: string, ctrl: Option<bool>, alt: Option<bool>, shift: Option<bool>,
                                       description: string, shortcutText: string)

  /** `getShortcuts()`: one entry per shortcut, in registration order, each with its label. */
  function GetShortcuts(shortcuts: seq<Shortcut>): (r: seq<ShortcutInfo>)
    ensures |r| == |shortcuts|
    ensures forall i :: 0 <= i < |r| ==>
      var s := shortcuts[i];
      r[i] == ShortcutInfo(s.key, s.ctrl, s.alt, s.shift, s.description, ShortcutText(s))
  {
    seq(|shortcuts|, i requires 0 <= i < |shortcuts| =>
      var s := shortcuts[i];
      ShortcutInfo(s.key, s.ctrl, s.alt, s.shift, s.description, ShortcutText(s)))
  }
}
