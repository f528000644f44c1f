/**
 * The document-level `keydown` router: one ordered decision procedure that
 * turns a key event into at most one action on the shell.
 */
module Keyboard {
  import opened Wrappers

  /** The parts of a key event the router reads: `key`, the two command
      modifiers, and the tag name of the event's target element. */
  datatype KeyEvent = KeyEvent(key: string, ctrlKey: bool, metaKey: bool, targetTag: string)

  /** What a key event does to the shell. */
  datatype Action = Ignore | TogglePalette | ClosePalette | SwitchTo(tab: string)

  const Escape: string := "Escape"

  /** The tabs reachable from the keyboard. */
  const ShortcutTabs: set<string> := {"projects", "tools", "blog"}

  /** The target accepts free text: only INPUT and TEXTAREA count. */
  predicate IsTypingTarget(tag: string)
  {
    tag == "INPUT" || tag == "TEXTAREA"
  }

  /** Ctrl or Meta with the key exactly `k` (a shifted `K` does not match). */
  predicate IsPaletteChord(e: KeyEvent)
  {
    (e.metaKey || e.ctrlKey) && e.key == "k"
  }

  /** Lower-casing of one character, on the ASCII letters. */
  function LowerChar(c: char): (d: char)
    ensures 'a' <= d <= 'z' <==> 'a' <= c <= 'z' || 'A' <= c <= 'Z'
    ensures !('A' <= c <= 'Z') ==> d == c
    ensures 'A' <= c <= 'Z' ==> d as int - c as int == 32
  {
    if 'A' <= c <= 'Z' then (c as int + 32) as char else c
  }

  /** `String.prototype.toLowerCase`, character by character. */
  function ToLower(s: string): (r: string)
    ensures |r| == |s|
    ensures forall i :: 0 <= i < |s| ==> r[i] == LowerChar(s[i])
  {
    if s == [] then [] else [LowerChar(s[0])] + ToLower(s[1..])
  }

  /** The `switch` on the lower-cased key: only `p`, `t` and `b` are mapped. */
  function ShortcutTab(key: string): (r: Option<string>)
    ensures r.Some? ==> r.value in ShortcutTabs && |key| == 1
  {
    var k := ToLower(key);
    if k == "p" then Some("projects")
    else if k == "t" then Some("tools")
    else if k == "b" then Some("blog")
    else None
  }

  /** The mapping is case-insensitive and covers exactly six keys. */
  lemma ShortcutKeys(key: string)
    ensures ShortcutTab(key) == Some("projects") <==> key == "p" || key == "P"
    ensures ShortcutTab(key) == Some("tools") <==> key == "t" || key == "T"
    ensures ShortcutTab(key) == Some("blog") <==> key == "b" || key == "B"
    ensures ShortcutTab(key) == None <==> key !in {"p", "P", "t", "T", "b", "B"}
  {
  }

  /** The router, in the script's order: typing targets honour only Escape;
      then the palette chord; then Escape; then the letter shortcuts. */
  function Route(e: KeyEvent): (r: Action)
    ensures IsTypingTarget(e.targetTag) ==> r == Ignore || r == ClosePalette
    ensures r == TogglePalette <==> !IsTypingTarget(e.targetTag) && IsPaletteChord(e)
    ensures r == ClosePalette <==> e.key == Escape
    ensures r.SwitchTo? ==> !IsTypingTarget(e.targetTag) && r.tab in ShortcutTabs
  {
    if IsTypingTarget(e.targetTag) then
      (if e.key == Escape then ClosePalette else Ignore)
    else if IsPaletteChord(e) then
      TogglePalette
    else if e.key == Escape then
      ClosePalette
    else
      match ShortcutTab(e.key)
      case Some(tab) => SwitchTo(tab)
      case None => Ignore
  }

  /** Outside text fields, and apart from the palette chord and Escape, the
      letters p, t and b in either case switch to projects, tools and blog. */
  lemma RouteLetters(e: KeyEvent)
    requires !IsTypingTarget(e.targetTag) && !IsPaletteChord(e) && e.key != Escape
    ensures Route(e) == SwitchTo("projects") <==> e.key == "p" || e.key == "P"
    ensures Route(e) == SwitchTo("tools") <==> e.key == "t" || e.key == "T"
    ensures Route(e) == SwitchTo("blog") <==> e.key == "b" || e.key == "B"
  {
  }

  /** Exactly which events the router ignores: in a text field every key but
      Escape; elsewhere every key that is not the chord, Escape or one of the
      six shortcut letters. */
  lemma RouteIgnores(e: KeyEvent)
    ensures Route(e) == Ignore <==>
      if IsTypingTarget(e.targetTag) then e.key != Escape
      else !IsPaletteChord(e) && e.key != Escape && e.key !in {"p", "P", "t", "T", "b", "B"}
  {
    ShortcutKeys(e.key);
  }
}
