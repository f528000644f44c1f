/**
 * The page script as one object: the state its event handlers share and
 * the handlers themselves, each proved against the specification functions
 * of the component it drives.
 */
module Script {
  import opened Wrappers
  import opened Tabs
  import opened Keyboard
  import Resizer
  import ThemePref

  /** The tab a freshly loaded page opens on. */
  const StartTab: string := "projects"

  class Shell {
    // tab controller
    var triggers: seq<Mark>
    var panels: seq<Mark>
    var bodies: map<string, Html>
    const content: map<string, string>
    var additions: int
    var deletions: int
    // command palette
    var paletteOpen: bool
    // resize session
    var isResizing: bool
    var sidebarWidth: Option<int>
    // theme preference
    var dark: bool
    var iconName: string
    var stored: Option<string>

    function TabsOf(): TabView
      reads this
    {
      TabView(triggers, panels, bodies, additions, deletions)
    }

    function SessionOf(): Resizer.Session
      reads this
    {
      Resizer.Session(isResizing, sidebarWidth)
    }

    function ThemeOf(): ThemePref.Theme
      reads this
    {
      ThemePref.Theme(dark, iconName, stored)
    }

    /** The shell's invariant: counters in their displayed ranges, sidebar
        width unset or within bounds, store and theme flag in agreement. */
    ghost predicate Valid()
      reads this
    {
      0 <= additions < 20 && 0 <= deletions < 10 &&
      Resizer.Bounded(sidebarWidth) &&
      ThemePref.Consistent(ThemeOf())
    }

    /** Page load: the served page (its triggers, panels, bodies and theme
        icon, with the palette hidden and light mode) plus the saved slot;
        the script applies the saved theme and then opens the start tab. */
    constructor (triggers0: seq<Mark>, panels0: seq<Mark>, bodies0: map<string, Html>,
                 content: map<string, string>, icon0: string, saved: Option<string>,
                 u1: real, u2: real)
      requires 0.0 <= u1 < 1.0 && 0.0 <= u2 < 1.0
      ensures Valid()
      ensures this.content == content
      ensures TabsOf() == Switch(TabView(triggers0, panels0, bodies0, 0, 0), content, StartTab, u1, u2)
      ensures ThemeOf() == ThemePref.Load(ThemePref.Served(icon0, saved))
      ensures !paletteOpen
      ensures SessionOf() == Resizer.Session(false, None)
    {
      triggers, panels, bodies := triggers0, panels0, bodies0;
      this.content := content;
      additions, deletions := 0, 0;
      paletteOpen := false;
      isResizing, sidebarWidth := false, None;
      dark, iconName, stored := false, icon0, saved;
      new;
      LoadSavedTheme();
      ThemePref.LoadIsConsistent(icon0, saved);
      SwitchTab(StartTab, u1, u2);
    }

    /** `switchTab(tab)`, with `u1` and `u2` the two `Math.random()` draws:
        re-marks every trigger and every panel, renders the tab's body when
        both the body and the content exist, and redraws the counters. */
    method SwitchTab(tab: string, u1: real, u2: real)
      requires 0.0 <= u1 < 1.0 && 0.0 <= u2 < 1.0
      modifies this
      ensures TabsOf() == Switch(old(TabsOf()), content, tab, u1, u2)
      ensures paletteOpen == old(paletteOpen)
      ensures SessionOf() == old(SessionOf()) && ThemeOf() == old(ThemeOf())
      ensures old(Valid()) ==> Valid()
    {
      MarkTriggers(tab);
      MarkPanels(tab);
      if BodyId(tab) in bodies && HasContent(content, tab) {
        bodies := bodies[BodyId(tab) := RenderedCode(content[tab])];
      }
      additions := Draw(u1, 20);
      deletions := Draw(u2, 10);
    }

    /** The first `forEach` of `switchTab`: each trigger gains or loses
        `active` according to its `data-tab`. */
    method MarkTriggers(tab: string)
      modifies this`triggers
      ensures triggers == Marked(old(triggers), tab)
    {
      var i := 0;
      while i < |triggers|
        invariant 0 <= i <= |triggers| == |old(triggers)|
        invariant forall k :: 0 <= k < i ==> triggers[k] == Mark(old(triggers)[k].key, old(triggers)[k].key == tab)
        invariant forall k :: i <= k < |triggers| ==> triggers[k] == old(triggers)[k]
      {
        triggers := triggers[i := Mark(triggers[i].key, triggers[i].key == tab)];
        i := i + 1;
      }
    }

    /** The second `forEach` of `switchTab`: each panel gains or loses
        `active` according to its id. */
    method MarkPanels(tab: string)
      modifies this`panels
      ensures panels == Marked(old(panels), PanelId(tab))
    {
      var j := 0;
      while j < |panels|
        invariant 0 <= j <= |panels| == |old(panels)|
        invariant forall k :: 0 <= k < j ==> panels[k] == Mark(old(panels)[k].key, old(panels)[k].key == PanelId(tab))
        invariant forall k :: j <= k < |panels| ==> panels[k] == old(panels)[k]
      {
        panels := panels[j := Mark(panels[j].key, panels[j].key == PanelId(tab))];
        j := j + 1;
      }
    }

    /** `toggleTheme`. */
    method ToggleTheme()
      modifies this
      ensures ThemeOf() == ThemePref.Toggle(old(ThemeOf()))
      ensures TabsOf() == old(TabsOf()) && paletteOpen == old(paletteOpen) && SessionOf() == old(SessionOf())
      ensures old(Valid()) ==> Valid()
    {
      dark := !dark;
      stored := Some(if dark then "dark" else "light");
      iconName := if dark then "moon" else "sun";
    }

    /** The saved-theme step run once at startup. */
    method LoadSavedTheme()
      modifies this
      ensures ThemeOf() == ThemePref.Load(old(ThemeOf()))
      ensures TabsOf() == old(TabsOf()) && paletteOpen == old(paletteOpen) && SessionOf() == old(SessionOf())
    {
      if stored == Some("dark") {
        dark := true;
        iconName := "moon";
      }
    }

    /** `toggleCommandPalette`. */
    method TogglePalette()
      modifies this
      ensures paletteOpen == !old(paletteOpen)
      ensures TabsOf() == old(TabsOf()) && SessionOf() == old(SessionOf()) && ThemeOf() == old(ThemeOf())
      ensures old(Valid()) ==> Valid()
    {
      paletteOpen := !paletteOpen;
    }

    /** The close button, and every other removal of the palette's `active`
        class. */
    method ClosePalette()
      modifies this
      ensures !paletteOpen
      ensures TabsOf() == old(TabsOf()) && SessionOf() == old(SessionOf()) && ThemeOf() == old(ThemeOf())
      ensures old(Valid()) ==> Valid()
    {
      paletteOpen := false;
    }

    /** A click inside the palette: only a click on the background itself
        (not on its inner content) closes it. */
    method PaletteClick(targetIsBackground: bool)
      modifies this
      ensures paletteOpen == (old(paletteOpen) && !targetIsBackground)
      ensures TabsOf() == old(TabsOf()) && SessionOf() == old(SessionOf()) && ThemeOf() == old(ThemeOf())
      ensures old(Valid()) ==> Valid()
    {
      if targetIsBackground {
        paletteOpen := false;
      }
    }

    /** The `keydown` handler: the router decides, the shell acts. `u1` and
        `u2` are the random draws a tab switch would use. */
    method KeyDown(e: KeyEvent, u1: real, u2: real)
      requires 0.0 <= u1 < 1.0 && 0.0 <= u2 < 1.0
      modifies this
      ensures Route(e).SwitchTo? ==> TabsOf() == Switch(old(TabsOf()), content, Route(e).tab, u1, u2)
      ensures !Route(e).SwitchTo? ==> TabsOf() == old(TabsOf())
      ensures paletteOpen == match Route(e)
        case TogglePalette => !old(paletteOpen)
        case ClosePalette => false
        case _ => old(paletteOpen)
      ensures SessionOf() == old(SessionOf()) && ThemeOf() == old(ThemeOf())
      ensures old(Valid()) ==> Valid()
    {
      match Route(e)
      case Ignore =>
      case TogglePalette => TogglePalette();
      case ClosePalette => ClosePalette();
      case SwitchTo(tab) => SwitchTab(tab, u1, u2);
    }

    /** mousedown on the resizer. */
    method MouseDown()
      modifies this
      ensures SessionOf() == Resizer.Step(old(SessionOf()), Resizer.Down)
      ensures isResizing
      ensures TabsOf() == old(TabsOf()) && paletteOpen == old(paletteOpen) && ThemeOf() == old(ThemeOf())
      ensures old(Valid()) ==> Valid()
    {
      isResizing := true;
    }

    /** mousemove on the document, with the pointer at `clientX`. */
    method MouseMove(clientX: int)
      modifies this
      ensures SessionOf() == Resizer.Step(old(SessionOf()), Resizer.Move(clientX))
      ensures TabsOf() == old(TabsOf()) && paletteOpen == old(paletteOpen) && ThemeOf() == old(ThemeOf())
      ensures old(Valid()) ==> Valid()
    {
      if !isResizing {
        return;
      }
      var newWidth := clientX;
      if newWidth >= Resizer.MinWidth && newWidth <= Resizer.MaxWidth {
        sidebarWidth := Some(newWidth);
      }
    }

    /** mouseup on the document: ends a drag, a no-op otherwise. */
    method MouseUp()
      modifies this
      ensures SessionOf() == Resizer.Step(old(SessionOf()), Resizer.Up)
      ensures !isResizing
      ensures TabsOf() == old(TabsOf()) && paletteOpen == old(paletteOpen) && ThemeOf() == old(ThemeOf())
      ensures old(Valid()) ==> Valid()
    {
      if isResizing {
        isResizing := false;
      }
    }
  }

  /** A page load with nothing saved comes up light, on the start tab, with
      the start tab's body rendered when it exists and has content. */
  method FreshLoad(triggers0: seq<Mark>, panels0: seq<Mark>, bodies0: map<string, Html>,
                   content: map<string, string>, icon0: string, u1: real, u2: real)
    returns (s: Shell)
    requires 0.0 <= u1 < 1.0 && 0.0 <= u2 < 1.0
    ensures !s.dark && s.stored == None && !s.paletteOpen && !s.isResizing
    ensures forall i :: 0 <= i < |s.triggers| ==> (s.triggers[i].active <==> s.triggers[i].key == StartTab)
    ensures forall i :: 0 <= i < |s.panels| ==> (s.panels[i].active <==> s.panels[i].key == PanelId(StartTab))
    ensures BodyId(StartTab) in bodies0 && HasContent(content, StartTab) ==>
      BodyId(StartTab) in s.bodies && s.bodies[BodyId(StartTab)] == RenderedCode(content[StartTab])
  {
    s := new Shell(triggers0, panels0, bodies0, content, icon0, None, u1, u2);
  }

  /** The palette chord pressed twice restores the palette and touches no
      tab. */
  method ChordTwice(s: Shell, e: KeyEvent, u1: real, u2: real)
    requires 0.0 <= u1 < 1.0 && 0.0 <= u2 < 1.0
    requires !IsTypingTarget(e.targetTag) && IsPaletteChord(e)
    modifies s
    ensures s.paletteOpen == old(s.paletteOpen)
    ensures s.TabsOf() == old(s.TabsOf())
  {
    s.KeyDown(e, u1, u2);
    assert s.paletteOpen == !old(s.paletteOpen);
    s.KeyDown(e, u1, u2);
  }

  /** Escape, the close button and a background click each leave the
      palette closed, and repeating them keeps it closed. */
  method CloseIsIdempotent(s: Shell, u1: real, u2: real)
    requires 0.0 <= u1 < 1.0 && 0.0 <= u2 < 1.0
    modifies s
    ensures !s.paletteOpen
    ensures s.TabsOf() == old(s.TabsOf())
  {
    s.KeyDown(KeyEvent(Escape, false, false, "BODY"), u1, u2);
    assert !s.paletteOpen;
    s.KeyDown(KeyEvent(Escape, false, false, "INPUT"), u1, u2);
    assert !s.paletteOpen;
    s.ClosePalette();
    s.ClosePalette();
    s.PaletteClick(true);
    s.PaletteClick(true);
  }

  /** Pressing `t` on the page opens tools; pressing `t` again in a text
      field leaves tools open and the palette as it was. */
  method ToolsThenTyping(s: Shell, u1: real, u2: real)
    requires 0.0 <= u1 < 1.0 && 0.0 <= u2 < 1.0
    modifies s
    ensures forall i :: 0 <= i < |s.triggers| ==> (s.triggers[i].active <==> s.triggers[i].key == "tools")
    ensures forall i :: 0 <= i < |s.panels| ==> (s.panels[i].active <==> s.panels[i].key == PanelId("tools"))
    ensures s.paletteOpen == old(s.paletteOpen)
  {
    var onPage := KeyEvent("t", false, false, "BODY");
    RouteLetters(onPage);
    s.KeyDown(onPage, u1, u2);
    var inField := KeyEvent("t", false, false, "INPUT");
    s.KeyDown(inField, u1, u2);
  }

  /** Open with the chord, close with a background click; open again,
      close with Escape. */
  method PaletteRoundTrip(s: Shell, u1: real, u2: real)
    requires 0.0 <= u1 < 1.0 && 0.0 <= u2 < 1.0
    requires !s.paletteOpen
    modifies s
    ensures !s.paletteOpen
    ensures s.TabsOf() == old(s.TabsOf())
  {
    var chord := KeyEvent("k", true, false, "BODY");
    s.KeyDown(chord, u1, u2);
    assert s.paletteOpen;
    s.PaletteClick(true);
    assert !s.paletteOpen;
    s.KeyDown(KeyEvent("k", false, true, "BODY"), u1, u2);
    assert s.paletteOpen;
    s.KeyDown(KeyEvent(Escape, false, false, "BODY"), u1, u2);
  }
}
