/**
 * The tab controller of the shell: which tab trigger and which tab panel
 * carry the `active` class, which panel body holds rendered content, and
 * the two cosmetic diff counters shown beside the tabs.
 */
module Tabs {

  /** A tab trigger (keyed by its `data-tab` attribute) or a tab panel
      (keyed by its element id), with the presence of its `active` class. */
  datatype Mark = Mark(key: string, active: bool)

  /** The inner markup of a panel body. `RenderedCode(md)` stands for
      `<code>` + marked.parse(md) + `</code>`; the markdown renderer itself
      is a foreign library and is kept symbolic. */
  datatype Html = Markup(text: string) | RenderedCode(source: string)

  /** Everything `switchTab` reads or writes: the triggers, the panels, the
      panel bodies by element id, and the two displayed counters. */
  datatype TabView = TabView(
    triggers: seq<Mark>,
    panels: seq<Mark>,
    bodies: map<string, Html>,
    additions: int,
    deletions: int)

  /** The id of the panel shown for a tab. */
  function PanelId(tab: string): string { tab + "-content" }

  /** The id of the element that receives a tab's rendered content. */
  function BodyId(tab: string): string { tab + "-body" }

  /** The elements re-marked so that each is active exactly when its key is
      `want`; keys and order are kept. */
  function Marked(ms: seq<Mark>, want: string): (r: seq<Mark>)
    ensures |r| == |ms|
    ensures forall i :: 0 <= i < |ms| ==> r[i].key == ms[i].key && (r[i].active <==> ms[i].key == want)
  {
    if ms == [] then [] else [Mark(ms[0].key, ms[0].key == want)] + Marked(ms[1..], want)
  }

  /** The number of elements carrying the `active` class. */
  function ActiveCount(ms: seq<Mark>): nat
  {
    if ms == [] then 0 else (if ms[0].active then 1 else 0) + ActiveCount(ms[1..])
  }

  /** The number of elements whose key is `key`. */
  function KeyCount(ms: seq<Mark>, key: string): nat
  {
    if ms == [] then 0 else (if ms[0].key == key then 1 else 0) + KeyCount(ms[1..], key)
  }

  /** The page wires at most one trigger (or one panel) per key. */
  ghost predicate UniqueKeys(ms: seq<Mark>)
  {
    forall i, j :: 0 <= i < j < |ms| ==> ms[i].key != ms[j].key
  }

  /** After re-marking, the active elements are exactly those with the
      requested key: as many as the page has with that key. */
  lemma {:induction false} MarkedActiveCount(ms: seq<Mark>, want: string)
    ensures ActiveCount(Marked(ms, want)) == KeyCount(ms, want)
  {
    if ms != [] {
      var r := Marked(ms, want);
      assert r[1..] == Marked(ms[1..], want);
      MarkedActiveCount(ms[1..], want);
    }
  }

  /** With unique keys a key occurs at most once, and exactly once when some
      element has it. */
  lemma {:induction false} UniqueKeyCount(ms: seq<Mark>, key: string)
    requires UniqueKeys(ms)
    ensures KeyCount(ms, key) <= 1
    ensures KeyCount(ms, key) == 1 <==> exists i :: 0 <= i < |ms| && ms[i].key == key
  {
    if ms != [] {
      assert UniqueKeys(ms[1..]) by {
        forall i, j | 0 <= i < j < |ms[1..]| ensures ms[1..][i].key != ms[1..][j].key {
          assert ms[1..][i] == ms[i + 1] && ms[1..][j] == ms[j + 1];
        }
      }
      UniqueKeyCount(ms[1..], key);
      if ms[0].key == key {
        AbsentKeyCount(ms[1..], key);
      } else {
        if exists i :: 0 <= i < |ms| && ms[i].key == key {
          var i :| 0 <= i < |ms| && ms[i].key == key;
          assert ms[1..][i - 1].key == key;
        }
        if exists i :: 0 <= i < |ms[1..]| && ms[1..][i].key == key {
          var i :| 0 <= i < |ms[1..]| && ms[1..][i].key == key;
          assert ms[i + 1].key == key;
        }
      }
    }
  }

  /** A key no element has occurs zero times. */
  lemma {:induction false} AbsentKeyCount(ms: seq<Mark>, key: string)
    requires forall i :: 0 <= i < |ms| ==> ms[i].key != key
    ensures KeyCount(ms, key) == 0
  {
    if ms != [] {
      assert forall i :: 0 <= i < |ms[1..]| ==> ms[1..][i] == ms[i + 1];
      AbsentKeyCount(ms[1..], key);
    }
  }

  /** `content[tab]` is truthy in the script: the key is present and its
      markdown is not the empty string. */
  predicate HasContent(content: map<string, string>, tab: string)
  {
    tab in content && content[tab] != ""
  }

  /** The body update of `switchTab`: only the element `tab-body` is
      rewritten, and only when it exists and the tab has content. */
  function LoadBody(bodies: map<string, Html>, content: map<string, string>, tab: string): (r: map<string, Html>)
    ensures r.Keys == bodies.Keys
    ensures forall id :: id in bodies && id != BodyId(tab) ==> r[id] == bodies[id]
    ensures BodyId(tab) in bodies && HasContent(content, tab) ==> r[BodyId(tab)] == RenderedCode(content[tab])
    ensures !(BodyId(tab) in bodies && HasContent(content, tab)) ==> r == bodies
  {
    if BodyId(tab) in bodies && HasContent(content, tab) then
      bodies[BodyId(tab) := RenderedCode(content[tab])]
    else
      bodies
  }

  /** `Math.floor(u * n)` for a draw `u` of `Math.random()`, which lies in
      [0, 1): always one of 0 .. n - 1. */
  function Draw(u: real, n: nat): (r: int)
    requires 0.0 <= u < 1.0 && n > 0
    ensures 0 <= r < n
  {
    var scaled := u * n as real;
    assert 0.0 <= scaled < n as real by {
      assert u * n as real <= 1.0 * n as real;
      assert u * n as real != n as real;
    }
    scaled.Floor
  }

  /** `switchTab(tab)` with the two random draws `u1`, `u2`. */
  function Switch(v: TabView, content: map<string, string>, tab: string, u1: real, u2: real): (r: TabView)
    requires 0.0 <= u1 < 1.0 && 0.0 <= u2 < 1.0
    ensures |r.triggers| == |v.triggers| && |r.panels| == |v.panels|
    ensures forall i :: 0 <= i < |v.triggers| ==>
      r.triggers[i].key == v.triggers[i].key && (r.triggers[i].active <==> v.triggers[i].key == tab)
    ensures forall i :: 0 <= i < |v.panels| ==>
      r.panels[i].key == v.panels[i].key && (r.panels[i].active <==> v.panels[i].key == PanelId(tab))
    ensures r.bodies == LoadBody(v.bodies, content, tab)
    ensures 0 <= r.additions < 20 && 0 <= r.deletions < 10
  {
    TabView(Marked(v.triggers, tab), Marked(v.panels, PanelId(tab)),
            LoadBody(v.bodies, content, tab), Draw(u1, 20), Draw(u2, 10))
  }

  /** Exclusivity: on a page with one trigger and one panel per key, a
      switch to a known tab leaves exactly one trigger and one panel active,
      and a switch to an unknown tab leaves none active. */
  lemma SwitchIsExclusive(v: TabView, content: map<string, string>, tab: string, u1: real, u2: real)
    requires 0.0 <= u1 < 1.0 && 0.0 <= u2 < 1.0
    requires UniqueKeys(v.triggers) && UniqueKeys(v.panels)
    ensures var r := Switch(v, content, tab, u1, u2);
      && ActiveCount(r.triggers) == (if exists i :: 0 <= i < |v.triggers| && v.triggers[i].key == tab then 1 else 0)
      && ActiveCount(r.panels) == (if exists i :: 0 <= i < |v.panels| && v.panels[i].key == PanelId(tab) then 1 else 0)
  {
    MarkedActiveCount(v.triggers, tab);
    MarkedActiveCount(v.panels, PanelId(tab));
    UniqueKeyCount(v.triggers, tab);
    UniqueKeyCount(v.panels, PanelId(tab));
  }

  /** No earlier `active` flag survives a switch: the outcome depends on the
      keys of the triggers and panels, not on which of them were active. */
  lemma SwitchForgetsHistory(v: TabView, w: TabView, content: map<string, string>, tab: string, u1: real, u2: real)
    requires 0.0 <= u1 < 1.0 && 0.0 <= u2 < 1.0
    requires |v.triggers| == |w.triggers| && forall i :: 0 <= i < |v.triggers| ==> v.triggers[i].key == w.triggers[i].key
    requires |v.panels| == |w.panels| && forall i :: 0 <= i < |v.panels| ==> v.panels[i].key == w.panels[i].key
    requires v.bodies == w.bodies
    ensures Switch(v, content, tab, u1, u2) == Switch(w, content, tab, u1, u2)
  {
  }

  /** Switching to the same tab again changes nothing but the counters,
      which take the new draws. */
  lemma SwitchTwice(v: TabView, content: map<string, string>, tab: string, u1: real, u2: real, w1: real, w2: real)
    requires 0.0 <= u1 < 1.0 && 0.0 <= u2 < 1.0 && 0.0 <= w1 < 1.0 && 0.0 <= w2 < 1.0
    ensures var once := Switch(v, content, tab, u1, u2);
      Switch(once, content, tab, w1, w2) == once.(additions := Draw(w1, 20), deletions := Draw(w2, 10))
  {
  }
}
