/**
 * The sidebar resize session: `isResizing` and the sidebar's inline width,
 * driven by mousedown on the resizer and by mousemove and mouseup on the
 * document.
 */
module Resizer {
  import opened Wrappers

  const MinWidth: int := 250
  const MaxWidth: int := 600

  /** A pointer position the move handler takes as the new width. */
  predicate Accepts(x: int)
  {
    MinWidth <= x <= MaxWidth
  }

  /** The inline width is unset or within the accepted range. */
  predicate Bounded(width: Option<int>)
  {
    width.None? || Accepts(width.value)
  }

  /** `isResizing` and `sidebar.style.width` (None while never set). */
  datatype Session = Session(resizing: bool, width: Option<int>)

  /** The three pointer events the resizer listens to; `Move` carries
      `clientX`. */
  datatype Pointer = Down | Move(x: int) | Up

  /** One handler run. An out-of-range position is ignored, not clamped. */
  function Step(s: Session, p: Pointer): (r: Session)
    ensures r.resizing <==> p.Down? || (p.Move? && s.resizing)
    ensures r.width != s.width ==> s.resizing && p.Move? && Accepts(p.x) && r.width == Some(p.x)
    ensures s.resizing && p.Move? && Accepts(p.x) ==> r.width == Some(p.x)
    ensures Bounded(s.width) ==> Bounded(r.width)
  {
    match p
    case Down => s.(resizing := true)
    case Move(x) => if s.resizing && Accepts(x) then s.(width := Some(x)) else s
    case Up => if s.resizing then s.(resizing := false) else s
  }

  /** The session after a sequence of pointer events, in order. */
  function Run(s: Session, ps: seq<Pointer>): Session
    decreases ps
  {
    if ps == [] then s else Run(Step(s, ps[0]), ps[1..])
  }

  /** A width that starts unset or in range stays so, whatever the events. */
  lemma {:induction false} RunStaysBounded(s: Session, ps: seq<Pointer>)
    requires Bounded(s.width)
    ensures Bounded(Run(s, ps).width)
    decreases ps
  {
    if ps != [] {
      RunStaysBounded(Step(s, ps[0]), ps[1..]);
    }
  }

  /** Without a mousedown, an idle session ignores every move and mouseup. */
  lemma {:induction false} IdleSessionIgnoresPointer(s: Session, ps: seq<Pointer>)
    requires !s.resizing
    requires forall i :: 0 <= i < |ps| ==> !ps[i].Down?
    ensures Run(s, ps) == s
    decreases ps
  {
    if ps != [] {
      assert Step(s, ps[0]) == s;
      IdleSessionIgnoresPointer(s, ps[1..]);
    }
  }

  /** The width after a drag is the old one or an accepted position that
      some move event of the drag carried. */
  lemma {:induction false} RunWidthComesFromMove(s: Session, ps: seq<Pointer>)
    ensures Run(s, ps).width == s.width
      || exists i :: 0 <= i < |ps| && ps[i].Move? && Accepts(ps[i].x) && Run(s, ps).width == Some(ps[i].x)
    decreases ps
  {
    if ps != [] {
      var t := Step(s, ps[0]);
      RunWidthComesFromMove(t, ps[1..]);
      if Run(t, ps[1..]).width != t.width {
        var i :| 0 <= i < |ps[1..]| && ps[1..][i].Move? && Accepts(ps[1..][i].x) && Run(t, ps[1..]).width == Some(ps[1..][i].x);
        assert ps[i + 1] == ps[1..][i];
      } else if t.width != s.width {
        assert ps[0].Move? && Run(s, ps).width == Some(ps[0].x);
      }
    }
  }
}
