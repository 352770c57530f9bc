/**
 * The info-bubble controller of script.js: a set of release-information
 * bubbles, each in a list item that may hold an inline panel
 * (`.mobile-info-content`) and each possibly holding a floating tooltip
 * (`.info-tooltip`). On a narrow viewport (mobile mode) a bubble discloses
 * its list item's panel; on a wide one (desktop mode) it shows its tooltip.
 * Opening one bubble closes the others.
 *
 * The DOM is abstracted to records of flags: a `Bubble` per `.info-bubble`
 * element, a `Panel` per `.mobile-info-content` element, and index links
 * between them in place of `closest('li')`, `querySelector` and
 * `parentElement`. A `Page` is the value of the whole state; the class
 * `Controller` holds it in arrays and updates it in place as the handlers do.
 */
module InfoBubbles {
  import opened Optional
  import opened JsString

  /** Widths up to this are mobile mode (script.js:12, 168). */
  const MobileBreakpoint: int := 640

  /** The part of a bubble's aria-label in front of the release name (script.js:34). */
  const LabelPrefix: string := "Show release information for "

  predicate IsMobileWidth(width: int)
  {
    width <= MobileBreakpoint
  }

  /** One `.info-bubble` button. */
  datatype Bubble = Bubble(
    ariaLabel: Option<string>,   // aria-label, None when the attribute is absent
    panel: Option<nat>,      // the `.mobile-info-content` of its list item, if any
    hasTooltip: bool,        // whether it holds an `.info-tooltip`
    active: bool,            // the `active` class
    expanded: bool,          // aria-expanded is "true"
    tooltipHidden: bool)     // its tooltip's aria-hidden is "true"

  /** One `.mobile-info-content` panel. */
  datatype Panel = Panel(
    owner: Option<nat>,      // the first `.info-bubble` inside the panel's parent, if any
    expanded: bool,          // the `expanded` class
    hidden: bool)            // aria-hidden is "true"

  /** Everything the controller reads and writes. */
  datatype Page = Page(
    bubbles: seq<Bubble>,
    panels: seq<Panel>,
    mobile: bool,            // the `isMobile` variable
    clickListener: bool,     // whether the document click handler was registered at load
    hasAnnouncer: bool,      // whether `#sr-announcements` exists
    announcement: string)    // the text last announced

  /** Every panel a bubble points at, and every bubble a panel points at, exists. */
  predicate Linked(bs: seq<Bubble>, ps: seq<Panel>)
  {
    (forall i :: 0 <= i < |bs| && bs[i].panel.Some? ==> bs[i].panel.value < |ps|) &&
    (forall q :: 0 <= q < |ps| && ps[q].owner.Some? ==> ps[q].owner.value < |bs|)
  }

  /**
   * Markup in which each list item holds one bubble: the bubble found from
   * a bubble's panel is that bubble again.
   */
  predicate OneBubblePerItem(bs: seq<Bubble>, ps: seq<Panel>)
  {
    forall i :: 0 <= i < |bs| && bs[i].panel.Some? ==>
      bs[i].panel.value < |ps| && ps[bs[i].panel.value].owner == Some(i)
  }

  /** Two bubble lists alike in everything but the flags the handlers set. */
  predicate SameBubbles(bs: seq<Bubble>, cs: seq<Bubble>)
  {
    |bs| == |cs| &&
    forall i :: 0 <= i < |bs| ==>
      bs[i].ariaLabel == cs[i].ariaLabel && bs[i].panel == cs[i].panel && bs[i].hasTooltip == cs[i].hasTooltip
  }

  /** Two panel lists alike in everything but the flags the handlers set. */
  predicate SamePanels(ps: seq<Panel>, qs: seq<Panel>)
  {
    |ps| == |qs| && forall q :: 0 <= q < |ps| ==> ps[q].owner == qs[q].owner
  }

  /** The parts of a page that no handler changes. */
  predicate SameLayout(a: Page, c: Page)
  {
    SameBubbles(a.bubbles, c.bubbles) && SamePanels(a.panels, c.panels) &&
    a.clickListener == c.clickListener && a.hasAnnouncer == c.hasAnnouncer
  }

  lemma LayoutKeepsLinks(a: Page, c: Page)
    requires SameLayout(a, c)
    ensures Linked(a.bubbles, a.panels) ==> Linked(c.bubbles, c.panels)
    ensures OneBubblePerItem(a.bubbles, a.panels) ==> OneBubblePerItem(c.bubbles, c.panels)
  {
  }

  /** Rewriting one bubble and one panel without touching their links keeps the page linked. */
  lemma UpdateKeepsLinks(bs: seq<Bubble>, ps: seq<Panel>, b: nat, x: Bubble, q: nat, y: Panel)
    requires Linked(bs, ps) && b < |bs| && q < |ps|
    requires x.panel == bs[b].panel && y.owner == ps[q].owner
    ensures Linked(bs[b := x], ps[q := y])
  {
  }

  // ---------------------------------------------------------------------
  // Announcements

  /** The release name: the label with its first "Show release information for " removed (script.js:34). */
  function ReleaseName(ariaLabel: string): string
  {
    Replace(ariaLabel, LabelPrefix, "")
  }

  /** "expanded"/"collapsed" in mobile mode, "shown"/"hidden" in desktop mode (script.js:61-65, 92-96). */
  function StateWord(mobile: bool, on: bool): string
  {
    if mobile then (if on then "expanded" else "collapsed")
    else (if on then "shown" else "hidden")
  }

  function ToggleMessage(ariaLabel: string, mobile: bool, on: bool): string
  {
    ReleaseName(ariaLabel) + " release information " + StateWord(mobile, on)
  }

  /** `announceToScreenReader` (script.js:18-26); the 1000 ms clearing timer is not modelled. */
  function Announce(pg: Page, msg: string): Page
  {
    if pg.hasAnnouncer then pg.(announcement := msg) else pg
  }

  lemma ReleaseNameOfLabel(name: string)
    ensures ReleaseName(LabelPrefix + name) == name
  {
    ReplacePrefix(LabelPrefix, name);
  }

  /** The four state words differ, so an announcement tells the mode and the new state apart. */
  lemma StateWordsDistinct(m1: bool, on1: bool, m2: bool, on2: bool)
    requires StateWord(m1, on1) == StateWord(m2, on2)
    ensures m1 == m2 && on1 == on2
  {
    assert StateWord(m1, on1)[0] == StateWord(m2, on2)[0];
  }

  /** For one label, the announced text determines the mode and the new state. */
  lemma ToggleMessageDetermines(ariaLabel: string, m1: bool, on1: bool, m2: bool, on2: bool)
    requires ToggleMessage(ariaLabel, m1, on1) == ToggleMessage(ariaLabel, m2, on2)
    ensures m1 == m2 && on1 == on2
  {
    var head := ReleaseName(ariaLabel) + " release information ";
    var w1, w2 := StateWord(m1, on1), StateWord(m2, on2);
    assert (head + w1)[|head|..] == w1;
    assert (head + w2)[|head|..] == w2;
    StateWordsDistinct(m1, on1, m2, on2);
  }

  // ---------------------------------------------------------------------
  // Per-element effects

  /** Active class, aria-expanded and tooltip aria-hidden all showing `on` (script.js:85-89, 74-79). */
  function Shown(x: Bubble, on: bool): Bubble
  {
    x.(active := on, expanded := on,
       tooltipHidden := if x.hasTooltip then !on else x.tooltipHidden)
  }

  /** A panel's class and aria-hidden showing `on` (script.js:56-57, 125-126). */
  function Opened(x: Panel, on: bool): Panel
  {
    x.(expanded := on, hidden := !on)
  }

  /** What the `.mobile-info-content.expanded` loops do to a panel (script.js:43-46, 180-183). */
  function Collapsed(x: Panel): Panel
  {
    if x.expanded then Opened(x, false) else x
  }

  // ---------------------------------------------------------------------
  // Whole-collection effects

  /** Desktop loop: every bubble but `b` dismissed (script.js:72-81). */
  function DismissOthers(bs: seq<Bubble>, b: nat): (r: seq<Bubble>)
    ensures SameBubbles(bs, r)
  {
    seq(|bs|, i requires 0 <= i < |bs| => if i == b then bs[i] else Shown(bs[i], false))
  }

  /** Every bubble dismissed (script.js:155-162, 172-179). */
  function DismissAll(bs: seq<Bubble>): (r: seq<Bubble>)
    ensures SameBubbles(bs, r)
  {
    seq(|bs|, i requires 0 <= i < |bs| => Shown(bs[i], false))
  }

  /** Mobile loop on panels: every expanded panel but `p` collapsed (script.js:43-46). */
  function CollapseOthers(ps: seq<Panel>, p: nat): (r: seq<Panel>)
    ensures SamePanels(ps, r)
  {
    seq(|ps|, q requires 0 <= q < |ps| => if q == p then ps[q] else Collapsed(ps[q]))
  }

  /** Every expanded panel collapsed (script.js:180-183). */
  function CollapseAll(ps: seq<Panel>): (r: seq<Panel>)
    ensures SamePanels(ps, r)
  {
    seq(|ps|, q requires 0 <= q < |ps| => Collapsed(ps[q]))
  }

  /** The bubbles found from the panels among the first `k` that the mobile loop collapses (script.js:47-50). */
  function ClosedOwners(ps: seq<Panel>, p: nat, k: nat): set<nat>
    requires k <= |ps|
    decreases k
  {
    if k == 0 then {}
    else
      var q := k - 1;
      ClosedOwners(ps, p, q) +
        (if q != p && ps[q].expanded && ps[q].owner.Some? then {ps[q].owner.value} else {})
  }

  /** aria-expanded reset on the bubbles in `owners` (script.js:49). */
  function ClearExpanded(bs: seq<Bubble>, owners: set<nat>): (r: seq<Bubble>)
    ensures SameBubbles(bs, r)
  {
    seq(|bs|, i requires 0 <= i < |bs| => if i in owners then bs[i].(expanded := false) else bs[i])
  }

  /** A bubble is found from a panel the mobile loop collapses exactly when that panel is not `p`, is expanded and leads to it. */
  lemma {:induction false} ClosedOwnersSpec(ps: seq<Panel>, p: nat, k: nat, o: nat)
    requires k <= |ps|
    ensures o in ClosedOwners(ps, p, k) <==>
      exists q :: 0 <= q < k && q != p && ps[q].expanded && ps[q].owner == Some(o)
    decreases k
  {
    if k > 0 {
      ClosedOwnersSpec(ps, p, k - 1, o);
      var q := k - 1;
      if q != p && ps[q].expanded && ps[q].owner == Some(o) {
        assert o in ClosedOwners(ps, p, k);
      }
    }
  }

  // ---------------------------------------------------------------------
  // Handlers

  /** The page as loaded: `isMobile` from the width, the document click handler only on a desktop load (script.js:12, 153). */
  function Load(bs: seq<Bubble>, ps: seq<Panel>, width: int, hasAnnouncer: bool): Page
  {
    var mobile := IsMobileWidth(width);
    Page(bs, ps, mobile, !mobile, hasAnnouncer, "")
  }

  /** The mobile branch of `toggleContent` for bubble `b` whose list item holds panel `p` (script.js:41-66). */
  function MobileToggled(pg: Page, b: nat, p: nat): Page
    requires b < |pg.bubbles| && p < |pg.panels| && pg.bubbles[b].ariaLabel.Some?
  {
    var x := pg.bubbles[b];
    var on := !x.expanded;
    var bs := ClearExpanded(pg.bubbles, ClosedOwners(pg.panels, p, |pg.panels|))[b := x.(expanded := on)];
    var ps := CollapseOthers(pg.panels, p)[p := Opened(pg.panels[p], on)];
    Announce(pg.(bubbles := bs, panels := ps), ToggleMessage(x.ariaLabel.value, true, on))
  }

  /** The desktop branch of `toggleContent` (script.js:67-97). */
  function DesktopToggled(pg: Page, b: nat): Page
    requires b < |pg.bubbles| && pg.bubbles[b].ariaLabel.Some?
  {
    var x := pg.bubbles[b];
    var on := !x.expanded;
    Announce(pg.(bubbles := DismissOthers(pg.bubbles, b)[b := Shown(x, on)]), ToggleMessage(x.ariaLabel.value, false, on))
  }

  /**
   * `toggleContent(bubble)` (script.js:32-98). A bubble without an
   * aria-label makes line 34 throw before anything changes; in mobile mode a
   * bubble whose list item has no panel changes nothing.
   */
  function Toggled(pg: Page, b: nat): (r: Page)
    requires Linked(pg.bubbles, pg.panels)
  {
    if b >= |pg.bubbles| || pg.bubbles[b].ariaLabel.None? then pg
    else if pg.mobile then
      match pg.bubbles[b].panel
      case None => pg
      case Some(p) => MobileToggled(pg, b, p)
    else DesktopToggled(pg, b)
  }

  /** The Escape branch of a bubble's keydown handler (script.js:117-139). */
  function Escaped(pg: Page, b: nat): (r: Page)
    requires Linked(pg.bubbles, pg.panels)
  {
    if b >= |pg.bubbles| || !pg.bubbles[b].expanded then pg
    else
      var x := pg.bubbles[b];
      if pg.mobile then
        match x.panel
        case None => pg
        case Some(p) =>
          var ps := pg.panels[p := Opened(pg.panels[p], false)];
          var bs := pg.bubbles[b := x.(expanded := false)];
          Announce(pg.(bubbles := bs, panels := ps), "Release information collapsed")
      else
        Announce(pg.(bubbles := pg.bubbles[b := Shown(x, false)]), "Release information hidden")
  }

  /** A bubble's keydown handler: Enter and Space toggle, Escape closes (script.js:110-141). */
  function Keyed(pg: Page, b: nat, key: string): (r: Page)
    requires Linked(pg.bubbles, pg.panels)
  {
    if key == "Enter" || key == " " then Toggled(pg, b)
    else if key == "Escape" then Escaped(pg, b)
    else pg
  }

  /** The document click handler, present only when registered at load (script.js:153-164). */
  function ClickedOutside(pg: Page): (r: Page)
  {
    if pg.clickListener then pg.(bubbles := DismissAll(pg.bubbles)) else pg
  }

  /** The resize handler (script.js:167-185). */
  function Resized(pg: Page, width: int): (r: Page)
  {
    var nowMobile := IsMobileWidth(width);
    if nowMobile == pg.mobile then pg
    else pg.(mobile := nowMobile, bubbles := DismissAll(pg.bubbles), panels := CollapseAll(pg.panels))
  }

  /** The events the controller reacts to. A click on a bubble does not reach the document (script.js:105). */
  datatype Event =
    | BubbleClick(bubble: nat)
    | BubbleKey(bubble: nat, key: string)
    | DocumentClick
    | WindowResize(width: int)

  function Step(pg: Page, e: Event): (r: Page)
    requires Linked(pg.bubbles, pg.panels)
  {
    match e
    case BubbleClick(b) => Toggled(pg, b)
    case BubbleKey(b, key) => Keyed(pg, b, key)
    case DocumentClick => ClickedOutside(pg)
    case WindowResize(w) => Resized(pg, w)
  }

  /** No handler changes labels, links, tooltips or the registered listeners. */
  lemma StepKeepsLayout(pg: Page, e: Event)
    requires Linked(pg.bubbles, pg.panels)
    ensures SameLayout(pg, Step(pg, e))
  {
    match e
    case BubbleClick(b) => ToggleKeepsLayout(pg, b);
    case BubbleKey(b, key) =>
      ToggleKeepsLayout(pg, b);
      EscapeKeepsLayout(pg, b);
    case DocumentClick =>
    case WindowResize(w) =>
  }

  lemma ToggleKeepsLayout(pg: Page, b: nat)
    requires Linked(pg.bubbles, pg.panels)
    ensures SameLayout(pg, Toggled(pg, b))
  {
    if b < |pg.bubbles| && pg.bubbles[b].ariaLabel.Some? {
      if !pg.mobile {
        DesktopToggledLayout(pg, b);
      } else if pg.bubbles[b].panel.Some? {
        MobileToggledLayout(pg, b, pg.bubbles[b].panel.value);
      }
    }
  }

  lemma MobileToggledLayout(pg: Page, b: nat, p: nat)
    requires b < |pg.bubbles| && p < |pg.panels| && pg.bubbles[b].ariaLabel.Some?
    ensures SameLayout(pg, MobileToggled(pg, b, p))
  {
    var x := pg.bubbles[b];
    var cleared := ClearExpanded(pg.bubbles, ClosedOwners(pg.panels, p, |pg.panels|));
    var collapsed := CollapseOthers(pg.panels, p);
    assert SameBubbles(pg.bubbles, cleared[b := x.(expanded := !x.expanded)]);
    assert SamePanels(pg.panels, collapsed[p := Opened(pg.panels[p], !x.expanded)]);
  }

  lemma DesktopToggledLayout(pg: Page, b: nat)
    requires b < |pg.bubbles| && pg.bubbles[b].ariaLabel.Some?
    ensures SameLayout(pg, DesktopToggled(pg, b))
  {
    var x := pg.bubbles[b];
    var dismissed := DismissOthers(pg.bubbles, b);
    assert SameBubbles(pg.bubbles, dismissed[b := Shown(x, !x.expanded)]);
  }

  lemma EscapeKeepsLayout(pg: Page, b: nat)
    requires Linked(pg.bubbles, pg.panels)
    ensures SameLayout(pg, Escaped(pg, b))
  {
    var r := Escaped(pg, b);
    if b < |pg.bubbles| && pg.bubbles[b].expanded {
      var x := pg.bubbles[b];
      if !pg.mobile {
        assert r.bubbles == pg.bubbles[b := Shown(x, false)] && r.panels == pg.panels;
        assert SameBubbles(pg.bubbles, r.bubbles);
      } else if x.panel.Some? {
        var q := x.panel.value;
        assert r.bubbles == pg.bubbles[b := x.(expanded := false)];
        assert r.panels == pg.panels[q := Opened(pg.panels[q], false)];
        assert SameBubbles(pg.bubbles, r.bubbles);
        assert SamePanels(pg.panels, r.panels);
      }
    }
  }

  function Run(pg: Page, evs: seq<Event>): Page
    requires Linked(pg.bubbles, pg.panels)
    decreases |evs|
  {
    if evs == [] then pg
    else
      var next := Step(pg, evs[0]);
      StepKeepsLayout(pg, evs[0]);
      LayoutKeepsLinks(pg, next);
      Run(next, evs[1..])
  }

  // ---------------------------------------------------------------------
  // The exclusivity invariant

  /** Bubble `i` agrees with the mode: in mobile mode only its panel can show it open; in desktop mode class, aria-expanded and tooltip agree. */
  predicate Coherent(pg: Page, i: nat)
    requires i < |pg.bubbles|
  {
    var x := pg.bubbles[i];
    if pg.mobile then
      !x.active && (x.hasTooltip ==> x.tooltipHidden) &&
      (x.expanded ==> x.panel.Some? && x.panel.value < |pg.panels| && pg.panels[x.panel.value].expanded)
    else
      x.active == x.expanded && (x.hasTooltip ==> x.tooltipHidden == !x.expanded)
  }

  /** At most one bubble and at most one panel open, every bubble coherent with the mode. */
  predicate Exclusive(pg: Page)
  {
    (forall i, j :: 0 <= i < j < |pg.bubbles| ==> !(pg.bubbles[i].expanded && pg.bubbles[j].expanded)) &&
    (forall q, r :: 0 <= q < r < |pg.panels| ==> !(pg.panels[q].expanded && pg.panels[r].expanded)) &&
    (forall i :: 0 <= i < |pg.bubbles| ==> Coherent(pg, i))
  }

  /** Markup as served: nothing open, every tooltip hidden. */
  predicate Quiet(bs: seq<Bubble>, ps: seq<Panel>)
  {
    (forall i :: 0 <= i < |bs| ==> !bs[i].active && !bs[i].expanded && (bs[i].hasTooltip ==> bs[i].tooltipHidden)) &&
    (forall q :: 0 <= q < |ps| ==> !ps[q].expanded)
  }

  lemma LoadIsExclusive(bs: seq<Bubble>, ps: seq<Panel>, width: int, hasAnnouncer: bool)
    requires Quiet(bs, ps)
    ensures Exclusive(Load(bs, ps, width, hasAnnouncer))
  {
  }

  /** Opening one bubble closes the others (script.js:43-58, 72-89). */
  lemma ToggleKeepsExclusive(pg: Page, b: nat)
    requires Linked(pg.bubbles, pg.panels) && OneBubblePerItem(pg.bubbles, pg.panels)
    requires Exclusive(pg)
    ensures Exclusive(Toggled(pg, b))
  {
    if b < |pg.bubbles| && pg.bubbles[b].ariaLabel.Some? {
      if !pg.mobile {
        DesktopToggledExclusive(pg, b);
      } else if pg.bubbles[b].panel.Some? {
        MobileToggledExclusive(pg, b, pg.bubbles[b].panel.value);
      }
    }
  }

  lemma DesktopToggledExclusive(pg: Page, b: nat)
    requires Exclusive(pg) && !pg.mobile
    requires b < |pg.bubbles| && pg.bubbles[b].ariaLabel.Some?
    ensures Exclusive(DesktopToggled(pg, b))
  {
    var r := DesktopToggled(pg, b);
    assert forall i :: 0 <= i < |r.bubbles| && i != b ==> !r.bubbles[i].expanded;
    forall i | 0 <= i < |r.bubbles| ensures Coherent(r, i) {
    }
  }

  /** The mobile loop resets every open bubble but the target: with one bubble per item, its panel leads back to it. */
  lemma MobileToggledOthersClosed(pg: Page, b: nat, p: nat)
    requires Linked(pg.bubbles, pg.panels) && OneBubblePerItem(pg.bubbles, pg.panels)
    requires Exclusive(pg) && pg.mobile
    requires b < |pg.bubbles| && pg.bubbles[b].ariaLabel.Some? && pg.bubbles[b].panel == Some(p)
    ensures forall i :: 0 <= i < |pg.bubbles| && i != b ==> !MobileToggled(pg, b, p).bubbles[i].expanded
  {
    var closed := ClosedOwners(pg.panels, p, |pg.panels|);
    forall i | 0 <= i < |pg.bubbles| && i != b && pg.bubbles[i].expanded
      ensures i in closed
    {
      assert Coherent(pg, i);
      var q := pg.bubbles[i].panel.value;
      assert pg.panels[q].owner == Some(i);
      ClosedOwnersSpec(pg.panels, p, |pg.panels|, i);
    }
  }

  /** The mobile case needs one bubble per list item: the panel closed for a bubble must lead back to it. */
  lemma MobileToggledExclusive(pg: Page, b: nat, p: nat)
    requires Linked(pg.bubbles, pg.panels) && OneBubblePerItem(pg.bubbles, pg.panels)
    requires Exclusive(pg) && pg.mobile
    requires b < |pg.bubbles| && pg.bubbles[b].ariaLabel.Some? && pg.bubbles[b].panel == Some(p)
    ensures Exclusive(MobileToggled(pg, b, p))
  {
    var r := MobileToggled(pg, b, p);
    MobileToggledOthersClosed(pg, b, p);
    forall q | 0 <= q < |r.panels| && q != p ensures !r.panels[q].expanded {
    }
    forall i | 0 <= i < |r.bubbles| ensures Coherent(r, i) {
      assert Coherent(pg, i);
    }
  }

  lemma EscapeKeepsExclusive(pg: Page, b: nat)
    requires Linked(pg.bubbles, pg.panels)
    requires Exclusive(pg)
    ensures Exclusive(Escaped(pg, b))
  {
    if b < |pg.bubbles| && pg.bubbles[b].expanded {
      var r := Escaped(pg, b);
      forall i | 0 <= i < |pg.bubbles| ensures Coherent(r, i) {
        assert Coherent(pg, i);
      }
    }
  }

  lemma StepKeepsExclusive(pg: Page, e: Event)
    requires Linked(pg.bubbles, pg.panels) && OneBubblePerItem(pg.bubbles, pg.panels)
    requires Exclusive(pg)
    ensures Exclusive(Step(pg, e))
  {
    match e
    case BubbleClick(b) => ToggleKeepsExclusive(pg, b);
    case BubbleKey(b, key) =>
      ToggleKeepsExclusive(pg, b);
      EscapeKeepsExclusive(pg, b);
    case DocumentClick =>
    case WindowResize(w) =>
  }

  /** After any sequence of events, at most one bubble and one panel are open. */
  lemma {:induction false} RunKeepsExclusive(pg: Page, evs: seq<Event>)
    requires Linked(pg.bubbles, pg.panels) && OneBubblePerItem(pg.bubbles, pg.panels)
    requires Exclusive(pg)
    ensures Exclusive(Run(pg, evs))
    decreases |evs|
  {
    if evs != [] {
      var next := Step(pg, evs[0]);
      StepKeepsExclusive(pg, evs[0]);
      StepKeepsLayout(pg, evs[0]);
      LayoutKeepsLinks(pg, next);
      RunKeepsExclusive(next, evs[1..]);
    }
  }

  /**
   * Without one bubble per list item, exclusivity fails: two bubbles share a
   * panel whose first bubble is the other one, so collapsing that panel
   * resets the wrong bubble and a second tap elsewhere leaves two expanded.
   */
  lemma SharedItemBreaksExclusive()
    ensures var x := Bubble(Some("l"), Some(0), false, false, false, false);
      var y := Bubble(Some("l"), Some(1), false, false, false, false);
      var bs := [x, x, y];
      var ps := [Panel(Some(0), false, false), Panel(Some(2), false, false)];
      var r := Run(Load(bs, ps, 320, false), [BubbleClick(1), BubbleClick(2)]);
      Linked(bs, ps) && Quiet(bs, ps) && Exclusive(Load(bs, ps, 320, false)) &&
      !OneBubblePerItem(bs, ps) &&
      r.bubbles[1].expanded && r.bubbles[2].expanded && !Exclusive(r)
  {
    var x := Bubble(Some("l"), Some(0), false, false, false, false);
    var y := Bubble(Some("l"), Some(1), false, false, false, false);
    var bs := [x, x, y];
    var ps := [Panel(Some(0), false, false), Panel(Some(2), false, false)];
    var pg := Load(bs, ps, 320, false);
    var one := Toggled(pg, 1);
    assert one.bubbles == [x, x.(expanded := true), y] by {
      assert ClosedOwners(ps, 0, 2) == {};
    }
    assert one.panels == [Opened(ps[0], true), ps[1]];
    var two := Toggled(one, 2);
    assert two.bubbles == [x, x.(expanded := true), y.(expanded := true)] by {
      assert 0 in ClosedOwners(one.panels, 1, 2);
    }
    assert Run(pg, [BubbleClick(1), BubbleClick(2)]) == Run(one, [BubbleClick(2)]);
    assert Run(one, [BubbleClick(2)]) == Run(two, []);
  }

  // ---------------------------------------------------------------------
  // Properties of the single handlers

  /** Desktop toggle: every other bubble dismissed, the target flipped in class, aria-expanded and tooltip (script.js:72-89). */
  lemma DesktopToggleEffect(pg: Page, b: nat)
    requires Linked(pg.bubbles, pg.panels)
    requires !pg.mobile && b < |pg.bubbles| && pg.bubbles[b].ariaLabel.Some?
    ensures var r := Toggled(pg, b); var on := !pg.bubbles[b].expanded;
      r.panels == pg.panels && r.mobile == pg.mobile &&
      r.bubbles[b].expanded == on && r.bubbles[b].active == on &&
      (pg.bubbles[b].hasTooltip ==> r.bubbles[b].tooltipHidden == !on) &&
      forall i :: 0 <= i < |pg.bubbles| && i != b ==>
        !r.bubbles[i].active && !r.bubbles[i].expanded &&
        (pg.bubbles[i].hasTooltip ==> r.bubbles[i].tooltipHidden)
  {
  }

  /** Mobile toggle: the target panel follows the flipped state, every other panel is closed, and the bubbles of the panels closed lose aria-expanded (script.js:43-58). */
  lemma MobileToggleEffect(pg: Page, b: nat)
    requires Linked(pg.bubbles, pg.panels)
    requires pg.mobile && b < |pg.bubbles| && pg.bubbles[b].ariaLabel.Some? && pg.bubbles[b].panel.Some?
    ensures var r := Toggled(pg, b); var p := pg.bubbles[b].panel.value; var on := !pg.bubbles[b].expanded;
      r.bubbles[b].expanded == on && r.panels[p].expanded == on && r.panels[p].hidden == !on &&
      (forall q :: 0 <= q < |pg.panels| && q != p ==> !r.panels[q].expanded) &&
      (forall q :: 0 <= q < |pg.panels| && q != p && pg.panels[q].expanded ==>
        r.panels[q].hidden &&
        (pg.panels[q].owner.Some? && pg.panels[q].owner.value != b ==> !r.bubbles[pg.panels[q].owner.value].expanded)) &&
      (forall q :: 0 <= q < |pg.panels| && !pg.panels[q].expanded && q != p ==> r.panels[q] == pg.panels[q]) &&
      forall i :: 0 <= i < |pg.bubbles| ==> r.bubbles[i].active == pg.bubbles[i].active
  {
    var p := pg.bubbles[b].panel.value;
    forall q | 0 <= q < |pg.panels| && q != p && pg.panels[q].expanded && pg.panels[q].owner.Some?
      ensures pg.panels[q].owner.value in ClosedOwners(pg.panels, p, |pg.panels|)
    {
      ClosedOwnersSpec(pg.panels, p, |pg.panels|, pg.panels[q].owner.value);
    }
  }

  /** In mobile mode a bubble whose list item has no panel changes nothing and announces nothing (script.js:38-41, 66). */
  lemma MobileWithoutPanelIsNoOp(pg: Page, b: nat)
    requires Linked(pg.bubbles, pg.panels)
    requires pg.mobile && b < |pg.bubbles| && pg.bubbles[b].panel.None?
    ensures Toggled(pg, b) == pg
  {
  }

  /** The announcement names the release taken from the label and the new state (script.js:34, 61-65, 92-96). */
  lemma ToggleAnnouncesRelease(pg: Page, b: nat, name: string)
    requires Linked(pg.bubbles, pg.panels)
    requires b < |pg.bubbles| && pg.bubbles[b].ariaLabel == Some(LabelPrefix + name) && pg.hasAnnouncer
    requires pg.mobile ==> pg.bubbles[b].panel.Some?
    ensures Toggled(pg, b).announcement ==
      name + " release information " + StateWord(pg.mobile, !pg.bubbles[b].expanded)
  {
    ReleaseNameOfLabel(name);
  }

  /** Toggling the one open bubble closes everything (script.js:43-58, 72-89). */
  lemma ToggleOpenCloses(pg: Page, b: nat)
    requires Linked(pg.bubbles, pg.panels) && Exclusive(pg)
    requires b < |pg.bubbles| && pg.bubbles[b].ariaLabel.Some? && pg.bubbles[b].expanded
    requires pg.mobile ==> pg.bubbles[b].panel.Some?
    ensures var r := Toggled(pg, b);
      (forall i :: 0 <= i < |r.bubbles| ==> !r.bubbles[i].expanded && !r.bubbles[i].active) &&
      (pg.mobile ==> forall q :: 0 <= q < |r.panels| ==> !r.panels[q].expanded)
  {
    var r := Toggled(pg, b);
    if pg.mobile {
      MobileToggleEffect(pg, b);
      forall i | 0 <= i < |r.bubbles| ensures !r.bubbles[i].expanded && !r.bubbles[i].active {
        assert Coherent(pg, i);
        if i != b {
          assert !pg.bubbles[i].expanded;
        }
      }
    } else {
      DesktopToggleEffect(pg, b);
    }
  }

  /** Toggling a closed bubble twice leaves every bubble and panel closed (script.js:33, 55-58, 84-89). */
  lemma ToggleTwiceCloses(pg: Page, b: nat)
    requires Linked(pg.bubbles, pg.panels) && OneBubblePerItem(pg.bubbles, pg.panels)
    requires Exclusive(pg)
    requires b < |pg.bubbles| && pg.bubbles[b].ariaLabel.Some? && !pg.bubbles[b].expanded
    requires pg.mobile ==> pg.bubbles[b].panel.Some?
    ensures var r := Toggled(Toggled(pg, b), b);
      (forall i :: 0 <= i < |r.bubbles| ==> !r.bubbles[i].expanded && !r.bubbles[i].active) &&
      (pg.mobile ==> forall q :: 0 <= q < |r.panels| ==> !r.panels[q].expanded)
  {
    var once := Toggled(pg, b);
    ToggleKeepsExclusive(pg, b);
    ToggleKeepsLayout(pg, b);
    LayoutKeepsLinks(pg, once);
    if pg.mobile {
      MobileToggleEffect(pg, b);
    } else {
      DesktopToggleEffect(pg, b);
    }
    assert once.bubbles[b].ariaLabel == pg.bubbles[b].ariaLabel && once.bubbles[b].panel == pg.bubbles[b].panel;
    ToggleOpenCloses(once, b);
  }

  /** Escape acts only on an open bubble and changes no other bubble, and no panel but its own (script.js:117-139). */
  lemma EscapeOnlyTarget(pg: Page, b: nat)
    requires Linked(pg.bubbles, pg.panels)
    requires b < |pg.bubbles|
    ensures var r := Escaped(pg, b);
      (!pg.bubbles[b].expanded ==> r == pg) &&
      (forall i :: 0 <= i < |pg.bubbles| && i != b ==> r.bubbles[i] == pg.bubbles[i]) &&
      (forall q :: 0 <= q < |pg.panels| && pg.bubbles[b].panel != Some(q) ==> r.panels[q] == pg.panels[q]) &&
      (pg.bubbles[b].expanded && (!pg.mobile || pg.bubbles[b].panel.Some?) ==> !r.bubbles[b].expanded) &&
      (pg.bubbles[b].expanded && pg.mobile && pg.bubbles[b].panel.Some? ==>
        !r.panels[pg.bubbles[b].panel.value].expanded && r.panels[pg.bubbles[b].panel.value].hidden &&
        (pg.hasAnnouncer ==> r.announcement == "Release information collapsed")) &&
      (pg.bubbles[b].expanded && !pg.mobile ==>
        !r.bubbles[b].active && (pg.bubbles[b].hasTooltip ==> r.bubbles[b].tooltipHidden) &&
        (pg.hasAnnouncer ==> r.announcement == "Release information hidden"))
  {
  }

  /** A resize that does not cross the breakpoint changes nothing; one that does flips the mode and closes everything (script.js:167-185). */
  lemma ResizeEffect(pg: Page, width: int)
    ensures var r := Resized(pg, width);
      (IsMobileWidth(width) == pg.mobile ==> r == pg) &&
      (IsMobileWidth(width) != pg.mobile ==>
        r.mobile == IsMobileWidth(width) &&
        (forall i :: 0 <= i < |r.bubbles| ==>
          !r.bubbles[i].active && !r.bubbles[i].expanded && (r.bubbles[i].hasTooltip ==> r.bubbles[i].tooltipHidden)) &&
        (forall q :: 0 <= q < |r.panels| ==> !r.panels[q].expanded))
  {
  }

  /** The document click handler clears every bubble and tooltip and never touches a panel (script.js:153-164). */
  lemma OutsideClickEffect(pg: Page)
    requires pg.clickListener
    ensures var r := ClickedOutside(pg);
      r.panels == pg.panels &&
      forall i :: 0 <= i < |r.bubbles| ==>
        !r.bubbles[i].active && !r.bubbles[i].expanded && (r.bubbles[i].hasTooltip ==> r.bubbles[i].tooltipHidden)
  {
  }

  /** A page loaded wide and shrunk past the breakpoint is in mobile mode with its document click handler still installed. */
  lemma LoadThenShrink(bs: seq<Bubble>, ps: seq<Panel>, wide: int, narrow: int)
    requires Linked(bs, ps)
    requires !IsMobileWidth(wide) && IsMobileWidth(narrow)
    ensures var r := Resized(Load(bs, ps, wide, true), narrow);
      r.mobile && r.clickListener && r.hasAnnouncer && Linked(r.bubbles, r.panels) &&
      |r.bubbles| == |bs| && |r.panels| == |ps| &&
      forall i :: 0 <= i < |bs| ==>
        r.bubbles[i].ariaLabel == bs[i].ariaLabel && r.bubbles[i].panel == bs[i].panel && !r.bubbles[i].expanded
  {
    var loaded := Load(bs, ps, wide, true);
    ResizeEffect(loaded, narrow);
    StepKeepsLayout(loaded, WindowResize(narrow));
    LayoutKeepsLinks(loaded, Resized(loaded, narrow));
  }

  /** A mobile tap opens the bubble and its panel; a click outside then resets the bubble but not the panel. */
  lemma TapThenClickOutside(pg: Page, b: nat)
    requires Linked(pg.bubbles, pg.panels)
    requires pg.mobile && pg.clickListener
    requires b < |pg.bubbles| && pg.bubbles[b].ariaLabel.Some? && pg.bubbles[b].panel.Some?
    requires !pg.bubbles[b].expanded
    ensures var p := pg.bubbles[b].panel.value;
      var tapped := Toggled(pg, b);
      var clicked := ClickedOutside(tapped);
      tapped.bubbles[b].expanded && tapped.panels[p].expanded &&
      !clicked.bubbles[b].expanded && clicked.panels[p].expanded &&
      clicked.mobile && clicked.hasAnnouncer == pg.hasAnnouncer && SameLayout(pg, clicked)
  {
    MobileToggleEffect(pg, b);
    var tapped := Toggled(pg, b);
    ToggleKeepsLayout(pg, b);
    OutsideClickEffect(tapped);
    StepKeepsLayout(tapped, DocumentClick);
  }

  /** A mobile tap on a closed bubble whose panel is already expanded "expands" it once more. */
  lemma RetapOpenPanel(pg: Page, b: nat, name: string)
    requires Linked(pg.bubbles, pg.panels)
    requires pg.mobile && pg.hasAnnouncer
    requires b < |pg.bubbles| && pg.bubbles[b].ariaLabel == Some(LabelPrefix + name) && pg.bubbles[b].panel.Some?
    requires !pg.bubbles[b].expanded && pg.panels[pg.bubbles[b].panel.value].expanded
    ensures var p := pg.bubbles[b].panel.value; var r := Toggled(pg, b);
      r.bubbles[b].expanded && r.panels[p].expanded &&
      r.announcement == name + " release information expanded"
  {
    MobileToggleEffect(pg, b);
    ToggleAnnouncesRelease(pg, b, name);
  }

  /**
   * In mobile mode with the document click handler installed, a click
   * outside resets the open bubble's aria-expanded but leaves its inline
   * panel expanded, and the next tap on that bubble "expands" the panel that
   * is already showing (script.js:153-164, 43-58).
   */
  lemma StaleOutsideClick(pg: Page, b: nat, name: string)
    requires Linked(pg.bubbles, pg.panels)
    requires pg.mobile && pg.clickListener && pg.hasAnnouncer
    requires b < |pg.bubbles| && pg.bubbles[b].ariaLabel == Some(LabelPrefix + name) && pg.bubbles[b].panel.Some?
    requires !pg.bubbles[b].expanded
    ensures var p := pg.bubbles[b].panel.value;
      var clicked := ClickedOutside(Toggled(pg, b));
      var again := Toggled(clicked, b);
      !clicked.bubbles[b].expanded && clicked.panels[p].expanded &&
      again.bubbles[b].expanded && again.panels[p].expanded &&
      again.announcement == name + " release information expanded"
  {
    TapThenClickOutside(pg, b);
    var clicked := ClickedOutside(Toggled(pg, b));
    LayoutKeepsLinks(pg, clicked);
    assert clicked.bubbles[b].ariaLabel == pg.bubbles[b].ariaLabel && clicked.bubbles[b].panel == pg.bubbles[b].panel;
    RetapOpenPanel(clicked, b, name);
  }

  /**
   * A page loaded wide keeps its document click handler after a resize to
   * mobile, so the stale handler of `StaleOutsideClick` is reachable from a
   * fresh load (script.js:153-185).
   */
  lemma DesktopLoadDrift(bs: seq<Bubble>, ps: seq<Panel>, wide: int, narrow: int, b: nat, name: string)
    requires Linked(bs, ps)
    requires !IsMobileWidth(wide) && IsMobileWidth(narrow)
    requires b < |bs| && bs[b].ariaLabel == Some(LabelPrefix + name) && bs[b].panel.Some?
    ensures var shrunk := Resized(Load(bs, ps, wide, true), narrow);
      var p := bs[b].panel.value;
      var clicked := ClickedOutside(Toggled(shrunk, b));
      var again := Toggled(clicked, b);
      shrunk.mobile && shrunk.clickListener &&
      !clicked.bubbles[b].expanded && clicked.panels[p].expanded &&
      again.bubbles[b].expanded && again.panels[p].expanded &&
      again.announcement == name + " release information expanded"
  {
    LoadThenShrink(bs, ps, wide, narrow);
    StaleOutsideClick(Resized(Load(bs, ps, wide, true), narrow), b, name);
  }

  // ---------------------------------------------------------------------
  // The controller as the script holds it

  class Controller {
    const bubbles: array<Bubble>
    const panels: array<Panel>
    const clickListener: bool
    const hasAnnouncer: bool
    var isMobile: bool
    var announcement: string

    ghost predicate Valid()
      reads bubbles, panels
    {
      Linked(bubbles[..], panels[..])
    }

    function State(): Page
      reads this, bubbles, panels
    {
      Page(bubbles[..], panels[..], isMobile, clickListener, hasAnnouncer, announcement)
    }

    /** The DOMContentLoaded setup (script.js:6-12, 153). */
    constructor (bs: seq<Bubble>, ps: seq<Panel>, width: int, announcer: bool)
      requires Linked(bs, ps)
      ensures Valid() && fresh(bubbles) && fresh(panels)
      ensures State() == Load(bs, ps, width, announcer)
    {
      bubbles := new Bubble[|bs|](i requires 0 <= i < |bs| => bs[i]);
      panels := new Panel[|ps|](q requires 0 <= q < |ps| => ps[q]);
      isMobile := width <= 640;
      clickListener := !(width <= 640);
      hasAnnouncer := announcer;
      announcement := "";
      new;
      assert bubbles[..] == bs;
      assert panels[..] == ps;
    }

    /** `announceToScreenReader` (script.js:18-26). */
    method Announce(msg: string)
      modifies this`announcement
      ensures announcement == if hasAnnouncer then msg else old(announcement)
    {
      if hasAnnouncer {
        announcement := msg;
      }
    }

    /** The forEach over `.mobile-info-content.expanded` in `toggleContent` (script.js:43-52). */
    method CloseOtherPanels(mobileContent: nat)
      requires Valid() && mobileContent < panels.Length
      modifies bubbles, panels
      ensures Valid()
      ensures panels[..] == CollapseOthers(old(panels[..]), mobileContent)
      ensures bubbles[..] == ClearExpanded(old(bubbles[..]), ClosedOwners(old(panels[..]), mobileContent, panels.Length))
    {
      ghost var bs0, ps0 := bubbles[..], panels[..];
      var q := 0;
      while q < panels.Length
        invariant 0 <= q <= panels.Length
        invariant forall j :: 0 <= j < q ==> panels[j] == if j == mobileContent then ps0[j] else Collapsed(ps0[j])
        invariant forall j :: q <= j < panels.Length ==> panels[j] == ps0[j]
        invariant forall i :: 0 <= i < bubbles.Length ==>
          bubbles[i] == if i in ClosedOwners(ps0, mobileContent, q) then bs0[i].(expanded := false) else bs0[i]
      {
        var content := panels[q];
        if content.expanded && q != mobileContent {
          panels[q] := content.(expanded := false, hidden := true);
          match content.owner {
            case Some(other) => bubbles[other] := bubbles[other].(expanded := false);
            case None =>
          }
        }
        q := q + 1;
      }
      assert panels[..] == CollapseOthers(ps0, mobileContent);
      assert bubbles[..] == ClearExpanded(bs0, ClosedOwners(ps0, mobileContent, |ps0|));
    }

    /** The forEach over the other bubbles in `toggleContent` (script.js:72-81). */
    method CloseOtherBubbles(b: nat)
      modifies bubbles
      ensures bubbles[..] == DismissOthers(old(bubbles[..]), b)
    {
      ghost var bs0 := bubbles[..];
      var i := 0;
      while i < bubbles.Length
        invariant 0 <= i <= bubbles.Length
        invariant forall j :: 0 <= j < i ==> bubbles[j] == if j == b then bs0[j] else Shown(bs0[j], false)
        invariant forall j :: i <= j < bubbles.Length ==> bubbles[j] == bs0[j]
      {
        if i != b {
          var other := bubbles[i].(active := false, expanded := false);
          if other.hasTooltip {
            other := other.(tooltipHidden := true);
          }
          bubbles[i] := other;
        }
        i := i + 1;
      }
      assert bubbles[..] == DismissOthers(bs0, b);
    }

    /** The forEach over every bubble in the document click and resize handlers (script.js:155-162, 172-179). */
    method CloseAllBubbles()
      modifies bubbles
      ensures bubbles[..] == DismissAll(old(bubbles[..]))
    {
      ghost var bs0 := bubbles[..];
      var i := 0;
      while i < bubbles.Length
        invariant 0 <= i <= bubbles.Length
        invariant forall j :: 0 <= j < i ==> bubbles[j] == Shown(bs0[j], false)
        invariant forall j :: i <= j < bubbles.Length ==> bubbles[j] == bs0[j]
      {
        var bubble := bubbles[i].(active := false, expanded := false);
        if bubble.hasTooltip {
          bubble := bubble.(tooltipHidden := true);
        }
        bubbles[i] := bubble;
        i := i + 1;
      }
      assert bubbles[..] == DismissAll(bs0);
    }

    /** The forEach over `.mobile-info-content.expanded` in the resize handler (script.js:180-183). */
    method CloseAllPanels()
      modifies panels
      ensures panels[..] == CollapseAll(old(panels[..]))
    {
      ghost var ps0 := panels[..];
      var q := 0;
      while q < panels.Length
        invariant 0 <= q <= panels.Length
        invariant forall j :: 0 <= j < q ==> panels[j] == Collapsed(ps0[j])
        invariant forall j :: q <= j < panels.Length ==> panels[j] == ps0[j]
      {
        if panels[q].expanded {
          panels[q] := panels[q].(expanded := false, hidden := true);
        }
        q := q + 1;
      }
      assert panels[..] == CollapseAll(ps0);
    }

    /** `toggleContent(bubble)` (script.js:32-98). */
    method ToggleContent(b: nat)
      requires Valid() && b < bubbles.Length
      modifies this`announcement, bubbles, panels
      ensures Valid()
      ensures State() == Toggled(old(State()), b)
    {
      var bubble := bubbles[b];
      if bubble.ariaLabel.None? {
        return;
      }
      if isMobile {
        if bubble.panel.None? {
          return;
        }
        ToggleMobile(b, bubble.panel.value);
      } else {
        ToggleDesktop(b);
      }
    }

    /** The mobile branch of `toggleContent`: the inline panel of the bubble's list item (script.js:41-66). */
    method ToggleMobile(b: nat, mobileContent: nat)
      requires Valid() && b < bubbles.Length && mobileContent < panels.Length
      requires bubbles[b].ariaLabel.Some? && bubbles[b].panel == Some(mobileContent)
      modifies this`announcement, bubbles, panels
      ensures Valid()
      ensures State() == MobileToggled(old(State()), b, mobileContent)
    {
      ghost var pg := State();
      var bubble := bubbles[b];
      var releaseName := ReleaseName(bubble.ariaLabel.value);
      var willExpand := !bubble.expanded;
      CloseOtherPanels(mobileContent);
      assert panels[mobileContent] == pg.panels[mobileContent];
      assert bubbles[b].(expanded := willExpand) == bubble.(expanded := willExpand);
      ShowPanel(b, mobileContent, willExpand);
      var state := if willExpand then "expanded" else "collapsed";
      Announce(releaseName + " release information " + state);
    }

    /** The current panel and its bubble set to `willExpand` (script.js:55-58). */
    method ShowPanel(b: nat, mobileContent: nat, willExpand: bool)
      requires Valid() && b < bubbles.Length && mobileContent < panels.Length
      requires bubbles[b].panel == Some(mobileContent)
      modifies bubbles, panels
      ensures Valid()
      ensures panels[..] == old(panels[..])[mobileContent := Opened(old(panels[mobileContent]), willExpand)]
      ensures bubbles[..] == old(bubbles[..])[b := old(bubbles[b]).(expanded := willExpand)]
    {
      ghost var bs0, ps0 := bubbles[..], panels[..];
      panels[mobileContent] := panels[mobileContent].(expanded := willExpand, hidden := !willExpand);
      bubbles[b] := bubbles[b].(expanded := willExpand);
      assert panels[..] == ps0[mobileContent := Opened(ps0[mobileContent], willExpand)];
      assert bubbles[..] == bs0[b := bs0[b].(expanded := willExpand)];
      UpdateKeepsLinks(bs0, ps0, b, bs0[b].(expanded := willExpand), mobileContent, Opened(ps0[mobileContent], willExpand));
    }

    /** The desktop branch of `toggleContent`: the bubble's own tooltip (script.js:67-97). */
    method ToggleDesktop(b: nat)
      requires Valid() && b < bubbles.Length && bubbles[b].ariaLabel.Some?
      modifies this`announcement, bubbles
      ensures Valid()
      ensures State() == DesktopToggled(old(State()), b)
    {
      ghost var pg := State();
      var bubble := bubbles[b];
      var releaseName := ReleaseName(bubble.ariaLabel.value);
      var willExpand := !bubble.expanded;
      CloseOtherBubbles(b);
      var target := bubbles[b].(active := willExpand, expanded := willExpand);
      if target.hasTooltip {
        target := target.(tooltipHidden := !willExpand);
      }
      bubbles[b] := target;
      assert bubbles[..] == DismissOthers(pg.bubbles, b)[b := Shown(bubble, willExpand)];
      var state := if willExpand then "shown" else "hidden";
      Announce(releaseName + " release information " + state);
      assert State() == DesktopToggled(pg, b);
      DesktopToggledLayout(pg, b);
      LayoutKeepsLinks(pg, State());
    }

    /** The Escape branch of a bubble's keydown handler (script.js:117-139). */
    method CloseOnEscape(b: nat)
      requires Valid() && b < bubbles.Length
      modifies this`announcement, bubbles, panels
      ensures Valid()
      ensures State() == Escaped(old(State()), b)
    {
      var bubble := bubbles[b];
      if !bubble.expanded {
        return;
      }
      if isMobile {
        if bubble.panel.Some? {
          var mobileContent := bubble.panel.value;
          panels[mobileContent] := panels[mobileContent].(expanded := false, hidden := true);
          bubbles[b] := bubble.(expanded := false);
          Announce("Release information collapsed");
        }
      } else {
        var closed := bubble.(active := false, expanded := false);
        if closed.hasTooltip {
          closed := closed.(tooltipHidden := true);
        }
        bubbles[b] := closed;
        Announce("Release information hidden");
      }
    }

    /** A bubble's keydown handler (script.js:110-141). */
    method KeyDown(b: nat, key: string)
      requires Valid() && b < bubbles.Length
      modifies this`announcement, bubbles, panels
      ensures Valid()
      ensures State() == Keyed(old(State()), b, key)
    {
      if key == "Enter" || key == " " {
        ToggleContent(b);
      }
      if key == "Escape" {
        CloseOnEscape(b);
      }
    }

    /** The document click handler, registered only on a desktop load (script.js:153-164). */
    method OutsideClick()
      requires Valid()
      modifies bubbles
      ensures Valid()
      ensures State() == ClickedOutside(old(State()))
    {
      if clickListener {
        CloseAllBubbles();
      }
    }

    /** The resize handler (script.js:167-185). */
    method Resize(width: int)
      requires Valid()
      modifies this`isMobile, bubbles, panels
      ensures Valid()
      ensures State() == Resized(old(State()), width)
    {
      var isNowMobile := width <= 640;
      if isNowMobile != isMobile {
        isMobile := isNowMobile;
        CloseAllBubbles();
        CloseAllPanels();
      }
    }
  }
}
