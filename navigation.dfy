/**
 * The global navigation of navigation.js: a hamburger toggle that opens and
 * closes a drawer over an overlay, collapsible sections inside the drawer,
 * and the marking of the links that lead to the current page.
 *
 * A `Section` stands for one `.nav-collapsible-trigger` with the element
 * that follows it (its content); a `Link` for one `a` in the drawer, with
 * the index of the collapsible content it sits in. `Nav` is the value of
 * everything the script reads and writes; the class `NavController` holds
 * it in fields and arrays and updates it as the script does.
 */
module Navigation {
  import opened Optional
  import opened JsString

  // ---------------------------------------------------------------------
  // Path matching (navigation.js:98-100)

  /** Whether a link's path counts as the current page's. */
  predicate PathMatches(current: string, link: string)
  {
    current == link ||
    (current == "/" && link == "/") ||
    (EndsWith(current, ".html") && EndsWith(link, LastSegment(current)))
  }

  /** The root rule adds nothing to equality; what is left is equality or the suffix rule. */
  lemma PathMatchesSimplified(current: string, link: string)
    ensures PathMatches(current, link) <==>
      current == link || (EndsWith(current, ".html") && EndsWith(link, LastSegment(current)))
  {
  }

  /** A current path not ending in ".html" matches only itself. */
  lemma NonHtmlMatchesExactly(current: string, link: string)
    requires !EndsWith(current, ".html")
    ensures PathMatches(current, link) <==> current == link
  {
  }

  lemma HtmlSuffix(dir: string, file: string)
    requires EndsWith(file, ".html")
    ensures EndsWith(dir + "/" + file, ".html")
  {
    var s := dir + "/" + file;
    assert s[|s| - 5..] == file[|file| - 5..];
  }

  /** The same page file in another directory is taken for the current page. */
  lemma SameFileAnyDirectory(currentDir: string, linkDir: string, file: string)
    requires '/' !in file && EndsWith(file, ".html")
    ensures PathMatches(currentDir + "/" + file, linkDir + "/" + file)
  {
    LastSegmentOfPath(currentDir, file);
    HtmlSuffix(currentDir, file);
    var l := linkDir + "/" + file;
    assert l[|l| - |file|..] == file;
  }

  /**
   * The suffix rule is not a whole-segment match: a link to a longer file
   * name ending in the current one matches, though the last segments differ.
   */
  lemma SuffixIsNotSegmentMatch(currentDir: string, linkDir: string, extra: string, file: string)
    requires '/' !in file && '/' !in extra && extra != "" && EndsWith(file, ".html")
    ensures PathMatches(currentDir + "/" + file, linkDir + "/" + extra + file)
    ensures LastSegment(currentDir + "/" + file) != LastSegment(linkDir + "/" + extra + file)
  {
    LastSegmentOfPath(currentDir, file);
    HtmlSuffix(currentDir, file);
    assert '/' !in extra + file by {
      forall k | 0 <= k < |extra + file| ensures (extra + file)[k] != '/' {
        if k < |extra| { assert (extra + file)[k] == extra[k]; }
        else { assert (extra + file)[k] == file[k - |extra|]; }
      }
    }
    assert linkDir + "/" + extra + file == linkDir + "/" + (extra + file);
    LastSegmentOfPath(linkDir, extra + file);
    var l := linkDir + "/" + extra + file;
    assert l[|l| - |file|..] == file;
  }

  /** For instance "/other/myproject.html" is taken for the page "/work/project.html". */
  lemma SuffixExample()
    ensures PathMatches("/work/project.html", "/other/myproject.html")
    ensures LastSegment("/work/project.html") != LastSegment("/other/myproject.html")
  {
    assert EndsWith("project.html", ".html");
    SuffixIsNotSegmentMatch("/work", "/other", "my", "project.html");
    assert "/work" + "/" + "project.html" == "/work/project.html";
    assert "/other" + "/" + "my" + "project.html" == "/other/myproject.html";
  }

  // ---------------------------------------------------------------------
  // The data model

  /** The drawer, the overlay, the toggle and the body, as `openNav`/`closeNav` set them. */
  datatype Drawer = Drawer(
    open: bool,              // the drawer's `open` class
    overlayActive: bool,     // the overlay's `active` class
    toggleActive: bool,      // the toggle's `active` class
    ariaExpanded: bool,      // the toggle's aria-expanded is "true"
    bodyOverflow: string)    // document.body.style.overflow

  /** A collapsible trigger and the element after it. */
  datatype Section = Section(
    isTrigger: bool,         // the element before the content is a `.nav-collapsible-trigger`
    hasContent: bool,        // the trigger has a next element sibling
    triggerExpanded: bool,   // the trigger's `expanded` class
    contentExpanded: bool,   // the content's `expanded` class
    ariaExpanded: bool)      // the trigger's aria-expanded is "true"

  /** One `.nav-drawer a`. */
  datatype Link = Link(
    path: string,            // the pathname of its href
    section: Option<nat>,    // the `.nav-collapsible-content` it is inside, if any
    active: bool)            // the `active` class

  datatype Nav = Nav(
    hasToggle: bool,         // `#nav-toggle` exists
    hasDrawer: bool,         // `#nav-drawer` exists
    hasOverlay: bool,        // `#nav-overlay` exists
    installed: bool,         // initNavigation got past its guard and registered its listeners
    drawer: Drawer,
    sections: seq<Section>,
    links: seq<Link>,
    currentPath: string)     // window.location.pathname

  /** Every link in a collapsible content points at a section that has one. */
  predicate WellFormed(nav: Nav)
  {
    forall i :: 0 <= i < |nav.links| && nav.links[i].section.Some? ==>
      nav.links[i].section.value < |nav.sections| && nav.sections[nav.links[i].section.value].hasContent
  }

  // ---------------------------------------------------------------------
  // The drawer (navigation.js:27-45, 60-74)

  /** The four flags and the body overflow agree with the drawer's class. */
  predicate InSync(d: Drawer)
  {
    d.overlayActive == d.open && d.toggleActive == d.open && d.ariaExpanded == d.open &&
    d.bodyOverflow == (if d.open then "hidden" else "")
  }

  /** `openNav()` (navigation.js:60-66). */
  function Opened(d: Drawer): (r: Drawer)
    ensures r.open && InSync(r)
  {
    d.(open := true, overlayActive := true, toggleActive := true, ariaExpanded := true, bodyOverflow := "hidden")
  }

  /** `closeNav()` (navigation.js:68-74). */
  function Closed(d: Drawer): (r: Drawer)
    ensures !r.open && InSync(r)
  {
    d.(open := false, overlayActive := false, toggleActive := false, ariaExpanded := false, bodyOverflow := "")
  }

  /** Opening and closing are idempotent, and a drawer in sync is its own open or closed form. */
  lemma DrawerIdempotent(d: Drawer)
    ensures Opened(Opened(d)) == Opened(d) && Closed(Closed(d)) == Closed(d)
    ensures InSync(d) ==> d == (if d.open then Opened(d) else Closed(d))
  {
  }

  /** The toggle's click handler: the drawer's class decides (navigation.js:27-35). */
  function ToggleClicked(nav: Nav): Nav
  {
    if !nav.installed then nav
    else nav.(drawer := if nav.drawer.open then Closed(nav.drawer) else Opened(nav.drawer))
  }

  /** The overlay's click handler (navigation.js:38). */
  function OverlayClicked(nav: Nav): Nav
  {
    if !nav.installed then nav else nav.(drawer := Closed(nav.drawer))
  }

  /** The document keydown handler: Escape closes an open drawer (navigation.js:41-45). */
  function KeyPressed(nav: Nav, key: string): Nav
  {
    if nav.installed && key == "Escape" && nav.drawer.open then nav.(drawer := Closed(nav.drawer)) else nav
  }

  /** A toggle click flips the drawer's class and brings every flag in line with it. */
  lemma ToggleFlipsDrawer(nav: Nav)
    requires nav.installed
    ensures var r := ToggleClicked(nav);
      r.drawer.open == !nav.drawer.open && InSync(r.drawer) &&
      r == nav.(drawer := r.drawer)
  {
  }

  /** Two toggle clicks give back a drawer that was in sync. */
  lemma ToggleTwiceRestores(nav: Nav)
    requires InSync(nav.drawer)
    ensures ToggleClicked(ToggleClicked(nav)) == nav
  {
    DrawerIdempotent(nav.drawer);
  }

  /** The overlay always closes; Escape closes only an open drawer and ignores other keys. */
  lemma ClosingHandlers(nav: Nav, key: string)
    requires nav.installed
    ensures !OverlayClicked(nav).drawer.open && InSync(OverlayClicked(nav).drawer)
    ensures key == "Escape" && nav.drawer.open ==> KeyPressed(nav, key) == OverlayClicked(nav)
    ensures key != "Escape" || !nav.drawer.open ==> KeyPressed(nav, key) == nav
  {
  }

  // ---------------------------------------------------------------------
  // Collapsible sections (navigation.js:47-54, 76-89)

  /**
   * `toggleCollapsible(trigger)`. Without a next sibling the trigger's class
   * flips and then line 82 or 86 throws, so aria-expanded stays as it was.
   */
  function SectionToggled(s: Section): (r: Section)
    ensures r.isTrigger == s.isTrigger && r.hasContent == s.hasContent
  {
    var on := !s.triggerExpanded;
    if s.hasContent then s.(triggerExpanded := on, contentExpanded := on, ariaExpanded := on)
    else s.(triggerExpanded := on)
  }

  /** The trigger and its content agree on being expanded. */
  predicate SectionInSync(s: Section)
  {
    s.hasContent ==> s.contentExpanded == s.triggerExpanded && s.ariaExpanded == s.triggerExpanded
  }

  /** A trigger click flips the trigger and forces content and aria-expanded to follow it. */
  lemma SectionToggleEffect(s: Section)
    requires s.hasContent
    ensures var r := SectionToggled(s);
      r.triggerExpanded == !s.triggerExpanded && SectionInSync(r)
  {
  }

  /** Two clicks on a trigger in sync give back the section. */
  lemma SectionToggleTwice(s: Section)
    requires SectionInSync(s)
    ensures SectionToggled(SectionToggled(s)) == s
  {
  }

  /** A click on the trigger of section `q`; only triggers carry the listener. */
  function TriggerClicked(nav: Nav, q: nat): Nav
  {
    if nav.installed && q < |nav.sections| && nav.sections[q].isTrigger
    then nav.(sections := nav.sections[q := SectionToggled(nav.sections[q])])
    else nav
  }

  // ---------------------------------------------------------------------
  // The active link (navigation.js:91-115)

  /** What `setActiveLink` does to the section around a matching link. */
  function Expanded(s: Section): (r: Section)
    ensures r.triggerExpanded && r.contentExpanded && r.ariaExpanded && SectionInSync(r)
    ensures r.isTrigger == s.isTrigger && r.hasContent == s.hasContent
  {
    s.(triggerExpanded := true, contentExpanded := true, ariaExpanded := true)
  }

  /** The sections holding a matching link among the first `k` links. */
  function MatchedSections(links: seq<Link>, current: string, k: nat): set<nat>
    requires k <= |links|
    decreases k
  {
    if k == 0 then {}
    else
      var l := links[k - 1];
      MatchedSections(links, current, k - 1) +
        (if PathMatches(current, l.path) && l.section.Some? then {l.section.value} else {})
  }

  lemma {:induction false} MatchedSectionsSpec(links: seq<Link>, current: string, k: nat, q: nat)
    requires k <= |links|
    ensures q in MatchedSections(links, current, k) <==>
      exists i :: 0 <= i < k && PathMatches(current, links[i].path) && links[i].section == Some(q)
    decreases k
  {
    if k > 0 {
      MatchedSectionsSpec(links, current, k - 1, q);
      var l := links[k - 1];
      if PathMatches(current, l.path) && l.section == Some(q) {
        assert q in MatchedSections(links, current, k);
      }
    }
  }

  /** Matching links gain the `active` class. */
  function MarkedLinks(links: seq<Link>, current: string): (r: seq<Link>)
  {
    seq(|links|, i requires 0 <= i < |links| =>
      if PathMatches(current, links[i].path) then links[i].(active := true) else links[i])
  }

  /** Sections whose content holds a matching link, and whose previous sibling is a trigger, are expanded. */
  function ExpandedSections(sections: seq<Section>, matched: set<nat>): (r: seq<Section>)
  {
    seq(|sections|, q requires 0 <= q < |sections| =>
      if q in matched && sections[q].isTrigger then Expanded(sections[q]) else sections[q])
  }

  /** `setActiveLink()` on a page. */
  function Activated(nav: Nav): Nav
  {
    nav.(links := MarkedLinks(nav.links, nav.currentPath),
         sections := ExpandedSections(nav.sections, MatchedSections(nav.links, nav.currentPath, |nav.links|)))
  }

  /**
   * `setActiveLink` only adds state: a link is active afterwards exactly when
   * it was before or it matches, and a section's trigger is expanded exactly
   * when it was before or, being a trigger, it holds a matching link.
   */
  lemma ActivatedEffect(nav: Nav)
    ensures var r := Activated(nav);
      |r.links| == |nav.links| && |r.sections| == |nav.sections| &&
      (forall i :: 0 <= i < |nav.links| ==>
        r.links[i].path == nav.links[i].path && r.links[i].section == nav.links[i].section &&
        (r.links[i].active <==> nav.links[i].active || PathMatches(nav.currentPath, nav.links[i].path))) &&
      (forall q :: 0 <= q < |nav.sections| ==>
        (nav.sections[q].triggerExpanded ==> r.sections[q].triggerExpanded) &&
        (nav.sections[q].contentExpanded ==> r.sections[q].contentExpanded) &&
        (nav.sections[q].ariaExpanded ==> r.sections[q].ariaExpanded) &&
        (r.sections[q].triggerExpanded <==>
          nav.sections[q].triggerExpanded ||
          (nav.sections[q].isTrigger &&
           exists i :: 0 <= i < |nav.links| && PathMatches(nav.currentPath, nav.links[i].path) &&
             nav.links[i].section == Some(q))))
  {
    forall q | 0 <= q < |nav.sections| {
      MatchedSectionsSpec(nav.links, nav.currentPath, |nav.links|, q);
    }
  }

  /** Every section around a matching link under a trigger ends up open, trigger and content alike. */
  lemma ActivatedOpensSection(nav: Nav, i: nat)
    requires WellFormed(nav)
    requires i < |nav.links| && PathMatches(nav.currentPath, nav.links[i].path) && nav.links[i].section.Some?
    requires nav.sections[nav.links[i].section.value].isTrigger
    ensures var q := nav.links[i].section.value; var r := Activated(nav);
      r.links[i].active && r.sections[q].triggerExpanded && r.sections[q].contentExpanded &&
      SectionInSync(r.sections[q])
  {
    MatchedSectionsSpec(nav.links, nav.currentPath, |nav.links|, nav.links[i].section.value);
  }

  /** Running `setActiveLink` a second time changes nothing. */
  lemma ActivatedIdempotent(nav: Nav)
    ensures Activated(Activated(nav)) == Activated(nav)
  {
    var r := Activated(nav);
    var m := MatchedSections(nav.links, nav.currentPath, |nav.links|);
    forall q | 0 <= q < |nav.sections|
      ensures q in MatchedSections(r.links, nav.currentPath, |r.links|) <==> q in m
    {
      MatchedSectionsSpec(nav.links, nav.currentPath, |nav.links|, q);
      MatchedSectionsSpec(r.links, nav.currentPath, |r.links|, q);
      if q in m {
        var i :| 0 <= i < |nav.links| && PathMatches(nav.currentPath, nav.links[i].path) && nav.links[i].section == Some(q);
        assert r.links[i].path == nav.links[i].path && r.links[i].section == nav.links[i].section;
      }
      if q in MatchedSections(r.links, nav.currentPath, |r.links|) {
        var i :| 0 <= i < |r.links| && PathMatches(nav.currentPath, r.links[i].path) && r.links[i].section == Some(q);
        assert r.links[i].path == nav.links[i].path && r.links[i].section == nav.links[i].section;
      }
    }
    assert MarkedLinks(r.links, nav.currentPath) == r.links;
    assert ExpandedSections(r.sections, MatchedSections(r.links, nav.currentPath, |r.links|)) == r.sections;
  }

  // ---------------------------------------------------------------------
  // Initialisation and events

  /** `initNavigation()`: installs nothing unless toggle, drawer and overlay all exist (navigation.js:16-57). */
  function Initialized(nav: Nav): (r: Nav)
    ensures !(nav.hasToggle && nav.hasDrawer && nav.hasOverlay) ==> r == nav
    ensures nav.hasToggle && nav.hasDrawer && nav.hasOverlay ==>
      r.installed && r.drawer == nav.drawer && r.currentPath == nav.currentPath &&
      |r.links| == |nav.links| && |r.sections| == |nav.sections| &&
      (forall i :: 0 <= i < |nav.links| ==>
        r.links[i].path == nav.links[i].path && r.links[i].section == nav.links[i].section &&
        (r.links[i].active <==> nav.links[i].active || PathMatches(nav.currentPath, nav.links[i].path))) &&
      (forall q :: 0 <= q < |nav.sections| ==>
        r.sections[q] == nav.sections[q] || (nav.sections[q].isTrigger && r.sections[q] == Expanded(nav.sections[q])))
  {
    if !(nav.hasToggle && nav.hasDrawer && nav.hasOverlay) then nav
    else Activated(nav.(installed := true))
  }

  datatype Event = ToggleClick | OverlayClick | Key(key: string) | TriggerClick(section: nat)

  function Step(nav: Nav, e: Event): Nav
  {
    match e
    case ToggleClick => ToggleClicked(nav)
    case OverlayClick => OverlayClicked(nav)
    case Key(key) => KeyPressed(nav, key)
    case TriggerClick(q) => TriggerClicked(nav, q)
  }

  function Run(nav: Nav, evs: seq<Event>): Nav
    decreases |evs|
  {
    if evs == [] then nav else Run(Step(nav, evs[0]), evs[1..])
  }

  /** A page the guard turned away ignores every event. */
  lemma {:induction false} UninstalledIgnoresEvents(nav: Nav, evs: seq<Event>)
    requires !(nav.hasToggle && nav.hasDrawer && nav.hasOverlay) && !nav.installed
    ensures Run(Initialized(nav), evs) == nav
    decreases |evs|
  {
    if evs != [] {
      assert Step(nav, evs[0]) == nav;
      UninstalledIgnoresEvents(nav, evs[1..]);
    }
  }

  /** The drawer stays in sync and every section stays in sync through any events. */
  predicate Consistent(nav: Nav)
  {
    InSync(nav.drawer) && forall q :: 0 <= q < |nav.sections| ==> SectionInSync(nav.sections[q])
  }

  lemma StepKeepsConsistent(nav: Nav, e: Event)
    requires Consistent(nav)
    ensures Consistent(Step(nav, e))
  {
    match e
    case TriggerClick(q) =>
      if nav.installed && q < |nav.sections| && nav.sections[q].isTrigger {
        var r := TriggerClicked(nav, q);
        forall j | 0 <= j < |r.sections| ensures SectionInSync(r.sections[j]) {
          if j == q && nav.sections[q].hasContent {
            SectionToggleEffect(nav.sections[q]);
          }
        }
      }
    case _ =>
  }

  lemma ActivatedKeepsConsistent(nav: Nav)
    requires Consistent(nav)
    ensures Consistent(Activated(nav))
  {
    var r := Activated(nav);
    forall q | 0 <= q < |r.sections| ensures SectionInSync(r.sections[q]) {
    }
  }

  lemma {:induction false} RunKeepsConsistent(nav: Nav, evs: seq<Event>)
    requires Consistent(nav)
    ensures Consistent(Run(nav, evs))
    decreases |evs|
  {
    if evs != [] {
      StepKeepsConsistent(nav, evs[0]);
      RunKeepsConsistent(Step(nav, evs[0]), evs[1..]);
    }
  }

  /** A page served consistent stays consistent from initialisation on. */
  lemma InitializedRunConsistent(nav: Nav, evs: seq<Event>)
    requires Consistent(nav)
    ensures Consistent(Run(Initialized(nav), evs))
  {
    ActivatedKeepsConsistent(nav.(installed := true));
    RunKeepsConsistent(Initialized(nav), evs);
  }

  // ---------------------------------------------------------------------
  // The controller as the script holds it

  class NavController {
    const hasToggle: bool
    const hasDrawer: bool
    const hasOverlay: bool
    var installed: bool
    var drawerOpen: bool
    var overlayActive: bool
    var toggleActive: bool
    var ariaExpanded: bool
    var bodyOverflow: string
    const sections: array<Section>
    const links: array<Link>
    const currentPath: string

    ghost predicate Valid()
      reads this, sections, links
    {
      WellFormed(State())
    }

    function State(): Nav
      reads this, sections, links
    {
      Nav(hasToggle, hasDrawer, hasOverlay, installed,
          Drawer(drawerOpen, overlayActive, toggleActive, ariaExpanded, bodyOverflow),
          sections[..], links[..], currentPath)
    }

    /** The page as served, before the script runs. */
    constructor (nav: Nav)
      requires WellFormed(nav)
      ensures Valid() && State() == nav && fresh(sections) && fresh(links)
    {
      hasToggle := nav.hasToggle;
      hasDrawer := nav.hasDrawer;
      hasOverlay := nav.hasOverlay;
      installed := nav.installed;
      drawerOpen := nav.drawer.open;
      overlayActive := nav.drawer.overlayActive;
      toggleActive := nav.drawer.toggleActive;
      ariaExpanded := nav.drawer.ariaExpanded;
      bodyOverflow := nav.drawer.bodyOverflow;
      sections := new Section[|nav.sections|](q requires 0 <= q < |nav.sections| => nav.sections[q]);
      links := new Link[|nav.links|](i requires 0 <= i < |nav.links| => nav.links[i]);
      currentPath := nav.currentPath;
      new;
      assert sections[..] == nav.sections;
      assert links[..] == nav.links;
    }

    /** `initNavigation()` (navigation.js:16-57). */
    method InitNavigation()
      requires Valid()
      modifies this, sections, links
      ensures Valid()
      ensures State() == Initialized(old(State()))
    {
      if !hasToggle || !hasDrawer || !hasOverlay {
        return;
      }
      installed := true;
      SetActiveLink();
    }

    /** `openNav()` (navigation.js:60-66). */
    method OpenNav()
      modifies this
      ensures State() == old(State()).(drawer := Opened(old(State()).drawer))
    {
      drawerOpen := true;
      overlayActive := true;
      toggleActive := true;
      ariaExpanded := true;
      bodyOverflow := "hidden";
    }

    /** `closeNav()` (navigation.js:68-74). */
    method CloseNav()
      modifies this
      ensures State() == old(State()).(drawer := Closed(old(State()).drawer))
    {
      drawerOpen := false;
      overlayActive := false;
      toggleActive := false;
      ariaExpanded := false;
      bodyOverflow := "";
    }

    /** The toggle's click listener (navigation.js:27-35). */
    method ToggleClick()
      modifies this
      ensures State() == ToggleClicked(old(State()))
    {
      if !installed {
        return;
      }
      var isOpen := drawerOpen;
      if isOpen {
        CloseNav();
      } else {
        OpenNav();
      }
    }

    /** The overlay's click listener (navigation.js:38). */
    method OverlayClick()
      modifies this
      ensures State() == OverlayClicked(old(State()))
    {
      if installed {
        CloseNav();
      }
    }

    /** The document keydown listener (navigation.js:41-45). */
    method KeyDown(key: string)
      modifies this
      ensures State() == KeyPressed(old(State()), key)
    {
      if installed && key == "Escape" && drawerOpen {
        CloseNav();
      }
    }

    /** `toggleCollapsible(trigger)` for the trigger of section `q` (navigation.js:76-89). */
    method ToggleCollapsible(q: nat)
      requires q < sections.Length
      modifies sections
      ensures sections[..] == old(sections[..])[q := SectionToggled(old(sections[q]))]
    {
      var trigger := sections[q];
      var isExpanded := trigger.triggerExpanded;
      if isExpanded {
        trigger := trigger.(triggerExpanded := false);
        if trigger.hasContent {
          trigger := trigger.(contentExpanded := false, ariaExpanded := false);
        }
      } else {
        trigger := trigger.(triggerExpanded := true);
        if trigger.hasContent {
          trigger := trigger.(contentExpanded := true, ariaExpanded := true);
        }
      }
      sections[q] := trigger;
    }

    /** A trigger's click listener (navigation.js:49-54). */
    method TriggerClick(q: nat)
      requires Valid()
      modifies sections
      ensures Valid()
      ensures State() == TriggerClicked(old(State()), q)
    {
      if installed && q < sections.Length && sections[q].isTrigger {
        ToggleCollapsible(q);
      }
    }

    /** `setActiveLink()` (navigation.js:91-115). */
    method SetActiveLink()
      requires Valid()
      modifies sections, links
      ensures Valid()
      ensures links[..] == MarkedLinks(old(links[..]), currentPath)
      ensures sections[..] == ExpandedSections(old(sections[..]), MatchedSections(old(links[..]), currentPath, links.Length))
    {
      ghost var ls0, ss0 := links[..], sections[..];
      var i := 0;
      while i < links.Length
        invariant 0 <= i <= links.Length
        invariant forall j :: 0 <= j < i ==> links[j] == MarkedLinks(ls0, currentPath)[j]
        invariant forall j :: i <= j < links.Length ==> links[j] == ls0[j]
        invariant forall q :: 0 <= q < sections.Length ==>
          sections[q] == if q in MatchedSections(ls0, currentPath, i) && ss0[q].isTrigger then Expanded(ss0[q]) else ss0[q]
      {
        var link := links[i];
        if PathMatches(currentPath, link.path) {
          links[i] := link.(active := true);
          match link.section {
            case Some(content) =>
              if sections[content].isTrigger {
                sections[content] := sections[content].(triggerExpanded := true, contentExpanded := true, ariaExpanded := true);
              }
            case None =>
          }
        }
        i := i + 1;
      }
      assert links[..] == MarkedLinks(ls0, currentPath);
      assert sections[..] == ExpandedSections(ss0, MatchedSections(ls0, currentPath, |ls0|));
    }
  }
}
