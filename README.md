# Interactive elements of the Agust Islandia site, modelled in Dafny

This project models the three browser scripts that drive the site's
interactive elements and proves properties of them:

- **Info bubbles** (`script.js`): release-information bubbles that disclose
  their details one at a time. Below a 640 px viewport (mobile mode) a
  bubble opens an inline panel in its list item. Above it (desktop mode) it
  shows a floating tooltip. Every change is announced to screen readers.
- **Theme** (`dark-mode.js`): light and dark themes on the root element, a
  saved choice in local storage, the system colour-scheme preference, and a
  toggle button whose icon and title follow the theme.
- **Navigation** (`navigation.js`): a hamburger drawer with overlay and
  Escape handling, collapsible sections, and the marking of the links that
  lead to the current page.

Each script is modelled in two layers:

- **A value of the whole state** (`InfoBubbles.Page`, `DarkMode.Page`,
  `Navigation.Nav`). Each handler is a function on that value, and the
  properties are lemmas about those functions.
- **A class that holds the state the way the script does.** These are
  `InfoBubbles.Controller`, `DarkMode.ThemeController` and
  `Navigation.NavController`. Each keeps fields, with arrays for the element
  lists, and has one method per script function. Each method's postcondition
  ties its new state to the function of the old state (`State() ==
  Toggled(old(State()), b)`), so the lemmas carry over to the methods.
  - The `forEach` loops are `while` loops with invariants.

## Files and modules

| file | module | contents |
|---|---|---|
| `option.dfy` | `Optional` | `Option`, for DOM lookups that can find nothing and attributes that can be absent |
| `jsstring.dfy` | `JsString` | the JavaScript string operations used: `replace` with a string pattern (first occurrence only), `split` on one character, `pop` of its result, `endsWith` |
| `infobubbles.dfy` | `InfoBubbles` | the bubble, panel and page records, the handlers, the exclusivity invariant, the per-handler effects, and the controller class |
| `darkmode.dfy` | `DarkMode` | the theme page, `setTheme`/`initTheme`/`toggleTheme`, the system-change handler, the event runs, and the controller class |
| `navigation.dfy` | `Navigation` | the path predicate, the drawer, the collapsible sections, `setActiveLink`, initialisation, and the controller class |

## How the DOM is represented

**Info-bubble elements are records of flags.**

- A `Bubble` holds:
  - its aria-label, which may be absent;
  - the index of its list item's panel;
  - whether it holds a tooltip;
  - its `active` class, its aria-expanded, and its tooltip's aria-hidden.
- A `Panel` holds:
  - the index of the first bubble in its parent, standing for
    `content.parentElement.querySelector('.info-bubble')`;
  - its `expanded` class and its aria-hidden.
- Indices replace `closest('li')` and `querySelector`.
- A bubble outside any list item has no panel. In mobile mode both that case
  and "no panel in the item" change nothing: at script.js:39 the first
  throws and the second is skipped by line 41.

**The theme page.** `DarkMode.Page` holds:

- the root element's class and `data-theme`;
- local storage as a map;
- the toggle's title;
- the `style.display` of each icon, `None` when the icon element is absent;
- the announcer text.

**Navigation.**

- A `Section` is one collapsible trigger with the element after it.
- A `Link` carries its pathname and the section content it sits in.

**A throw is modelled as the handler's effect stopping at that point:**

- A bubble without an aria-label makes script.js:34 throw, so the toggle
  changes nothing.
- In navigation.js lines 82 and 86, a collapsible trigger with no next
  sibling makes `toggleCollapsible` throw after the trigger's class has
  flipped. Its aria-expanded stays as it was.

## Where the code and its comments differ

The model follows the code in each case.

- The comments at dark-mode.js:127 and dark-mode.js:135 say that a system
  colour-scheme change applies only while the user has not set a
  preference by hand. In the code, `setTheme` always writes the storage
  key (dark-mode.js:67), and `initTheme` always calls `setTheme`
  (dark-mode.js:43, 47). So the handler's guard (dark-mode.js:136) is false
  from initialisation on, and a system change is never applied even when
  the user has never toggled.
  - `DarkMode.SystemChangesIgnored` and `DarkMode.SystemChangeDeadAfterInit`
    prove this.
- The parameter comments at dark-mode.js:53 and dark-mode.js:110 give the
  theme as 'light' or 'dark'. `setTheme` stores any string it is given
  verbatim (dark-mode.js:67), and it gives the dark look only for exactly
  "dark". A saved value such as "blue" is applied as light and saved again
  as "blue".
- The comment at script.js:152 says the outside click closes tooltips in
  desktop mode only. The document click handler is registered only when
  the page loads in desktop mode (script.js:153), but it stays registered
  after a resize to mobile. There it resets aria-expanded on the open
  bubble but leaves the bubble's inline panel expanded, and the next tap
  "expands" the panel that is already showing.
  `InfoBubbles.StaleOutsideClick` and `InfoBubbles.DesktopLoadDrift` prove
  this sequence.
- The comment at script.js:42 says the mobile toggle resets the ARIA state
  of the other expanded content. That holds only for markup with one
  bubble per list item:
  - A panel leads back to the first bubble of its item (script.js:47).
  - With two bubbles in one item, closing a panel resets the wrong bubble.
  - `InfoBubbles.SharedItemBreaksExclusive` shows such markup: two taps
    leave two bubbles expanded.
  - `OneBubblePerItem` states the assumption, and
    `InfoBubbles.RunKeepsExclusive` requires it.

## Model

| member | source | states |
|---|---|---|
| JsString.IndexOfFrom | script.js:34 | the first index at or after the start where the pattern occurs, or -1 exactly when it occurs nowhere there |
| JsString.ReplacePrefix | script.js:34 | replacing the pattern in a string that starts with it removes exactly that prefix |
| JsString.ReplaceAbsent | script.js:34 | a string without the pattern is returned unchanged |
| JsString.ReplaceFirstOnly | script.js:34 | only the first occurrence is replaced; everything before and after it is kept |
| JsString.Split | navigation.js:100 | splitting never gives an empty list and no piece contains the separator |
| JsString.JoinSplit | navigation.js:100 | joining the pieces of a split with the separator gives back the string |
| JsString.SplitJoin | navigation.js:100 | splitting a join of separator-free pieces gives back the pieces |
| JsString.SplitPrefix | navigation.js:100 | a separator-free head splits off as exactly one piece |
| JsString.JoinLast | navigation.js:100 | a join of two or more pieces is the join of all but the last, a separator, then the last |
| JsString.LastSegmentSpec | navigation.js:100 | `split('/').pop()` holds no '/', ends the path, and is the whole path or follows a '/' |
| JsString.LastSegmentUnique | navigation.js:100 | those three facts determine the last segment |
| JsString.LastSegmentOfPath | navigation.js:100 | the last segment of a directory, '/', and a file name is that file name |
| InfoBubbles.LayoutKeepsLinks | script.js:38-50 | pages that agree on labels, links and tooltips are linked alike and have one bubble per item alike |
| InfoBubbles.ReleaseNameOfLabel | script.js:34 | for a label "Show release information for " + N the release name is N |
| InfoBubbles.StateWordsDistinct | script.js:61-96 | the four state words are pairwise distinct |
| InfoBubbles.ToggleMessageDetermines | script.js:60-96 | for one label, the toggle announcement determines the mode and the new state |
| InfoBubbles.DismissOthers | script.js:72-81 | the desktop loop keeps every bubble's label, panel link and tooltip |
| InfoBubbles.DismissAll | script.js:155-162 | the document-click and resize loop keeps every bubble's label, panel link and tooltip |
| InfoBubbles.CollapseOthers | script.js:43-46 | the mobile panel loop keeps every panel's owner |
| InfoBubbles.CollapseAll | script.js:180-183 | the resize panel loop keeps every panel's owner |
| InfoBubbles.ClearExpanded | script.js:47-50 | resetting aria-expanded keeps every bubble's label, panel link and tooltip |
| InfoBubbles.ClosedOwnersSpec | script.js:43-50 | a bubble is reset by the mobile loop exactly when some other expanded panel leads to it |
| InfoBubbles.StepKeepsLayout | script.js:101-185 | no handler changes labels, links, tooltips or the registered listeners |
| InfoBubbles.ToggleKeepsLayout | script.js:32-98 | `toggleContent` changes no label, link or tooltip |
| InfoBubbles.MobileToggledLayout | script.js:41-66 | the mobile branch changes no label, link or tooltip |
| InfoBubbles.DesktopToggledLayout | script.js:67-97 | the desktop branch changes no label, link or tooltip |
| InfoBubbles.EscapeKeepsLayout | script.js:117-139 | the Escape branch changes no label, link or tooltip |
| InfoBubbles.LoadIsExclusive | script.js:6-12 | markup served with nothing open loads in the exclusive state |
| InfoBubbles.ToggleKeepsExclusive | script.js:32-98 | after a toggle at most one bubble and one panel are open and every bubble agrees with the mode |
| InfoBubbles.DesktopToggledExclusive | script.js:72-89 | the desktop toggle leaves only the target possibly open |
| InfoBubbles.MobileToggledOthersClosed | script.js:43-52 | with one bubble per item, the mobile toggle leaves every bubble but the target without aria-expanded |
| InfoBubbles.MobileToggledExclusive | script.js:43-58 | with one bubble per item, the mobile toggle leaves only the target and its panel possibly open |
| InfoBubbles.EscapeKeepsExclusive | script.js:117-139 | Escape keeps the exclusive state |
| InfoBubbles.StepKeepsExclusive | script.js:101-185 | every event keeps the exclusive state |
| InfoBubbles.RunKeepsExclusive | script.js:101-185 | after any sequence of events at most one bubble and one panel are open |
| InfoBubbles.SharedItemBreaksExclusive | script.js:41-58 | on markup with two bubbles in one list item, tapping the second of them and then a bubble of another item leaves two bubbles expanded, so exclusivity fails |
| InfoBubbles.DesktopToggleEffect | script.js:72-89 | desktop toggle: every other bubble loses `active` and aria-expanded and its tooltip is hidden; the target's class and aria-expanded become the negation of its old aria-expanded and its tooltip's aria-hidden the opposite; panels are untouched |
| InfoBubbles.MobileToggleEffect | script.js:43-58 | mobile toggle: the target panel follows the flipped state, every other panel is closed, each one that was open becomes aria-hidden and its bubble loses aria-expanded, closed panels stay as they were, and no `active` class changes |
| InfoBubbles.MobileWithoutPanelIsNoOp | script.js:36-66 | in mobile mode a bubble with no panel in its item changes nothing |
| InfoBubbles.ToggleAnnouncesRelease | script.js:32-98 | the announcement is the release name, " release information ", and expanded/collapsed or shown/hidden by mode and new state |
| InfoBubbles.ToggleOpenCloses | script.js:43-89 | toggling the one open bubble leaves every bubble, and in mobile mode every panel, closed |
| InfoBubbles.ToggleTwiceCloses | script.js:32-98 | toggling a closed bubble twice leaves every bubble, and in mobile mode every panel, closed |
| InfoBubbles.EscapeOnlyTarget | script.js:117-139 | Escape does nothing to a closed bubble and changes no other bubble and no panel but the target's; on an open one it resets aria-expanded, in mobile mode collapses and aria-hides its panel and announces "Release information collapsed", in desktop mode clears `active`, hides its tooltip and announces "Release information hidden" |
| InfoBubbles.ResizeEffect | script.js:167-185 | a resize that stays on one side of 640 changes nothing; one that crosses flips the mode and closes every bubble, tooltip and panel |
| InfoBubbles.OutsideClickEffect | script.js:153-164 | the document click clears every bubble and tooltip and leaves panels alone |
| InfoBubbles.LoadThenShrink | script.js:153-185 | a page loaded wide and shrunk to mobile keeps the document click handler, with everything closed |
| InfoBubbles.TapThenClickOutside | script.js:153-164 | in that state a tap opens bubble and panel, and an outside click then resets the bubble but not the panel |
| InfoBubbles.RetapOpenPanel | script.js:43-66 | a tap on a reset bubble whose panel is open announces "expanded" again and keeps the panel open |
| InfoBubbles.StaleOutsideClick | script.js:153-164 | tap, outside click, tap: the panel stays open throughout and the second tap announces "N release information expanded" |
| InfoBubbles.DesktopLoadDrift | script.js:153-185 | after a fresh wide load and a resize to mobile, tap then outside click leaves the bubble reset with its panel expanded, and a second tap "expands" it again |
| InfoBubbles.Controller.constructor | script.js:6-12 | the controller starts in the loaded page |
| InfoBubbles.Controller.Announce | script.js:18-26 | the announcer's text becomes the message when the announcer exists |
| InfoBubbles.Controller.CloseOtherPanels | script.js:43-52 | the loop closes every other expanded panel and resets exactly the bubbles those panels lead to |
| InfoBubbles.Controller.CloseOtherBubbles | script.js:72-81 | the loop dismisses every bubble but the target |
| InfoBubbles.Controller.CloseAllBubbles | script.js:155-162 | the loop dismisses every bubble |
| InfoBubbles.Controller.CloseAllPanels | script.js:180-183 | the loop closes every expanded panel |
| InfoBubbles.Controller.ToggleContent | script.js:32-98 | the arrays and fields end as `Toggled` of the old page |
| InfoBubbles.Controller.ToggleMobile | script.js:41-66 | the mobile branch ends as `MobileToggled` of the old page |
| InfoBubbles.Controller.ShowPanel | script.js:55-58 | the current panel's class and aria-hidden and its bubble's aria-expanded follow the new state; nothing else changes |
| InfoBubbles.Controller.ToggleDesktop | script.js:67-97 | the desktop branch ends as `DesktopToggled` of the old page |
| InfoBubbles.Controller.CloseOnEscape | script.js:117-139 | the Escape branch ends as `Escaped` of the old page |
| InfoBubbles.Controller.KeyDown | script.js:110-141 | the keydown handler ends as `Keyed` of the old page |
| InfoBubbles.Controller.OutsideClick | script.js:153-164 | the document click handler ends as `ClickedOutside` of the old page |
| InfoBubbles.Controller.Resize | script.js:167-185 | the resize handler ends as `Resized` of the old page |
| DarkMode.ToggleTitle | dark-mode.js:85-97 | the title is "Switch to light mode" exactly in the dark theme and "Switch to dark mode" exactly in the light one |
| DarkMode.Announcement | dark-mode.js:113 | "Dark mode enabled" exactly for "dark", "Light mode enabled" for everything else |
| DarkMode.ShowIcon | dark-mode.js:85-97 | a missing icon stays missing; a present one shows "block" exactly when shown and "none" exactly when not |
| DarkMode.ThemeSet | dark-mode.js:55-71 | the class is set exactly for "dark", data-theme is "dark" or "light", the argument is stored verbatim, the announcement and title follow it |
| DarkMode.Initialized | dark-mode.js:37-49 | the stored theme is the non-empty saved value, or else the system preference; the dark class is set exactly when that theme is "dark", and data-theme agrees with the class |
| DarkMode.Toggled | dark-mode.js:103-106 | the class flips and the stored value names the new theme |
| DarkMode.SetThemeConsistent | dark-mode.js:55-67 | after setting "light" or "dark", data-theme equals the stored value and the class is on exactly when "dark" is stored |
| DarkMode.SetThemeOverrides | dark-mode.js:55-71 | a second `setTheme` completely overrides the first |
| DarkMode.ToggleTwice | dark-mode.js:103-106 | two toggles restore the class and amount to setting the theme the class named |
| DarkMode.ToggleStoresAppliedTheme | dark-mode.js:103-106 | after a toggle the stored value is the applied data-theme |
| DarkMode.InitSavesTheme | dark-mode.js:37-49 | initialisation always leaves a non-empty value stored |
| DarkMode.StepKeepsSaved | dark-mode.js:129-170 | with a non-empty value stored, every event keeps one and a system change does nothing |
| DarkMode.SystemChangesIgnored | dark-mode.js:129-141 | with a value stored, any run equals the same run with the system changes removed |
| DarkMode.SystemChangeDeadAfterInit | dark-mode.js:134-138 | after initialisation and any events, a system change leaves the page as it is |
| DarkMode.KeysActAsClick | dark-mode.js:146-170 | Space and Enter do exactly what a click does; other keys do nothing |
| DarkMode.NoToggleKeepsIcons | dark-mode.js:77-83 | without a toggle button no icon and no title changes |
| DarkMode.IconsFollowTheme | dark-mode.js:77-98 | with a toggle the moon shows exactly in light and both sun parts exactly in dark; missing icons stay missing |
| DarkMode.ManualChoiceBeatsSystem | dark-mode.js:129-141 | a visitor who chose light keeps it when the system turns dark and after a reload |
| DarkMode.ThemeController.constructor | dark-mode.js:20-24 | the controller starts in the page as served |
| DarkMode.ThemeController.UpdateToggleIcon | dark-mode.js:77-98 | the fields end as `WithToggleIcon` of the old page |
| DarkMode.ThemeController.AnnounceThemeChange | dark-mode.js:112-123 | the fields end as `Announced` of the old page |
| DarkMode.ThemeController.SetTheme | dark-mode.js:55-71 | the fields end as `ThemeSet` of the old page |
| DarkMode.ThemeController.InitTheme | dark-mode.js:37-49 | the fields end as `Initialized` of the old page |
| DarkMode.ThemeController.ToggleTheme | dark-mode.js:103-106 | the fields end as `Toggled` of the old page |
| DarkMode.ThemeController.SystemChange | dark-mode.js:129-141 | the fields end as `SystemChanged` of the old page |
| DarkMode.ThemeController.Click | dark-mode.js:166-170 | the fields end as `Clicked` of the old page |
| DarkMode.ThemeController.Key | dark-mode.js:146-156 | the fields end as `Keyed` of the old page |
| Navigation.PathMatchesSimplified | navigation.js:98-100 | a link matches exactly when the paths are equal or the current path ends in ".html" and the link ends with its last segment; the root rule adds nothing |
| Navigation.NonHtmlMatchesExactly | navigation.js:98-100 | a current path not ending in ".html" matches only itself |
| Navigation.SameFileAnyDirectory | navigation.js:100 | the same ".html" file in any other directory matches |
| Navigation.SuffixIsNotSegmentMatch | navigation.js:100 | a link to a longer file name ending in the current one matches although the last segments differ |
| Navigation.SuffixExample | navigation.js:100 | "/other/myproject.html" matches the current path "/work/project.html" |
| Navigation.Opened | navigation.js:60-66 | `openNav` leaves the drawer open with every flag and the body overflow in line |
| Navigation.Closed | navigation.js:68-74 | `closeNav` leaves the drawer closed with every flag and the body overflow in line |
| Navigation.DrawerIdempotent | navigation.js:60-74 | opening and closing are idempotent; a drawer in sync is its own open or closed form |
| Navigation.ToggleFlipsDrawer | navigation.js:27-35 | a toggle click flips the drawer's class, brings every flag in line and changes nothing but the drawer |
| Navigation.ToggleTwiceRestores | navigation.js:27-35 | two toggle clicks give back a drawer that was in sync |
| Navigation.ClosingHandlers | navigation.js:38-45 | the overlay always closes; Escape closes exactly an open drawer and other keys do nothing |
| Navigation.SectionToggled | navigation.js:76-89 | `toggleCollapsible` keeps whether the trigger and its content exist |
| Navigation.SectionToggleEffect | navigation.js:76-89 | a trigger with content flips and its content and aria-expanded follow it |
| Navigation.SectionToggleTwice | navigation.js:76-89 | two clicks on a section in sync give it back |
| Navigation.Expanded | navigation.js:106-111 | an expanded section has trigger, content and aria-expanded all on |
| Navigation.MatchedSectionsSpec | navigation.js:95-113 | a section is among the matched ones exactly when some matching link is inside it |
| Navigation.ActivatedEffect | navigation.js:91-115 | `setActiveLink` only adds state: a link is active afterwards exactly when it was or it matches, and a trigger is expanded exactly when it was or it holds a matching link |
| Navigation.ActivatedOpensSection | navigation.js:103-112 | the section around a matching link under a trigger ends open, trigger and content alike |
| Navigation.ActivatedIdempotent | navigation.js:91-115 | running `setActiveLink` twice equals running it once |
| Navigation.Initialized | navigation.js:16-57 | without toggle, drawer and overlay the page is unchanged; with all three the listeners are installed, the drawer is untouched, a link is active exactly when it was or it matches the current path, and each section is kept or, being a trigger, fully expanded |
| Navigation.UninstalledIgnoresEvents | navigation.js:21-24 | a page the guard turned away ignores every event |
| Navigation.StepKeepsConsistent | navigation.js:27-89 | every event keeps the drawer flags and every section in sync |
| Navigation.ActivatedKeepsConsistent | navigation.js:91-115 | `setActiveLink` keeps every section in sync |
| Navigation.RunKeepsConsistent | navigation.js:27-89 | any sequence of events keeps the drawer and the sections in sync |
| Navigation.InitializedRunConsistent | navigation.js:16-115 | a page served in sync stays in sync from initialisation on |
| Navigation.NavController.constructor | navigation.js:16-19 | the controller starts in the page as served |
| Navigation.NavController.InitNavigation | navigation.js:16-57 | the fields and arrays end as `Initialized` of the old page |
| Navigation.NavController.OpenNav | navigation.js:60-66 | the drawer fields end as `Opened` and nothing else changes |
| Navigation.NavController.CloseNav | navigation.js:68-74 | the drawer fields end as `Closed` and nothing else changes |
| Navigation.NavController.ToggleClick | navigation.js:27-35 | the fields end as `ToggleClicked` of the old page |
| Navigation.NavController.OverlayClick | navigation.js:38 | the fields end as `OverlayClicked` of the old page |
| Navigation.NavController.KeyDown | navigation.js:41-45 | the fields end as `KeyPressed` of the old page |
| Navigation.NavController.ToggleCollapsible | navigation.js:76-89 | only the clicked section changes, and it becomes `SectionToggled` of itself |
| Navigation.NavController.TriggerClick | navigation.js:48-54 | the sections end as `TriggerClicked` of the old page |
| Navigation.NavController.SetActiveLink | navigation.js:91-115 | the loop marks exactly the matching links and expands exactly the trigger sections holding one |

## Left out

- Timers: the 1000 ms `setTimeout` that clears an announcement (script.js:22-24, dark-mode.js:119-121) is not modelled. An announcement stays until the next one replaces it.
- The `touchstart` listener (script.js:144-149) only cancels the default action. It changes no state, so it is not modelled. Neither is the touch detection.
- `preventDefault` and `stopPropagation` are not state. The fact that a click on a bubble never reaches the document handler is modelled by making a bubble click a separate event (script.js:105).
- `console.warn` (navigation.js:22) is output only.
- Browser inputs are parameters of the model:
  - the viewport width, `window.innerWidth`;
  - the system preference, `matchMedia(...).matches`;
  - the current pathname, `window.location.pathname`.
  The model takes each link's pathname as given and does not parse its `href` with `new URL` (navigation.js:96).
- Local storage is a map whose reads and writes always succeed. Quota and security errors are not modelled.
- `document.readyState` and `DOMContentLoaded` (dark-mode.js:159-164, navigation.js:10-14) only decide when initialisation runs. The model runs `initTheme` and `initNavigation` before any events, and the lemmas about a run of events start from any page.
- CSS transitions and the icon styling beyond `style.display` are presentation only.
- DOM structure beyond the links the handlers follow is not modelled. That includes `closest`, `querySelector`, `parentElement`, and `previousElementSibling`/`nextElementSibling`. Two consequences:
  - Each `Section` pairs a trigger with the element after it.
  - A link's section is the content it sits in.
- InfoBubbles.RunKeepsExclusive: the exclusivity theorem requires `OneBubblePerItem`. The reason is under "Where the code and its comments differ".
- `DarkMode.Page.hasToggle` is one flag for two lookups of `#theme-toggle`. One is made when the script runs (dark-mode.js:23) and gates the click and key listeners (dark-mode.js:167-170). The other is made inside `updateToggleIcon` at initialisation (dark-mode.js:81). The two can differ when the script runs while `readyState` is still 'loading' (dark-mode.js:159) and the button is parsed later. The model assumes both find the same button.
