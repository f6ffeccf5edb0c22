# Dynamicore site script: a Dafny model

This project models the stateful core of `app.js`, the browser script of the
Dynamicore marketing site, and proves what its handlers do:

- **Modal dialogs** (`Modals`, `modals.dfy`). The global `currentModal`, the
  `active` class of each element and the page-wide scroll lock
  (`document.body.style.overflow`, `"hidden"` or `""`) form a `Page` value;
  `Open`, `Close`, `Keydown`, `OverlayClick` and `AutoCloseFires` are the
  transitions of `openModal`, `closeModal`, the Escape listener, the overlay
  click listener and the `setAutoClose` callback. The class `ModalController`
  holds the same state in fields, and its methods are proved to follow those
  functions. The document is a map from element id to the element's class
  list; `getElementById` never resolves the empty id.
  Two behaviours of the code are pinned down exactly. Opening a modal while
  another is open overwrites `currentModal` and leaves the first one active
  (no stacking). `closeModal` clears `currentModal` whichever modal it
  closes, not only when it closes the current one, so a page can end with
  an active modal, no current modal and scrolling unlocked
  (`CloseOtherLeavesStaleModal`). What every handler does keep is `Consistent`: the
  scroll lock is on exactly while a modal is current, and the current modal
  is active.
- **Mobile menu** (`MobileMenu`, `mobile_menu.dfy`). The `open` class and
  the `aria-hidden` attribute of `#mobileMenu`, changed by the toggle
  button, the outside-click listener and `closeMobileMenu`. After each of
  them, `aria-hidden` is `"false"` exactly when the menu is open.
- **Form validation** (`FormValidation`, `form_validation.dfy`).
  `validateForm` over the required inputs: blank-after-`trim()` values and
  email values that fail `^[^\s@]+@[^\s@]+\.[^\s@]+$` get the error border
  and make the result false. The regular expression is given its meaning as
  a ghost predicate (an `@` and a `.` splitting the string into three
  non-empty runs of `[^\s@]`); the executable `EmailTest` (no white space,
  exactly one `@` with something before it, a domain with an inner `.`) is
  proved to accept the same strings. White space is the exact ECMAScript set
  shared by `\s` and `trim`.
- **Project cards** (`Projects`, `projects.dfy`). The static `projects`
  list and `renderProjects`, which empties the grid and appends one card
  tree per project, in order, with `link || '#'`.

Clocks and user events are parameters: a timer callback or a click is a
call made by whoever drives the model, at whatever moment they choose.

## Model

| member | source | states |
|---|---|---|
| `Modals.Open` | app.js:248-265 | when the id resolves: `currentModal` becomes the id, the id joins the active set, scrolling is locked, and only that element changes (it gains `active`); when it does not resolve nothing changes; `Consistent` is preserved |
| `Modals.Close` | app.js:268-278 | when the id resolves: `currentModal` becomes null whatever it named, the id leaves the active set, scrolling is unlocked, only that element changes (it loses `active`); otherwise nothing changes; `Consistent` is preserved |
| `Modals.Keydown` | app.js:22-26 | a key other than Escape, or no current modal, changes nothing; Escape with a current modal is exactly `Close` of that modal; `Consistent` is preserved |
| `Modals.OverlayClick` | app.js:15-19 | a click on an element without `modal-overlay`, or outside any `.modal`, changes nothing; a click on an overlay is exactly `Close` of its enclosing modal; no modal becomes active; `Consistent` is preserved |
| `Modals.AutoCloseFires` | app.js:160-166 | the timer closes the modal only if it is still `currentModal` when it fires, and otherwise leaves the page untouched; `Consistent` is preserved |
| `Modals.OpenTwiceKeepsBothActive` | app.js:251-253 | opening m1 then m2 leaves `currentModal = m2`, both active and scrolling locked |
| `Modals.OpenThenCloseRestores` | app.js:248-278 | opening then closing m leaves no current modal, scrolling unlocked, m inactive and every other element unchanged |
| `Modals.CloseOtherLeavesStaleModal` | app.js:268-273 | after opening m1 and m2 and closing m2, m1 is still active while no modal is current, scrolling is unlocked and Escape does nothing |
| `Modals.AutoCloseAfterSwitchIsNoop` | app.js:161-165 | the timer of a modal that was replaced by another one changes nothing |
| `Modals.ModalController.constructor` | app.js:4 | the page starts with no current modal and no scroll lock, which satisfies `Consistent` |
| `Modals.ModalController.OpenModal` | app.js:248-265 | the fields change exactly as `Open` says, and `Consistent` is kept |
| `Modals.ModalController.CloseModal` | app.js:268-278 | the fields change exactly as `Close` says, and `Consistent` is kept |
| `Modals.ModalController.OnKeydown` | app.js:22-26 | the fields change exactly as `Keydown` says, and `Consistent` is kept |
| `Modals.ModalController.OnOverlayClick` | app.js:15-19 | the fields change exactly as `OverlayClick` says, and `Consistent` is kept |
| `Modals.ModalController.OnAutoCloseTimer` | app.js:161-165 | the fields change exactly as `AutoCloseFires` says, and `Consistent` is kept |
| `MobileMenu.Toggled` | app.js:37-38 | the open state flips, `aria-hidden` agrees with it, and no other class changes |
| `MobileMenu.Closed` | app.js:44-45 | the menu is closed, `aria-hidden` is in sync, and only `open` is removed |
| `MobileMenu.Clicked` | app.js:35-47 | a click inside the toggle flips the menu; any other click outside the menu closes it; a click inside the menu changes nothing; agreement of `aria-hidden` is preserved |
| `MobileMenu.ClosedIdempotent` | app.js:52-58 | closing twice is closing once |
| `MobileMenu.ToggledTwice` | app.js:37-38 | two toggles restore a menu whose `aria-hidden` was in sync |
| `MobileMenu.Menu.Toggle` | app.js:35-39 | the element changes exactly as `Toggled` says |
| `MobileMenu.Menu.Close` | app.js:55-56 | the element changes exactly as `Closed` says |
| `MobileMenu.Menu.OnDocumentClick` | app.js:42-47 | a propagated click outside both the menu and the toggle closes the menu; any other leaves it |
| `MobileMenu.Menu.OnClick` | app.js:35-47 | the element changes exactly as `Clicked` says |
| `MobileMenu.CloseMobileMenu` | app.js:52-58 | with no menu element nothing happens; otherwise the menu changes exactly as `Closed` says |
| `FormValidation.IsWhitespace` | app.js:205 | exactly the ECMAScript white-space and line-terminator code points, the set both `trim()` and the `\s` of app.js:214 remove or exclude |
| `FormValidation.LeadingWhitespace` | app.js:205 | the longest all-white-space prefix: every character before it is white space and the next one is not |
| `FormValidation.TrailingWhitespace` | app.js:205 | the longest all-white-space suffix: every character in it is white space and the one before it is not |
| `FormValidation.Trim` | app.js:205 | the trimmed value is empty exactly when the value is all white space, and otherwise starts and ends with a non-white-space character |
| `FormValidation.EmailTestMatchesRegex` | app.js:214-215 | the executable email test (no white space, exactly one `@` with a non-empty part before it, a domain with a `.` that is neither its first nor last character) accepts exactly the strings the regular expression matches |
| `FormValidation.FieldValidMeaning` | app.js:205-219 | an input passes exactly when its trimmed value is non-empty and, for an email input, its value matches the regular expression |
| `FormValidation.CheckInput` | app.js:204-220 | the input ends with the error colour exactly when it fails and the valid colour otherwise, its value is untouched, and the verdict is whether it passes |
| `FormValidation.ValidateForm` | app.js:200-223 | each input ends with the error colour exactly when it fails and the valid colour otherwise, values are untouched, and the result is true exactly when every input passes |
| `Projects.LinkOr` | app.js:349 | the link is never empty: an empty link becomes `#`, any other is kept |
| `Projects.CardFor` | app.js:320-352 | the card is a `project-card` div holding, in order, the video placeholder with its play icon, the title `h3`, the category `span`, the description `p` and the `View Project →` link opening in a new tab at the defaulted link |
| `Projects.Cards` | app.js:319-355 | one card per project, in order, each the card of its project |
| `Projects.ReadCardOfCardFor` | app.js:320-352 | a project's card shows its title, category and description and links to its link or `#` |
| `Projects.CardsReadBack` | app.js:319-355 | every card of a rendered list reads back as its project |
| `Projects.PlainProjectsReadBack` | app.js:319-355 | a list whose projects have no video source and a non-empty link reads back from its cards exactly |
| `Projects.AllProjectsReadBack` | app.js:283-312 | the site's four projects read back from their cards unchanged (no video source, every link `#`) |
| `Projects.RenderProjects` | app.js:314-356 | with no grid nothing happens; otherwise the grid holds exactly the cards of the projects, whatever it held before (an empty list gives an empty grid, and rendering twice equals rendering once) |

## Left out

- The contact form submission (app.js:88-133): a network POST with promise callbacks, alerts and a three-second timer.
- The earlier `openModal` and `closeModal` (app.js:61-85): the later declarations replace them when the script is loaded, and they change the same state.
- `trackModalEvent` (app.js:242-245): console logging only, so it changes no modelled state.
- The slide-up animation timer (app.js:259-263), the hover effects (app.js:168-187), the resize margin (app.js:190-197), touch-move suppression (app.js:136-146), `scrollToProject` (app.js:149-157) and the focus scroll (app.js:363-381): cosmetic browser effects with no state the other handlers read.
- Scheduling in `setAutoClose` (app.js:160-166): the delay of `minutes * 60 * 1000` milliseconds and the pending timers are not modelled; only the callback, at the moment it fires, is.
- The wiring of `validateForm` to `blur` and `input` events (app.js:226-239): it depends on the browser reporting the border colour as `rgb(239, 68, 68)`; the result of `validateForm` is never used by the page.
- The registration of listeners on `DOMContentLoaded` (app.js:7-49): the model takes the elements as given; the menu listeners exist only when both the toggle and the menu elements exist.
- One click reaches both document listeners (overlay and menu); the model treats the two listeners separately, since they touch disjoint state.
- `Modals.OverlayClick`: when the overlay has no `.modal` ancestor the listener throws; the model keeps the state unchanged and does not model the uncaught exception.
- Strings are sequences of Unicode scalar values, whereas JavaScript strings are UTF-16 code units and may hold lone surrogates; neither the regular expression nor `trim` treats those as white space, so the verdicts agree.
- `Projects.RenderProjects`: cards are values in a sequence, not DOM objects; object identity and `innerHTML` parsing are not modelled.
