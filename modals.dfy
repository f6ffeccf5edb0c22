/**
 * The modal dialogs of app.js: the global `currentModal`, the `active` class
 * of each modal element and the page-wide scroll lock
 * (`document.body.style.overflow`), driven by `openModal`, `closeModal`, the
 * Escape-key handler, the overlay-click handler and the `setAutoClose` timer.
 *
 * The specification functions work on a value `Page`; the class
 * `ModalController` holds the same state in mutable fields and its methods
 * are proved to follow those functions.
 */
module Modals {
  import opened Wrappers

  /** An element as the modal code sees it: its class list. */
  datatype Element = Element(classes: set<string>)

  /** The document: elements by their `id` attribute. */
  type Dom = map<string, Element>

  const ActiveClass := "active"
  const OverlayClass := "modal-overlay"
  const EscapeKey := "Escape"

  /** Values of `document.body.style.overflow`: locked while a modal is open. */
  const Locked := "hidden"
  const Unlocked := ""

  /** The state the modal code reads and writes. */
  datatype Page = Page(dom: Dom, currentModal: Option<string>, bodyOverflow: string)

  /** The abstract view: the current modal, the active modals, the scroll lock. */
  datatype ModalView = ModalView(current: Option<string>, active: set<string>, scrollLocked: bool)

  /** `document.getElementById(id)` finds an element; the empty string is never an element ID. */
  predicate Resolves(dom: Dom, id: string) {
    id != "" && id in dom
  }

  function GetElementById(dom: Dom, id: string): Option<Element> {
    if Resolves(dom, id) then Some(dom[id]) else None
  }

  /** The ids of the elements that carry the `active` class. */
  function ActiveIds(p: Page): set<string> {
    set id | id in p.dom && id != "" && ActiveClass in p.dom[id].classes
  }

  predicate ScrollLocked(p: Page) {
    p.bodyOverflow == Locked
  }

  function View(p: Page): ModalView {
    ModalView(p.currentModal, ActiveIds(p), ScrollLocked(p))
  }

  /** JavaScript truthiness of `currentModal`: `null` and `''` are falsy. */
  predicate Truthy(o: Option<string>) {
    o.Some? && o.value != ""
  }

  /**
   * The invariant every handler keeps: the scroll lock is on exactly while
   * some modal is current, and the current modal is an active element.
   */
  predicate Consistent(p: Page) {
    && p.bodyOverflow == (if p.currentModal.Some? then Locked else Unlocked)
    && (p.currentModal.Some? ==> p.currentModal.value in ActiveIds(p))
  }

  /** Only the element `id` may change, and no element appears or disappears. */
  predicate OnlyElementChanged(p: Page, r: Page, id: string) {
    && r.dom.Keys == p.dom.Keys
    && forall other :: other in p.dom && other != id ==> r.dom[other] == p.dom[other]
  }

  /** `openModal(modalId)`, app.js:248-265. */
  function Open(p: Page, id: string): (r: Page)
    ensures Resolves(p.dom, id) ==>
      && View(r) == ModalView(Some(id), ActiveIds(p) + {id}, true)
      && OnlyElementChanged(p, r, id)
      && r.dom[id].classes == p.dom[id].classes + {ActiveClass}
    ensures !Resolves(p.dom, id) ==> r == p
    ensures Consistent(p) ==> Consistent(r)
  {
    match GetElementById(p.dom, id)
    case None => p
    case Some(modal) =>
      var r := Page(p.dom[id := Element(modal.classes + {ActiveClass})], Some(id), Locked);
      assert ActiveIds(r) == ActiveIds(p) + {id};
      r
  }

  /**
   * `closeModal(modalId)`, app.js:268-278: when the element exists it loses
   * `active`, the scroll lock is released and `currentModal` becomes null,
   * whichever modal it named.
   */
  function Close(p: Page, id: string): (r: Page)
    ensures Resolves(p.dom, id) ==>
      && View(r) == ModalView(None, ActiveIds(p) - {id}, false)
      && r.bodyOverflow == Unlocked
      && OnlyElementChanged(p, r, id)
      && r.dom[id].classes == p.dom[id].classes - {ActiveClass}
    ensures !Resolves(p.dom, id) ==> r == p
    ensures Consistent(p) ==> Consistent(r)
  {
    match GetElementById(p.dom, id)
    case None => p
    case Some(modal) =>
      var r := Page(p.dom[id := Element(modal.classes - {ActiveClass})], None, Unlocked);
      assert ActiveIds(r) == ActiveIds(p) - {id};
      r
  }

  /** The `keydown` listener, app.js:22-26. */
  function Keydown(p: Page, key: string): (r: Page)
    ensures key != EscapeKey || p.currentModal.None? ==> r == p
    ensures key == EscapeKey && p.currentModal.Some? ==> r == Close(p, p.currentModal.value)
    ensures Consistent(p) ==> Consistent(r)
  {
    if key == EscapeKey && Truthy(p.currentModal) then Close(p, p.currentModal.value) else p
  }

  /**
   * The element a click lands on: its class list, and the `id` of
   * `closest('.modal')` (None when no ancestor is a modal).
   */
  datatype ClickTarget = ClickTarget(classes: set<string>, closestModalId: Option<string>)

  /**
   * The overlay `click` listener, app.js:15-19. An overlay outside any
   * `.modal` makes the listener throw before it changes anything.
   */
  function OverlayClick(p: Page, t: ClickTarget): (r: Page)
    ensures OverlayClass !in t.classes || t.closestModalId.None? ==> r == p
    ensures OverlayClass in t.classes && t.closestModalId.Some? ==>
      r == Close(p, t.closestModalId.value)
    ensures ActiveIds(r) <= ActiveIds(p)
    ensures Consistent(p) ==> Consistent(r)
  {
    if OverlayClass in t.classes then
      match t.closestModalId
      case None => p
      case Some(id) => Close(p, id)
    else p
  }

  /** The callback `setAutoClose(modalId)` schedules, app.js:161-165, at the moment it fires. */
  function AutoCloseFires(p: Page, modalId: string): (r: Page)
    ensures p.currentModal != Some(modalId) ==> r == p
    ensures p.currentModal == Some(modalId) ==> r == Close(p, modalId)
    ensures Consistent(p) ==> Consistent(r)
  {
    if p.currentModal == Some(modalId) then Close(p, modalId) else p
  }

  /** No stacking: a second open overwrites `currentModal` and leaves the first modal active. */
  lemma OpenTwiceKeepsBothActive(p: Page, m1: string, m2: string)
    requires Resolves(p.dom, m1) && Resolves(p.dom, m2)
    ensures var r := Open(Open(p, m1), m2);
      && r.currentModal == Some(m2)
      && ActiveIds(r) == ActiveIds(p) + {m1, m2}
      && ScrollLocked(r)
  {
  }

  /** Opening and then closing the same modal unlocks scrolling and clears `currentModal`; other modals keep their flags. */
  lemma OpenThenCloseRestores(p: Page, m: string)
    requires Resolves(p.dom, m)
    ensures var r := Close(Open(p, m), m);
      && r.currentModal == None
      && r.bodyOverflow == Unlocked
      && ActiveIds(r) == ActiveIds(p) - {m}
      && r.dom.Keys == p.dom.Keys
      && (forall other :: other in p.dom && other != m ==> r.dom[other] == p.dom[other])
  {
  }

  /**
   * Closing a modal that is not the current one still clears `currentModal`:
   * after opening m1 and m2 and closing m2, m1 is still active while no
   * modal is current, the page scrolls and Escape does nothing.
   */
  lemma CloseOtherLeavesStaleModal(p: Page, m1: string, m2: string)
    requires Resolves(p.dom, m1) && Resolves(p.dom, m2) && m1 != m2
    ensures var r := Close(Open(Open(p, m1), m2), m2);
      && r.currentModal == None
      && m1 in ActiveIds(r)
      && !ScrollLocked(r)
      && Keydown(r, EscapeKey) == r
  {
  }

  /** The auto-close timer for a modal that is no longer current leaves the page as it is. */
  lemma AutoCloseAfterSwitchIsNoop(p: Page, m1: string, m2: string)
    requires Resolves(p.dom, m1) && Resolves(p.dom, m2) && m1 != m2
    ensures var q := Open(Open(p, m1), m2);
      AutoCloseFires(q, m1) == q
  {
  }

  /** The global state of the page script. */
  class ModalController {
    var dom: Dom
    var currentModal: Option<string>
    var bodyOverflow: string

    function State(): Page
      reads this
    {
      Page(dom, currentModal, bodyOverflow)
    }

    ghost predicate Valid()
      reads this
    {
      Consistent(State())
    }

    /** Page load: `let currentModal = null` (app.js:4) and no inline overflow style. */
    constructor (dom: Dom)
      ensures State() == Page(dom, None, Unlocked)
      ensures Valid()
    {
      this.dom := dom;
      currentModal := None;
      bodyOverflow := Unlocked;
    }

    method OpenModal(modalId: string)
      modifies this
      ensures State() == Open(old(State()), modalId)
      ensures old(Valid()) ==> Valid()
    {
      var modal := GetElementById(dom, modalId);
      if modal.Some? {
        currentModal := Some(modalId);
        dom := dom[modalId := Element(modal.value.classes + {ActiveClass})];
        bodyOverflow := Locked;
      }
    }

    method CloseModal(modalId: string)
      modifies this
      ensures State() == Close(old(State()), modalId)
      ensures old(Valid()) ==> Valid()
    {
      var modal := GetElementById(dom, modalId);
      if modal.Some? {
        dom := dom[modalId := Element(modal.value.classes - {ActiveClass})];
        bodyOverflow := Unlocked;
        currentModal := None;
      }
    }

    method OnKeydown(key: string)
      modifies this
      ensures State() == Keydown(old(State()), key)
      ensures old(Valid()) ==> Valid()
    {
      if key == EscapeKey && Truthy(currentModal) {
        CloseModal(currentModal.value);
      }
    }

    method OnOverlayClick(target: ClickTarget)
      modifies this
      ensures State() == OverlayClick(old(State()), target)
      ensures old(Valid()) ==> Valid()
    {
      if OverlayClass in target.classes {
        match target.closestModalId
        case None =>
        case Some(id) => CloseModal(id);
      }
    }

    method OnAutoCloseTimer(modalId: string)
      modifies this
      ensures State() == AutoCloseFires(old(State()), modalId)
      ensures old(Valid()) ==> Valid()
    {
      if currentModal == Some(modalId) {
        CloseModal(modalId);
      }
    }
  }
}
