/**
 * The mobile navigation menu of app.js: the `open` class of `#mobileMenu`
 * and its `aria-hidden` attribute, changed by the toggle button's `click`
 * listener (app.js:35-39), the document's outside-click listener
 * (app.js:42-47) and `closeMobileMenu` (app.js:52-58).
 */
module MobileMenu {

  const OpenClass := "open"

  /** The menu element: its class list and its `aria-hidden` attribute. */
  datatype MenuElement = MenuElement(classes: set<string>, ariaHidden: string)

  predicate IsOpen(m: MenuElement) {
    OpenClass in m.classes
  }

  /** `aria-hidden` says "false" exactly when the menu is open, and "true" otherwise. */
  predicate AriaInSync(m: MenuElement) {
    m.ariaHidden == (if IsOpen(m) then "false" else "true")
  }

  /** The toggle button's listener, app.js:37-38. */
  function Toggled(m: MenuElement): (r: MenuElement)
    ensures IsOpen(r) == !IsOpen(m)
    ensures AriaInSync(r)
    ensures r.classes - {OpenClass} == m.classes - {OpenClass}
  {
    var classes := if OpenClass in m.classes then m.classes - {OpenClass} else m.classes + {OpenClass};
    MenuElement(classes, if OpenClass in classes then "false" else "true")
  }

  /** Removing `open` and hiding the menu, app.js:44-45 and app.js:55-56. */
  function Closed(m: MenuElement): (r: MenuElement)
    ensures !IsOpen(r)
    ensures AriaInSync(r)
    ensures r.classes == m.classes - {OpenClass}
  {
    MenuElement(m.classes - {OpenClass}, "true")
  }

  /**
   * A click on the page, with where its target lies. A click inside the
   * toggle runs the toggle listener, which stops propagation, so the
   * document listener never sees it; any other click reaches the document
   * listener, which closes the menu unless the target is inside it.
   */
  function Clicked(m: MenuElement, insideMenu: bool, insideToggle: bool): (r: MenuElement)
    ensures insideToggle ==> IsOpen(r) == !IsOpen(m) && AriaInSync(r)
    ensures !insideToggle && !insideMenu ==> !IsOpen(r) && AriaInSync(r)
    ensures !insideToggle && insideMenu ==> r == m
    ensures AriaInSync(m) ==> AriaInSync(r)
  {
    if insideToggle then Toggled(m)
    else if !insideMenu then Closed(m)
    else m
  }

  /** Closing is idempotent. */
  lemma ClosedIdempotent(m: MenuElement)
    ensures Closed(Closed(m)) == Closed(m)
  {
  }

  /** Two toggles bring back a menu whose attribute was in sync. */
  lemma ToggledTwice(m: MenuElement)
    requires AriaInSync(m)
    ensures Toggled(Toggled(m)) == m
  {
  }

  /** The `#mobileMenu` element, whose class list and attribute the listeners change in place. */
  class Menu {
    var classes: set<string>
    var ariaHidden: string

    function State(): MenuElement
      reads this
    {
      MenuElement(classes, ariaHidden)
    }

    constructor (classes: set<string>, ariaHidden: string)
      ensures State() == MenuElement(classes, ariaHidden)
    {
      this.classes := classes;
      this.ariaHidden := ariaHidden;
    }

    /** `classList.toggle('open')`, then `aria-hidden` from the new class list. */
    method Toggle()
      modifies this
      ensures State() == Toggled(old(State()))
    {
      if OpenClass in classes {
        classes := classes - {OpenClass};
      } else {
        classes := classes + {OpenClass};
      }
      ariaHidden := if OpenClass in classes then "false" else "true";
    }

    method Close()
      modifies this
      ensures State() == Closed(old(State()))
    {
      classes := classes - {OpenClass};
      ariaHidden := "true";
    }

    /** The document `click` listener, app.js:42-47, for a click that propagated to it. */
    method OnDocumentClick(insideMenu: bool, insideToggle: bool)
      modifies this
      ensures State() == if !insideMenu && !insideToggle then Closed(old(State())) else old(State())
    {
      if !insideMenu && !insideToggle {
        Close();
      }
    }

    /** A click on the page: the toggle listener or, when it did not stop propagation, the document listener. */
    method OnClick(insideMenu: bool, insideToggle: bool)
      modifies this
      ensures State() == Clicked(old(State()), insideMenu, insideToggle)
    {
      if insideToggle {
        Toggle();
      } else {
        OnDocumentClick(insideMenu, insideToggle);
      }
    }
  }

  /** `closeMobileMenu()`, app.js:52-58: nothing happens when the page has no `#mobileMenu`. */
  method CloseMobileMenu(menu: Menu?)
    modifies menu
    ensures menu != null ==> menu.State() == Closed(old(menu.State()))
  {
    if menu != null {
      menu.Close();
    }
  }
}
