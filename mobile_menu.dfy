/** The mobile navigation menu: its `hidden` class and the inline
    `max-height` that animates opening and closing. */
module MobileMenu {

  /** The inline `max-height`: not set yet, or a pixel length (`"0"` is
      `Pixels(0)`). */
  datatype MaxHeight = Unset | Pixels(n: nat)

  datatype Menu = Menu(hidden: bool, maxHeight: MaxHeight)

  /** Desktop width from which the mobile menu is closed on resize. */
  const DesktopWidth: int := 1024

  /** A hidden menu is collapsed (or never opened); an open menu has an
      inline pixel height. */
  predicate Coherent(m: Menu) {
    if m.hidden then m.maxHeight == Unset || m.maxHeight == Pixels(0)
    else m.maxHeight.Pixels?
  }

  /** The menu button: toggle `hidden`, then open to the content's
      `scrollHeight` or collapse to zero. */
  function ButtonClick(m: Menu, scrollHeight: nat): (r: Menu)
    ensures r.hidden == !m.hidden
    ensures !r.hidden ==> r.maxHeight == Pixels(scrollHeight)
    ensures r.hidden ==> r.maxHeight == Pixels(0)
  {
    if m.hidden then Menu(false, Pixels(scrollHeight)) else Menu(true, Pixels(0))
  }

  /** The shared "close if open" step of the three closing handlers. */
  function Close(m: Menu): (r: Menu)
    ensures r.hidden
    ensures m.hidden ==> r == m
    ensures !m.hidden ==> r.maxHeight == Pixels(0)
  {
    if !m.hidden then Menu(true, Pixels(0)) else m
  }

  /** A click on a navigation link. */
  function LinkClick(m: Menu): (r: Menu)
    ensures r.hidden
  {
    Close(m)
  }

  /** A click anywhere in the document: only a click outside both the
      button and the menu closes the menu. */
  function DocumentClick(m: Menu, insideButton: bool, insideMenu: bool): (r: Menu)
    ensures !insideButton && !insideMenu ==> r.hidden
    ensures insideButton || insideMenu ==> r == m
  {
    if !insideButton && !insideMenu then Close(m) else m
  }

  /** A window resize: a desktop-wide window closes the menu. */
  function Resize(m: Menu, innerWidth: int): (r: Menu)
    ensures innerWidth >= DesktopWidth ==> r.hidden
    ensures innerWidth < DesktopWidth ==> r == m
  {
    if innerWidth >= DesktopWidth && !m.hidden then Close(m) else m
  }

  // ---------------------------------------------------------------------
  // Properties

  /** Every handler keeps the menu coherent. */
  lemma HandlersKeepCoherent(m: Menu, scrollHeight: nat, insideButton: bool, insideMenu: bool, innerWidth: int)
    requires Coherent(m)
    ensures Coherent(ButtonClick(m, scrollHeight))
    ensures Coherent(LinkClick(m))
    ensures Coherent(DocumentClick(m, insideButton, insideMenu))
    ensures Coherent(Resize(m, innerWidth))
  {
  }

  /** Closing twice is closing once. */
  lemma CloseIdempotent(m: Menu)
    ensures Close(Close(m)) == Close(m)
  {
  }

  /** Opening a hidden menu and pressing the button again leaves it hidden
      and fully collapsed, whatever height it had opened to. */
  lemma OpenThenCloseCollapses(m: Menu, scrollHeight: nat, later: nat)
    requires m.hidden
    ensures ButtonClick(ButtonClick(m, scrollHeight), later) == Menu(true, Pixels(0))
  {
  }

  /** A click on the button also reaches the document handler, which then
      changes nothing: the menu ends as the button handler leaves it. */
  lemma ButtonClickBubbles(m: Menu, scrollHeight: nat, insideMenu: bool)
    ensures DocumentClick(ButtonClick(m, scrollHeight), true, insideMenu) == ButtonClick(m, scrollHeight)
  {
  }

  // ---------------------------------------------------------------------
  // The menu element

  class MobileMenuElement {
    var hidden: bool
    var maxHeight: MaxHeight

    function State(): Menu
      reads this
    {
      Menu(hidden, maxHeight)
    }

    /** The menu as the markup declares it: hidden, no inline height. */
    constructor ()
      ensures State() == Menu(true, Unset) && Coherent(State())
    {
      hidden := true;
      maxHeight := Unset;
    }

    method OnButtonClick(scrollHeight: nat)
      modifies this
      ensures State() == ButtonClick(old(State()), scrollHeight)
    {
      hidden := !hidden;
      if !hidden {
        maxHeight := Pixels(scrollHeight);
      } else {
        maxHeight := Pixels(0);
      }
    }

    method OnLinkClick()
      modifies this
      ensures State() == LinkClick(old(State()))
    {
      if !hidden {
        hidden := true;
        maxHeight := Pixels(0);
      }
    }

    method OnDocumentClick(insideButton: bool, insideMenu: bool)
      modifies this
      ensures State() == DocumentClick(old(State()), insideButton, insideMenu)
    {
      if !insideButton && !insideMenu {
        if !hidden {
          hidden := true;
          maxHeight := Pixels(0);
        }
      }
    }

    method OnResize(innerWidth: int)
      modifies this
      ensures State() == Resize(old(State()), innerWidth)
    {
      if innerWidth >= DesktopWidth && !hidden {
        hidden := true;
        maxHeight := Pixels(0);
      }
    }
  }
}
