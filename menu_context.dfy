/** The mobile menu flag (src/context/MenuContext.tsx), shared through a React context. */
module MenuContext {
  import opened Options

  const MissingProviderMessage: string := "useMenuContext must be used within a MenuProvider"

  class MenuStore {
    var isMenuOpen: bool

    constructor ()
      ensures !isMenuOpen
    {
      isMenuOpen := false;
    }

    /** The hamburger button. */
    method ToggleMenu()
      modifies this
      ensures isMenuOpen == !old(isMenuOpen)
    {
      isMenuOpen := !isMenuOpen;
    }

    /** A navigation link: the menu ends closed whatever its state was. */
    method CloseMenu()
      modifies this
      ensures !isMenuOpen
    {
      isMenuOpen := false;
    }
  }

  /** The context hook: the provider's store, or a thrown error outside any provider. */
  function UseMenuContext(provider: Option<MenuStore>): (r: Result<MenuStore>)
    ensures r.Ok? <==> provider.Some?
    ensures r.Ok? ==> r.value == provider.value
    ensures r.Thrown? ==> r.message == MissingProviderMessage
  {
    match provider
    case Some(store) => Ok(store)
    case None => Thrown(MissingProviderMessage)
  }

  /** Two toggles restore the flag. */
  method ToggleTwice(menu: MenuStore)
    modifies menu
    ensures menu.isMenuOpen == old(menu.isMenuOpen)
  {
    menu.ToggleMenu();
    menu.ToggleMenu();
  }

  /** Closing twice is closing once, and a toggle after a close always opens. */
  method CloseCloseToggle(menu: MenuStore) returns (closedAfterBoth: bool)
    modifies menu
    ensures closedAfterBoth && menu.isMenuOpen
  {
    menu.CloseMenu();
    menu.CloseMenu();
    closedAfterBoth := !menu.isMenuOpen;
    menu.ToggleMenu();
  }
}
