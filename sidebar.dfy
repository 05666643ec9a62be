/**
 * The side menu: the creator's and the listener's menu tables, the item
 * highlighted, and the page a click leads to.
 */
module SideBar {
  import opened JsText

  /** Which of the two menus the side bar shows. */
  datatype Variant = Musician | User

  /** One menu entry: its key, its label and the page name it links to. */
  datatype MenuItem = MenuItem(id: nat, menu: string, link: string)

  const MusicianMenu: seq<MenuItem> := [
    MenuItem(1, "Dashboard", "dashboard"),
    MenuItem(2, "Music", "music"),
    MenuItem(3, "Portofolio", "portofolio"),
    MenuItem(4, "Create", "create"),
    MenuItem(5, "Wallet", "wallet")
  ]

  const UserMenu: seq<MenuItem> := [
    MenuItem(1, "Home", "home"),
    MenuItem(2, "Search", "search"),
    MenuItem(3, "Invest", "invest"),
    MenuItem(4, "Settings", "settings"),
    MenuItem(5, "Sign Out", "")
  ]

  const SignOut: string := "Sign Out"

  function Menu(variant: Variant): (items: seq<MenuItem>)
    ensures |items| == 5
  {
    if variant.Musician? then MusicianMenu else UserMenu
  }

  /** The item highlighted when the side bar first shows: the first of its menu. */
  function InitialActiveMenu(variant: Variant): (menu: string)
    ensures menu == Menu(variant)[0].menu
  {
    if variant.Musician? then "Dashboard" else "Home"
  }

  /**
   * The page a click leads to: the creator's pages under "/musician/", the
   * listener's under "/user/", and "Sign Out" back to the landing page.
   */
  function Route(variant: Variant, menu: string, link: string): (path: string)
    ensures path == "/" <==> variant.User? && menu == SignOut
    ensures variant.Musician? ==> path == "/musician/" + ToLower(link)
    ensures variant.User? && menu != SignOut ==> path == "/user/" + ToLower(link)
  {
    if variant.Musician? then "/musician/" + ToLower(link)
    else if menu == SignOut then "/"
    else "/user/" + ToLower(link)
  }

  /** Text without capital letters is its own lower case. */
  lemma LowerCaseUnchanged(s: string)
    requires forall i :: 0 <= i < |s| ==> !('A' <= s[i] <= 'Z')
    ensures ToLower(s) == s
  {
  }

  /** A menu item is highlighted when it is the active one. */
  predicate Highlighted(activeMenu: string, item: MenuItem) {
    activeMenu == item.menu
  }

  /** The creator's menu labels differ from one another. */
  lemma MusicianMenuDistinct()
    ensures forall i, j :: 0 <= i < j < 5 ==> MusicianMenu[i].menu != MusicianMenu[j].menu
  {
    assert forall i, j :: 0 <= i < j < 5 ==> MusicianMenu[i].menu[0] != MusicianMenu[j].menu[0];
  }

  /** The listener's menu labels differ from one another. */
  lemma UserMenuDistinct()
    ensures forall i, j :: 0 <= i < j < 5 ==> UserMenu[i].menu != UserMenu[j].menu
  {
    assert forall i, j :: 0 <= i < j < 5 ==>
      UserMenu[i].menu[0] != UserMenu[j].menu[0] || UserMenu[i].menu[2] != UserMenu[j].menu[2];
  }

  /** Whichever item is active, it is the only item highlighted. */
  lemma ExactlyOneHighlighted(variant: Variant, k: nat)
    requires k < 5
    ensures forall j :: 0 <= j < 5 ==> (Highlighted(Menu(variant)[k].menu, Menu(variant)[j]) <==> j == k)
  {
    if variant.Musician? {
      MusicianMenuDistinct();
    } else {
      UserMenuDistinct();
    }
  }

  /** Every creator item leads to the creator page named by its link. */
  lemma MusicianRoutes(k: nat)
    requires k < 5
    ensures Route(Musician, MusicianMenu[k].menu, MusicianMenu[k].link) == "/musician/" + MusicianMenu[k].link
  {
    LowerCaseUnchanged(MusicianMenu[k].link);
  }

  /** Every listener item leads to the user page named by its link, except "Sign Out", which leads home. */
  lemma UserRoutes(k: nat)
    requires k < 5
    ensures Route(User, UserMenu[k].menu, UserMenu[k].link) ==
              if k == 4 then "/" else "/user/" + UserMenu[k].link
  {
    UserMenuDistinct();
    LowerCaseUnchanged(UserMenu[k].link);
  }

  /** The side bar's state: which menu it shows and which item is active. */
  class SideBarState {
    const variant: Variant
    var activeMenu: string

    /** The first item of the menu starts out highlighted. */
    constructor (variant: Variant)
      ensures this.variant == variant && activeMenu == InitialActiveMenu(variant)
    {
      this.variant := variant;
      activeMenu := InitialActiveMenu(variant);
    }

    /** `handleClickMenu(menu, link)`: highlight the clicked item and return the page to go to. */
    method HandleClickMenu(menu: string, link: string) returns (path: string)
      modifies this`activeMenu
      ensures activeMenu == menu
      ensures path == Route(variant, menu, link)
    {
      activeMenu := menu;
      path := Route(variant, menu, link);
    }
  }
}
