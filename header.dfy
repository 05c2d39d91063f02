/**
 * The site header: which navigation item is highlighted for the current path, where each
 * link points, and the mobile-menu flag and sound button that its click handlers change.
 */
module Header {
  import opened SoundProvider

  /** The navigation items, in display order: path and label. */
  const NavItems: seq<(string, string)> :=
    [("/currency", "Currency"), ("/weather", "Weather"), ("/news", "News"), ("/details", "Details")]

  /** `isActive`: the currency item also counts as active on the home page. */
  predicate IsActive(pathname: string, path: string) {
    if path == "/currency" then pathname == "/" || pathname == "/currency"
    else pathname == path
  }

  /** The link target: the currency page lives at the site root. */
  function LinkPath(path: string): string {
    if path == "/currency" then "/" else path
  }

  /** A rendered navigation item: highlighted text, or a link. */
  datatype NavEntry = Highlighted(caption: string) | NavLink(href: string, caption: string)

  /** `renderNavLink`. */
  function RenderNavLink(pathname: string, path: string, caption: string): NavEntry {
    if IsActive(pathname, path) then Highlighted(caption) else NavLink(LinkPath(path), caption)
  }

  /**
   * An active item renders without a link and an inactive one links to its path, with
   * "/currency" sent to "/"; an inactive link never points at the page being shown.
   */
  lemma RenderNavLinkSpec(pathname: string, path: string, caption: string)
    ensures RenderNavLink(pathname, path, caption).Highlighted? <==> IsActive(pathname, path)
    ensures RenderNavLink(pathname, path, caption).caption == caption
    ensures !IsActive(pathname, path) ==>
              RenderNavLink(pathname, path, caption) == NavLink(LinkPath(path), caption)
              && RenderNavLink(pathname, path, caption).href != pathname
  {
  }

  /** For "/currency" the link target is "/", every other path links to itself. */
  lemma LinkPathSpec(path: string)
    ensures LinkPath(path) == "/" <==> path == "/currency" || path == "/"
    ensures path != "/currency" ==> LinkPath(path) == path
  {
  }

  /** At most one navigation item is active for any path, and the home page activates "Currency". */
  lemma OneActiveItem(pathname: string)
    ensures forall i, j :: 0 <= i < j < |NavItems| ==> !(IsActive(pathname, NavItems[i].0) && IsActive(pathname, NavItems[j].0))
    ensures IsActive("/", NavItems[0].0)
  {
  }

  /** The header's own state: the mobile-menu flag, next to the sound provider it uses. */
  class HeaderState {
    var isMobileMenuOpen: bool
    const sound: Provider

    /** The mobile menu starts closed. */
    constructor(sound: Provider)
      ensures !isMobileMenuOpen && this.sound == sound
    {
      isMobileMenuOpen := false;
      this.sound := sound;
    }

    /** The menu button plays the click sound and flips the menu. */
    method MenuButton() returns (played: bool)
      modifies this
      ensures isMobileMenuOpen == !old(isMobileMenuOpen)
      ensures played == sound.isSoundEnabled
    {
      played := sound.PlaySound();
      isMobileMenuOpen := !isMobileMenuOpen;
    }

    /** Following a navigation link plays the click sound and closes the menu. */
    method FollowLink() returns (played: bool)
      modifies this
      ensures !isMobileMenuOpen
      ensures played == sound.isSoundEnabled
    {
      played := sound.PlaySound();
      isMobileMenuOpen := false;
    }

    /** The close button of the open menu plays the click sound and closes it. */
    method CloseMenu() returns (played: bool)
      modifies this
      ensures !isMobileMenuOpen
      ensures played == sound.isSoundEnabled
    {
      played := sound.PlaySound();
      isMobileMenuOpen := false;
    }

    /** The search inputs and the mobile search button only play the click sound. */
    method SearchClick() returns (played: bool)
      ensures played == sound.isSoundEnabled
    {
      played := sound.PlaySound();
    }

    /**
     * The sound button plays first and toggles second: switching sound off still beeps,
     * switching it on does not.
     */
    method SoundButton() returns (played: bool)
      modifies sound, sound.storage
      ensures played == old(sound.isSoundEnabled)
      ensures sound.State() == Toggled(old(sound.State()))
      ensures isMobileMenuOpen == old(isMobileMenuOpen)
    {
      played := sound.PlaySound();
      sound.ToggleSound();
    }
  }
}
