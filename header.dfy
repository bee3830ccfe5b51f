/** components/common/Header.tsx: the site header, its drawer toggle, the mobile
    breakpoint and the shortened wallet address. */
module Header {
  import opened Optional
  import opened Strings

  /** `shortenAddress`: empty for a missing or empty address, otherwise the first six
      and the last four characters around "...". */
  function ShortenAddress(address: Option<string>): (r: string)
    ensures address.None? || address == Some("") ==> r == ""
    ensures address.Some? && |address.value| >= 6 ==>
      r == address.value[..6] + "..." + address.value[|address.value| - 4..]
    ensures address.Some? && 4 <= |address.value| < 6 ==>
      r == address.value + "..." + address.value[|address.value| - 4..]
    ensures address.Some? && 0 < |address.value| < 4 ==> r == address.value + "..." + address.value
  {
    match address
    case None => ""
    case Some(a) => if a == "" then "" else Slice(a, 0, 6) + "..." + SliceFrom(a, -4)
  }

  /** A full 42-character address shortens to 13 characters. */
  lemma ShortAddressLength(a: string)
    requires |a| == 42
    ensures |ShortenAddress(Some(a))| == 13
  {
  }

  /** The width below which the header uses the mobile layout. */
  const MobileBreakpoint: int := 640

  /** What the header renders. */
  datatype HeaderView = Placeholder | Full(addressLabel: string, drawerOpen: bool, mobile: bool)

  class HeaderState {
    var mounted: bool
    var drawerOpen: bool
    var isMobile: bool

    constructor()
      ensures !mounted && !drawerOpen && !isMobile
    {
      mounted := false;
      drawerOpen := false;
      isMobile := false;
    }

    /** The mount effect: mounted, then the first width check. */
    method Mount(innerWidth: int)
      modifies this
      ensures mounted && drawerOpen == old(drawerOpen)
      ensures isMobile <==> innerWidth < 640
    {
      mounted := true;
      isMobile := innerWidth < MobileBreakpoint;
    }

    /** The resize listener. */
    method Resize(innerWidth: int)
      modifies this
      ensures mounted == old(mounted) && drawerOpen == old(drawerOpen)
      ensures isMobile <==> innerWidth < 640
    {
      isMobile := innerWidth < MobileBreakpoint;
    }

    /** `toggleDrawer`: flips the drawer, so two toggles restore it. */
    method ToggleDrawer()
      modifies this
      ensures drawerOpen == !old(drawerOpen)
      ensures mounted == old(mounted) && isMobile == old(isMobile)
    {
      drawerOpen := !drawerOpen;
    }

    /** Before mount the placeholder renders, whatever the wallet state. */
    function View(isConnected: bool, address: Option<string>): (v: HeaderView)
      reads this
      ensures v.Placeholder? <==> !mounted
      ensures v.Full? ==> v.addressLabel == (if isConnected then ShortenAddress(address) else "")
    {
      if !mounted then Placeholder
      else Full(if isConnected then ShortenAddress(address) else "", drawerOpen, isMobile)
    }
  }
}
