/** utils/walletConnection.ts: on iOS outside the MetaMask browser, open the page in
    the MetaMask app through a `dapp://` link. */
module WalletConnection {
  import opened Optional
  import opened Strings
  import opened DeviceDetection

  /** The parts of `window.location` a link can be built from. */
  datatype Location = Location(protocol: string, host: string, pathname: string, search: string, hash: string)

  /** The deep link keeps only host and path. */
  function DeepLink(loc: Location): (r: string)
    ensures |r| == 7 + |loc.host| + |loc.pathname|
    ensures r[..7] == "dapp://" && r[7..] == loc.host + loc.pathname
  {
    "dapp://" + loc.host + loc.pathname
  }

  /** The scheme, query and fragment of the page do not reach the link. */
  lemma DeepLinkIgnoresSchemeQueryFragment(a: Location, b: Location)
    ensures DeepLink(a) == DeepLink(b) <==> a.host + a.pathname == b.host + b.pathname
  {
    assert DeepLink(a)[7..] == a.host + a.pathname;
    assert DeepLink(b)[7..] == b.host + b.pathname;
  }

  /** What `openMetaMaskDeepLink` does: the value it returns and where, if anywhere, it
      sends the browser. */
  datatype Outcome = Outcome(returned: bool, navigateTo: Option<string>)

  /** `window` is `None` during server rendering. */
  function OpenMetaMaskDeepLink(window: Option<Location>, navigator: Option<string>): (r: Outcome)
    ensures r.returned <==> r.navigateTo.Some?
    ensures r.returned <==> window.Some? && IsIos(navigator) && !IsMetaMaskBrowser(navigator)
    ensures r.returned ==> r.navigateTo == Some(DeepLink(window.value))
  {
    match window
    case None => Outcome(false, None)
    case Some(loc) =>
      if IsIos(navigator) && !IsMetaMaskBrowser(navigator) then Outcome(true, Some(DeepLink(loc)))
      else Outcome(false, None)
  }
}
