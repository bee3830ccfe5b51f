/** utils/deviceDetection.ts: predicates on the browser's user-agent string. With no
    `navigator` (server rendering) the string tested is empty. */
module DeviceDetection {
  import opened Optional
  import opened Strings

  /** The string each regular expression is tested against. */
  function UserAgent(navigator: Option<string>): string {
    match navigator
    case Some(ua) => ua
    case None => ""
  }

  /** The alternatives of the mobile expression, tested with the `i` flag. */
  const MobileWords: seq<string> :=
    ["Android", "webOS", "iPhone", "iPad", "iPod", "BlackBerry", "IEMobile", "Opera Mini"]

  /** The alternatives of the iOS expression. */
  const IosWords: seq<string> := ["iPhone", "iPad", "iPod"]

  /** An alternation of literal words under the `i` flag matches when one word occurs
      in the string, ignoring ASCII case (for ASCII patterns the flag folds nothing else). */
  predicate MatchesAny(ua: string, words: seq<string>) {
    exists i :: 0 <= i < |words| && ContainsIgnoreCase(ua, words[i])
  }

  predicate IsMobile(navigator: Option<string>) {
    MatchesAny(UserAgent(navigator), MobileWords)
  }

  predicate IsIos(navigator: Option<string>) {
    MatchesAny(UserAgent(navigator), IosWords)
  }

  predicate IsAndroid(navigator: Option<string>) {
    ContainsIgnoreCase(UserAgent(navigator), "Android")
  }

  /** A plain, case-sensitive substring test. */
  predicate IsMetaMaskBrowser(navigator: Option<string>) {
    navigator.Some? && Contains(navigator.value, "MetaMaskMobile")
  }

  /** Without a navigator every predicate is false. */
  lemma NoNavigator()
    ensures !IsMobile(None) && !IsIos(None) && !IsAndroid(None) && !IsMetaMaskBrowser(None)
  {
    forall i | 0 <= i < |MobileWords|
      ensures !ContainsIgnoreCase("", MobileWords[i])
    {
      assert |Lower(MobileWords[i])| > 0;
    }
  }

  /** The iOS words are among the mobile words, so an iOS agent is a mobile one. */
  lemma IosIsMobile(navigator: Option<string>)
    ensures IsIos(navigator) ==> IsMobile(navigator)
  {
    if IsIos(navigator) {
      var i :| 0 <= i < |IosWords| && ContainsIgnoreCase(UserAgent(navigator), IosWords[i]);
      assert MobileWords[i + 2] == IosWords[i];
    }
  }

  /** "Android" is one of the mobile words. */
  lemma AndroidIsMobile(navigator: Option<string>)
    ensures IsAndroid(navigator) ==> IsMobile(navigator)
  {
    if IsAndroid(navigator) {
      assert MobileWords[0] == "Android";
    }
  }

  lemma LowerIdempotent(s: string)
    ensures Lower(Lower(s)) == Lower(s)
  {
  }

  /** The device checks ignore case: an agent and its lower-case form are classified
      alike. */
  lemma DeviceChecksIgnoreCase(ua: string)
    ensures IsMobile(Some(ua)) <==> IsMobile(Some(Lower(ua)))
    ensures IsIos(Some(ua)) <==> IsIos(Some(Lower(ua)))
    ensures IsAndroid(Some(ua)) <==> IsAndroid(Some(Lower(ua)))
  {
    LowerIdempotent(ua);
  }

  /** The MetaMask check does not ignore case. */
  lemma MetaMaskCheckIsCaseSensitive()
    ensures IsMetaMaskBrowser(Some("MetaMaskMobile"))
    ensures !IsMetaMaskBrowser(Some("metamaskmobile"))
  {
    assert OccursAt("MetaMaskMobile", "MetaMaskMobile", 0);
    assert !OccursAt("metamaskmobile", "MetaMaskMobile", 0) by {
      assert "metamaskmobile"[0..14][0] != "MetaMaskMobile"[0];
    }
  }
}
