/** components/ui/tabNavigation.tsx: the animated tab bar; it remembers the tab being
    left and the direction of travel, and derives animation classes from them. */
module TabNavigation {
  import opened Optional

  datatype Direction = Right | Left

  /** A tab of the bar (`name` is its `label`); `gradientClass` is optional. */
  datatype Tab = Tab(id: int, name: string, gradientClass: Option<string>)

  /** `getGradientClass`: the tab's own gradient when it has a non-empty one. */
  function GradientClass(tab: Tab): (r: string)
    ensures tab.gradientClass.Some? && tab.gradientClass.value != "" ==> r == tab.gradientClass.value
    ensures tab.gradientClass.None? || tab.gradientClass.value == "" ==> r == "from-purple-400 to-cyan-400"
  {
    if tab.gradientClass.Some? && tab.gradientClass.value != "" then tab.gradientClass.value
    else "from-purple-400 to-cyan-400"
  }

  class TabBar {
    var previousTab: int
    var tabDirection: Direction
    var exitingTab: Option<int>

    constructor(activeTab: int)
      ensures previousTab == activeTab && tabDirection == Right && exitingTab == None
    {
      previousTab := activeTab;
      tabDirection := Right;
      exitingTab := None;
    }

    /** `handleTabClick`: clicking the active tab does nothing; clicking another records
        the active tab as the one leaving, sets the direction and notifies the parent
        once. `notified` is the id passed to `onTabChange`. */
    method HandleTabClick(tabId: int, activeTab: int) returns (notified: Option<int>)
      modifies this
      ensures tabId == activeTab ==>
        notified == None && previousTab == old(previousTab) &&
        tabDirection == old(tabDirection) && exitingTab == old(exitingTab)
      ensures tabId != activeTab ==>
        notified == Some(tabId) && previousTab == activeTab && exitingTab == Some(activeTab) &&
        (tabDirection == Right <==> tabId > activeTab)
    {
      if tabId == activeTab {
        return None;
      }
      previousTab := activeTab;
      exitingTab := Some(activeTab);
      tabDirection := if tabId > activeTab then Right else Left;
      notified := Some(tabId);
    }

    /** The 400 ms timer that ends the exit animation. */
    method ExitTimerFires()
      modifies this
      ensures exitingTab == None
      ensures previousTab == old(previousTab) && tabDirection == old(tabDirection)
    {
      exitingTab := None;
    }

    /** `getExitAnimationClass`: set only on the tab leaving, named opposite to the
        direction of travel. */
    function ExitClass(tabId: int): (r: string)
      reads this
      ensures r != "" <==> exitingTab == Some(tabId)
      ensures r != "" ==>
        r == (if tabDirection == Right then "tab-indicator-exit-left" else "tab-indicator-exit-right")
    {
      if exitingTab != Some(tabId) then ""
      else if tabDirection == Right then "tab-indicator-exit-left"
      else "tab-indicator-exit-right"
    }

    /** `getEnterAnimationClass`: set only on the active tab, named after the direction. */
    function EnterClass(tabId: int, activeTab: int): (r: string)
      reads this
      ensures r != "" <==> tabId == activeTab
      ensures r != "" ==> r == (if tabDirection == Right then "tab-indicator-right" else "tab-indicator-left")
    {
      if tabId != activeTab then ""
      else if tabDirection == Right then "tab-indicator-right"
      else "tab-indicator-left"
    }
  }
}
