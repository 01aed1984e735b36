/** The "my tickets" screen's two tab bars: a main tab (all, success, cancelled) and a sub tab
    (upcoming, finished). Choosing a main tab resets the sub tab. */
module TicketTabs {

  const MainTabs: seq<string> := ["all", "success", "cancelled"]
  const SubTabs: seq<string> := ["upcoming", "finished"]

  datatype Tabs = Tabs(mainTab: string, subTab: string)

  const InitialTabs := Tabs("all", "upcoming")

  predicate ValidTabs(s: Tabs) {
    s.mainTab in MainTabs && s.subTab in SubTabs
  }

  /** The main tab bar's handler: `setMainTab(tab); setSubTab('upcoming')`. */
  function PressMain(s: Tabs, tab: string): Tabs {
    Tabs(tab, "upcoming")
  }

  /** The sub tab bar's handler: `setSubTab(sub)`. */
  function PressSub(s: Tabs, sub: string): Tabs {
    s.(subTab := sub)
  }

  /** A press on one of the rendered buttons. */
  datatype Press = Main(tab: string) | Sub(sub: string)

  predicate Offered(p: Press) {
    match p
    case Main(t) => t in MainTabs
    case Sub(t) => t in SubTabs
  }

  function Apply(s: Tabs, p: Press): Tabs {
    match p
    case Main(t) => PressMain(s, t)
    case Sub(t) => PressSub(s, t)
  }

  function Replay(s: Tabs, presses: seq<Press>): Tabs
    decreases |presses|
  {
    if presses == [] then s else Replay(Apply(s, presses[0]), presses[1..])
  }

  /** Whatever the user presses, the state stays one of the rendered tab pairs. */
  lemma {:induction false} ReplayStaysValid(s: Tabs, presses: seq<Press>)
    requires ValidTabs(s)
    requires forall k :: 0 <= k < |presses| ==> Offered(presses[k])
    ensures ValidTabs(Replay(s, presses))
    decreases |presses|
  {
    if presses != [] {
      assert Offered(presses[0]);
      ReplayStaysValid(Apply(s, presses[0]), presses[1..]);
    }
  }

  /** A main press sets the main tab and resets the sub tab, whatever the state before it. */
  lemma MainPressForgetsSubTab(s: Tabs, t: Tabs, tab: string)
    ensures PressMain(s, tab) == PressMain(t, tab)
    ensures PressMain(s, tab).subTab == "upcoming" && PressMain(s, tab).mainTab == tab
  {
  }

  /** A sub press keeps the main tab. */
  lemma SubPressKeepsMainTab(s: Tabs, sub: string)
    ensures PressSub(s, sub).mainTab == s.mainTab && PressSub(s, sub).subTab == sub
  {
  }

  /** Pressing the same tab twice is the same as pressing it once. */
  lemma PressIdempotent(s: Tabs, p: Press)
    ensures Apply(Apply(s, p), p) == Apply(s, p)
  {
  }

  class TicketScreen {
    var mainTab: string
    var subTab: string

    function State(): Tabs
      reads this
    {
      Tabs(mainTab, subTab)
    }

    ghost predicate Valid()
      reads this
    {
      ValidTabs(State())
    }

    constructor ()
      ensures State() == InitialTabs && Valid()
    {
      mainTab := "all";
      subTab := "upcoming";
    }

    method OnMainTabPress(tab: string)
      requires Valid() && tab in MainTabs
      modifies this
      ensures Valid()
      ensures State() == PressMain(old(State()), tab)
    {
      mainTab := tab;
      subTab := "upcoming";
    }

    method OnSubTabPress(sub: string)
      requires Valid() && sub in SubTabs
      modifies this
      ensures Valid()
      ensures State() == PressSub(old(State()), sub)
    {
      subTab := sub;
    }
  }
}
