/**
 * The settings page: a save button whose status runs idle, saving, saved and
 * back to idle on two nested timers, a tab bar that picks the one content
 * panel shown, and the on/off switches of that panel. Timer completions are explicit
 * events; since the save button is never disabled, several saves can have
 * timers outstanding at once, so the state counts the outstanding timers of
 * each stage.
 */
module Settings {

  datatype SaveStatus = Idle | Saving | Saved

  /** `saveStatus` and how many first-stage and second-stage timers are outstanding. */
  datatype SaveState = SaveState(status: SaveStatus, savedTimers: nat, idleTimers: nat)

  datatype SaveEvent =
    | SaveClick
      /** A 1500 ms timer completing: it shows "saved" and schedules the 2000 ms one. */
    | SavedTimerFired
      /** A 2000 ms timer completing: it shows idle again. */
    | IdleTimerFired

  function InitialSave(): SaveState { SaveState(Idle, 0, 0) }

  /** The save button's text. */
  function SaveLabel(status: SaveStatus): string
  {
    match status
    case Saving => "Saving..."
    case Saved => "Saved"
    case Idle => "Save Changes"
  }

  /** One event; a timer event with no such timer outstanding cannot occur and changes nothing. */
  function SaveStep(s: SaveState, e: SaveEvent): (t: SaveState)
    ensures e == SaveClick ==> t.status == Saving && t.savedTimers == s.savedTimers + 1 && t.idleTimers == s.idleTimers
    ensures e == SavedTimerFired && s.savedTimers > 0 ==>
      t.status == Saved && t.savedTimers == s.savedTimers - 1 && t.idleTimers == s.idleTimers + 1
    ensures e == IdleTimerFired && s.idleTimers > 0 ==>
      t.status == Idle && t.savedTimers == s.savedTimers && t.idleTimers == s.idleTimers - 1
  {
    match e
    case SaveClick => s.(status := Saving, savedTimers := s.savedTimers + 1)
    case SavedTimerFired =>
      if s.savedTimers == 0 then s
      else SaveState(Saved, s.savedTimers - 1, s.idleTimers + 1)
    case IdleTimerFired =>
      if s.idleTimers == 0 then s
      else s.(status := Idle, idleTimers := s.idleTimers - 1)
  }

  function SaveRun(s: SaveState, es: seq<SaveEvent>): SaveState
    decreases |es|
  {
    if es == [] then s else SaveRun(SaveStep(s, es[0]), es[1..])
  }

  /**
   * What holds from mounting on: "Saving..." shows only while a first-stage
   * timer is outstanding, "Saved" only while a second-stage one is, and once
   * every timer has fired the button reads "Save Changes" again.
   */
  ghost predicate Settles(s: SaveState)
  {
    && (s.status == Saving ==> s.savedTimers > 0)
    && (s.status == Saved ==> s.idleTimers > 0)
    && (s.savedTimers == 0 && s.idleTimers == 0 ==> s.status == Idle)
  }

  lemma {:induction false} SaveRunSettles(s: SaveState, es: seq<SaveEvent>)
    requires Settles(s)
    ensures Settles(SaveRun(s, es))
    decreases |es|
  {
    if es != [] {
      SaveRunSettles(SaveStep(s, es[0]), es[1..]);
    }
  }

  /** Whatever was clicked, once no timer is outstanding the status is idle. */
  lemma QuiescentMeansIdle(es: seq<SaveEvent>)
    requires SaveRun(InitialSave(), es).savedTimers == 0 && SaveRun(InitialSave(), es).idleTimers == 0
    ensures SaveRun(InitialSave(), es).status == Idle
    ensures SaveLabel(SaveRun(InitialSave(), es).status) == "Save Changes"
  {
    SaveRunSettles(InitialSave(), es);
  }

  /** The button text tells the three statuses apart. */
  lemma SaveLabelsDistinct(a: SaveStatus, b: SaveStatus)
    ensures SaveLabel(a) == SaveLabel(b) <==> a == b
  {
  }

  /** A single save with nothing else in flight: saving, then saved, then back to the initial state. */
  lemma SaveCycle()
    ensures SaveRun(InitialSave(), [SaveClick]).status == Saving
    ensures SaveRun(InitialSave(), [SaveClick, SavedTimerFired]).status == Saved
    ensures SaveRun(InitialSave(), [SaveClick, SavedTimerFired, IdleTimerFired]) == InitialSave()
  {
    assert [SaveClick, SavedTimerFired][1..] == [SavedTimerFired];
    assert [SaveClick, SavedTimerFired, IdleTimerFired][1..] == [SavedTimerFired, IdleTimerFired];
    assert [SavedTimerFired, IdleTimerFired][1..] == [IdleTimerFired];
  }

  /**
   * The earlier save's timers are never cancelled: saving again while "Saved"
   * shows, the first save's second timer can put the button back to
   * "Save Changes" while the new save's first timer is still outstanding.
   */
  lemma EarlierTimerEndsLaterSaving()
    ensures var s := SaveRun(InitialSave(), [SaveClick, SavedTimerFired, SaveClick, IdleTimerFired]);
      s.status == Idle && s.savedTimers == 1
  {
    var es := [SaveClick, SavedTimerFired, SaveClick, IdleTimerFired];
    assert es[1..] == [SavedTimerFired, SaveClick, IdleTimerFired];
    assert es[1..][1..] == [SaveClick, IdleTimerFired];
    assert es[1..][1..][1..] == [IdleTimerFired];
  }

  /** The tab ids, in display order. */
  const TabIds: seq<string> := ["general", "notifications", "integrations", "security"]

  const InitialTab: string := "general"

  /** A content panel renders when its id is the active tab. */
  predicate PanelShown(activeTab: string, panel: string) { activeTab == panel }

  /** With an active tab from the bar, exactly one of the four panels renders. */
  lemma ExactlyOnePanel(activeTab: string, i: int, j: int)
    requires activeTab in TabIds && 0 <= i < 4 && 0 <= j < 4
    requires PanelShown(activeTab, TabIds[i]) && PanelShown(activeTab, TabIds[j])
    ensures i == j
    ensures exists k :: 0 <= k < 4 && PanelShown(activeTab, TabIds[k])
  {
  }

  /** A switch's state after `n` clicks. */
  function Clicks(checked: bool, n: nat): bool
    decreases n
  {
    if n == 0 then checked else Clicks(!checked, n - 1)
  }

  /** An even number of clicks restores a switch, an odd number flips it. */
  lemma {:induction false} ClicksParity(checked: bool, n: nat)
    ensures Clicks(checked, n) == if n % 2 == 0 then checked else !checked
    decreases n
  {
    if n > 0 {
      ClicksParity(!checked, n - 1);
    }
  }

  /**
   * The `defaultChecked` of each switch in a panel, in order: the general
   * panel's two display switches (only high-fidelity rendering on) and the
   * notification panel's three channel switches (only push on); the other
   * panels have none.
   */
  function PanelSwitchDefaults(tab: string): seq<bool>
  {
    if tab == "general" then [true, false]
    else if tab == "notifications" then seq(3, i => i == 0)
    else []
  }

  /**
   * The tab bar and the panel under it. The panel is keyed by the active tab,
   * so it remounts, and its switches restart at their defaults, whenever the
   * tab changes.
   */
  datatype Panel = Panel(activeTab: string, switches: seq<bool>)

  function InitialPanel(): Panel { Panel(InitialTab, PanelSwitchDefaults(InitialTab)) }

  datatype PanelEvent = TabClick(tab: string) | SwitchClick(index: nat)

  /** A tab click; clicking the active tab re-renders nothing. */
  function SelectTabStep(p: Panel, tab: string): Panel
  {
    if tab == p.activeTab then p else Panel(tab, PanelSwitchDefaults(tab))
  }

  /** A click on a switch of the panel; there is no switch past the end to click. */
  function SwitchStep(p: Panel, i: nat): Panel
  {
    if i < |p.switches| then p.(switches := p.switches[i := !p.switches[i]]) else p
  }

  function PanelStep(p: Panel, e: PanelEvent): Panel
  {
    match e
    case TabClick(tab) => SelectTabStep(p, tab)
    case SwitchClick(i) => SwitchStep(p, i)
  }

  function PanelRun(p: Panel, es: seq<PanelEvent>): Panel
    decreases |es|
  {
    if es == [] then p else PanelRun(PanelStep(p, es[0]), es[1..])
  }

  /** The panel always shows exactly the switches its tab renders. */
  ghost predicate SwitchesMatchTab(p: Panel)
  {
    |p.switches| == |PanelSwitchDefaults(p.activeTab)|
  }

  lemma {:induction false} PanelRunKeepsSwitches(p: Panel, es: seq<PanelEvent>)
    requires SwitchesMatchTab(p)
    ensures SwitchesMatchTab(PanelRun(p, es))
    decreases |es|
  {
    if es != [] {
      PanelRunKeepsSwitches(PanelStep(p, es[0]), es[1..]);
    }
  }

  /** On mounting, the general panel shows high-fidelity rendering on and auto-launch off. */
  lemma InitialDisplaySwitches()
    ensures InitialPanel().activeTab == "general" && InitialPanel().switches == [true, false]
  {
  }

  /** Opening the notification panel shows three switches with only the first, push, on. */
  lemma NotificationPanelOpensPushOnly(p: Panel)
    requires p.activeTab != "notifications"
    ensures var q := SelectTabStep(p, "notifications");
      |q.switches| == 3 && forall i :: 0 <= i < 3 ==> (q.switches[i] <==> i == 0)
  {
  }

  /** Leaving a panel and coming back resets its switches, whatever was clicked before. */
  lemma LeavingResetsSwitches(p: Panel, other: string)
    requires other != p.activeTab
    ensures SelectTabStep(SelectTabStep(p, other), p.activeTab) == Panel(p.activeTab, PanelSwitchDefaults(p.activeTab))
  {
  }

  /** Clicking the active tab keeps the panel and its switches. */
  lemma ReselectKeepsSwitches(p: Panel)
    ensures SelectTabStep(p, p.activeTab) == p
  {
  }

  /** `n` clicks on one switch leave it at `Clicks` of where it was, and the others alone. */
  lemma {:induction false} RepeatedSwitchClicks(p: Panel, i: nat, n: nat)
    requires i < |p.switches|
    ensures var q := PanelRun(p, seq(n, _ => SwitchClick(i)));
      && q.activeTab == p.activeTab && |q.switches| == |p.switches|
      && q.switches[i] == Clicks(p.switches[i], n)
      && forall j :: 0 <= j < |p.switches| && j != i ==> q.switches[j] == p.switches[j]
    decreases n
  {
    if n > 0 {
      var es := seq(n, _ => SwitchClick(i));
      assert es[0] == SwitchClick(i);
      assert es[1..] == seq(n - 1, _ => SwitchClick(i));
      RepeatedSwitchClicks(SwitchStep(p, i), i, n - 1);
    }
  }

  /** The page: the tab bar with its panel, and the save cycle. */
  class SettingsPage {
    var activeTab: string
    var switches: seq<bool>
    var saveStatus: SaveStatus
    var savedTimers: nat
    var idleTimers: nat

    function Save(): SaveState
      reads this
    {
      SaveState(saveStatus, savedTimers, idleTimers)
    }

    function CurrentPanel(): Panel
      reads this
    {
      Panel(activeTab, switches)
    }

    constructor ()
      ensures CurrentPanel() == InitialPanel() && Save() == InitialSave()
    {
      activeTab := InitialTab;
      switches := PanelSwitchDefaults(InitialTab);
      saveStatus := Idle;
      savedTimers, idleTimers := 0, 0;
    }

    /** `handleSave`: the button is never disabled, so this runs in any status. */
    method HandleSave()
      modifies this
      ensures Save() == SaveStep(old(Save()), SaveClick) && CurrentPanel() == old(CurrentPanel())
    {
      saveStatus := Saving;
      savedTimers := savedTimers + 1;
    }

    method SavedTimerDone()
      modifies this
      ensures Save() == SaveStep(old(Save()), SavedTimerFired) && CurrentPanel() == old(CurrentPanel())
    {
      if savedTimers > 0 {
        saveStatus := Saved;
        savedTimers := savedTimers - 1;
        idleTimers := idleTimers + 1;
      }
    }

    method IdleTimerDone()
      modifies this
      ensures Save() == SaveStep(old(Save()), IdleTimerFired) && CurrentPanel() == old(CurrentPanel())
    {
      if idleTimers > 0 {
        saveStatus := Idle;
        idleTimers := idleTimers - 1;
      }
    }

    /** A click on tab `i` of the bar. */
    method SelectTab(i: nat)
      requires i < |TabIds|
      modifies this
      ensures CurrentPanel() == SelectTabStep(old(CurrentPanel()), TabIds[i]) && Save() == old(Save())
    {
      if TabIds[i] != activeTab {
        activeTab := TabIds[i];
        switches := PanelSwitchDefaults(activeTab);
      }
    }

    /** A click on switch `i` of the panel shown (a `ToggleSwitch` negating its `checked`). */
    method ClickSwitch(i: nat)
      requires i < |switches|
      modifies this
      ensures CurrentPanel() == SwitchStep(old(CurrentPanel()), i) && Save() == old(Save())
    {
      switches := switches[i := !switches[i]];
    }
  }
}
