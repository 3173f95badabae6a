/**
 * The government broadcast card: a send button that moves the card from idle
 * to sending, and a two-second timer that then marks it sent and notifies the
 * optional `onSend` callback. The timer's completion is an explicit event.
 */
module GovtAlert {

  datatype AlertStatus = Idle | Sending | Sent

  /** The card's status, whether the send timer is scheduled, and how many times `onSend` ran. */
  datatype AlertState = AlertState(status: AlertStatus, timerPending: bool, onSendCalls: nat)

  datatype AlertEvent = SendClick | TimerFired

  function InitialAlert(): AlertState { AlertState(Idle, false, 0) }

  /** The button is disabled in every status but idle. */
  predicate ButtonDisabled(status: AlertStatus) { status != Idle }

  /** The button's text per status. */
  function Label(status: AlertStatus): string
  {
    match status
    case Idle => "BROADCAST ALERT NOW"
    case Sending => "TRANSMITTING..."
    case Sent => "BROADCAST CONFIRMED"
  }

  /** Each status shows its own label. */
  lemma LabelsDistinct(a: AlertStatus, b: AlertStatus)
    requires a != b
    ensures Label(a) != Label(b)
  {
  }

  /**
   * One event. A click on the disabled button does nothing; a click while idle
   * starts sending and schedules the timer; the timer marks the card sent and
   * calls `onSend` if one was given.
   */
  function Step(s: AlertState, e: AlertEvent, hasOnSend: bool): (t: AlertState)
    ensures e == SendClick && s.status == Idle ==> t.status == Sending && t.timerPending
    ensures e == SendClick && s.status != Idle ==> t == s
    ensures t.onSendCalls != s.onSendCalls ==>
      e == TimerFired && s.timerPending && hasOnSend && t.status == Sent && t.onSendCalls == s.onSendCalls + 1
  {
    match e
    case SendClick =>
      if ButtonDisabled(s.status) then s else s.(status := Sending, timerPending := true)
    case TimerFired =>
      if !s.timerPending then s
      else s.(status := Sent, timerPending := false,
              onSendCalls := s.onSendCalls + if hasOnSend then 1 else 0)
  }

  function Run(s: AlertState, es: seq<AlertEvent>, hasOnSend: bool): AlertState
    decreases |es|
  {
    if es == [] then s else Run(Step(s, es[0], hasOnSend), es[1..], hasOnSend)
  }

  /** The states reachable from mounting: the timer is pending exactly while sending, and `onSend` has run only once sent. */
  ghost predicate Consistent(s: AlertState, hasOnSend: bool)
  {
    && (s.status == Idle ==> !s.timerPending && s.onSendCalls == 0)
    && (s.status == Sending ==> s.timerPending && s.onSendCalls == 0)
    && (s.status == Sent ==> !s.timerPending && s.onSendCalls == if hasOnSend then 1 else 0)
  }

  lemma {:induction false} RunKeepsConsistent(s: AlertState, es: seq<AlertEvent>, hasOnSend: bool)
    requires Consistent(s, hasOnSend)
    ensures Consistent(Run(s, es, hasOnSend), hasOnSend)
    decreases |es|
  {
    if es != [] {
      RunKeepsConsistent(Step(s, es[0], hasOnSend), es[1..], hasOnSend);
    }
  }

  /** Whatever happens after mounting, `onSend` runs at most once, only if given, and only once the card is sent. */
  lemma OnSendAtMostOnce(es: seq<AlertEvent>, hasOnSend: bool)
    ensures Run(InitialAlert(), es, hasOnSend).onSendCalls <= 1
    ensures Run(InitialAlert(), es, hasOnSend).onSendCalls == 1 ==>
      hasOnSend && Run(InitialAlert(), es, hasOnSend).status == Sent
  {
    RunKeepsConsistent(InitialAlert(), es, hasOnSend);
  }

  /** Sent is terminal: from a reachable sent card no events change anything. */
  lemma {:induction false} SentIsTerminal(s: AlertState, es: seq<AlertEvent>, hasOnSend: bool)
    requires Consistent(s, hasOnSend) && s.status == Sent
    ensures Run(s, es, hasOnSend) == s
    decreases |es|
  {
    if es != [] {
      SentIsTerminal(Step(s, es[0], hasOnSend), es[1..], hasOnSend);
    }
  }

  /** Click, then the timer: idle, sending, sent, with `onSend` called once if given. */
  lemma SendSequence(hasOnSend: bool)
    ensures Run(InitialAlert(), [SendClick], hasOnSend).status == Sending
    ensures Run(InitialAlert(), [SendClick, TimerFired], hasOnSend)
         == AlertState(Sent, false, if hasOnSend then 1 else 0)
  {
    assert [SendClick, TimerFired][1..] == [TimerFired];
  }

  /** The card component; `hasOnSend` says whether the parent passed `onSend`. */
  class GovtAlertCard {
    const hasOnSend: bool
    var status: AlertStatus
    var timerPending: bool
    var onSendCalls: nat

    function State(): AlertState
      reads this
    {
      AlertState(status, timerPending, onSendCalls)
    }

    constructor (hasOnSend: bool)
      ensures this.hasOnSend == hasOnSend && State() == InitialAlert()
    {
      this.hasOnSend := hasOnSend;
      status := Idle;
      timerPending := false;
      onSendCalls := 0;
    }

    /** A click on the button; `handleSend` runs only when it is enabled. */
    method Click()
      modifies this
      ensures State() == Step(old(State()), SendClick, hasOnSend)
    {
      if !ButtonDisabled(status) {
        status := Sending;
        timerPending := true;
      }
    }

    /** The two-second timeout completing. */
    method TimerDone()
      modifies this
      ensures State() == Step(old(State()), TimerFired, hasOnSend)
    {
      if timerPending {
        status := Sent;
        timerPending := false;
        if hasOnSend {
          onSendCalls := onSendCalls + 1;
        }
      }
    }
  }
}
