/** The application-wide alert: one record replaced by `showAlert`, partly
    overwritten by `hideAlert`, and the auto-hide timer it schedules. */
module Alerts {
  import opened Wrappers

  /** The `alertState` record. */
  datatype AlertState = AlertState(
    message: string,
    description: string,
    alertType: string,
    isVisible: bool,
    duration: int)

  /** The record before any alert. */
  const InitialAlert: AlertState := AlertState("", "", "info", false, 5000)

  /** The record `showAlert` stores; omitted arguments take their defaults. */
  function Shown(message: string, alertType: Option<string>, description: Option<string>, duration: Option<int>): AlertState
  {
    AlertState(
      message,
      if description.Some? then description.value else "",
      if alertType.Some? then alertType.value else "info",
      true,
      if duration.Some? then duration.value else 5000)
  }

  /** The record `hideAlert` leaves behind. */
  function Hidden(s: AlertState): AlertState
  {
    s.(isVisible := false, message := "")
  }

  /** An alert is shown with the given message and visible, whatever came
      before; an error alert with no other argument has an empty description
      and the 5000 ms default duration. */
  lemma ShowReplacesRecord(message: string, alertType: string)
    ensures Shown(message, Some(alertType), None, None) == AlertState(message, "", alertType, true, 5000)
    ensures Shown(message, None, None, None).alertType == "info"
  {
  }

  /** Hiding keeps the description, type and duration, and hiding twice is
      the same as hiding once. */
  lemma HideKeepsRestAndIsIdempotent(s: AlertState)
    ensures !Hidden(s).isVisible && Hidden(s).message == ""
    ensures Hidden(s).description == s.description && Hidden(s).alertType == s.alertType
    ensures Hidden(s).duration == s.duration
    ensures Hidden(Hidden(s)) == Hidden(s)
  {
  }

  /** The props of the rendered alert. */
  datatype AlertProps = AlertProps(message: string, description: string, alertType: string, duration: int)

  /** The alert rendered by the provider, always with duration 0 since the
      provider runs the timer itself. */
  function Rendered(s: AlertState): Option<AlertProps>
  {
    if s.isVisible then Some(AlertProps(s.message, s.description, s.alertType, 0)) else None
  }

  /** A pending auto-hide timer: its delay, and the number of the `showAlert`
      call after which the effect scheduled it. */
  datatype Timer = Timer(delay: int, scheduledAfterShow: nat)

  /** The auto-hide effect's dependencies besides `hideAlert`, which is the
      same callback on every render. */
  function TimerDeps(s: AlertState): (bool, int)
  {
    (s.isVisible, s.duration)
  }

  /** The pending timer after a render that moves the record from `prev` to
      `next`, `show` calls of `showAlert` having been made: with unchanged
      dependencies the effect does not re-run and the pending timer stays;
      otherwise its cleanup clears that timer and it schedules a new one for a
      visible alert with a positive duration. */
  function TimerAfter(prev: AlertState, next: AlertState, pending: Option<Timer>, show: nat): Option<Timer>
  {
    if TimerDeps(prev) == TimerDeps(next) then pending
    else if next.isVisible && next.duration > 0 then Some(Timer(next.duration, show))
    else None
  }

  /** Showing an alert whose visibility or duration differs from the record
      on screen renders it with duration 0 and starts a timer of its full
      duration, or none for a duration of 0 or less. */
  lemma FreshShowSchedulesTimer(prev: AlertState, pending: Option<Timer>, show: nat,
                                message: string, alertType: Option<string>, description: Option<string>, duration: Option<int>)
    requires TimerDeps(prev) != TimerDeps(Shown(message, alertType, description, duration))
    ensures var s := Shown(message, alertType, description, duration);
      && Rendered(s) == Some(AlertProps(message, s.description, s.alertType, 0))
      && TimerAfter(prev, s, pending, show) == if s.duration > 0 then Some(Timer(s.duration, show)) else None
  {
  }

  /** Showing an alert while another one with the same duration is visible
      re-runs no effect: the timer started for the earlier alert stays, and
      its firing hides the new one before its own duration has passed. */
  lemma SameDurationReshowKeepsTimer(prev: AlertState, pending: Option<Timer>, show: nat,
                                     message: string, alertType: Option<string>, description: Option<string>, duration: Option<int>)
    requires prev.isVisible && Shown(message, alertType, description, duration).duration == prev.duration
    ensures TimerAfter(prev, Shown(message, alertType, description, duration), pending, show) == pending
  {
  }

  /** Two alerts with the default duration in a row, starting from the
      initial record: the first starts a 5000 ms timer, and the second, shown
      while it is on screen, inherits that timer instead of getting its own. */
  lemma BackToBackAlertsShareOneTimer()
    ensures var a := Shown("A", None, None, None);
      var b := Shown("B", None, None, None);
      && TimerAfter(InitialAlert, a, None, 1) == Some(Timer(5000, 1))
      && TimerAfter(a, b, Some(Timer(5000, 1)), 2) == Some(Timer(5000, 1))
      && Rendered(b).Some? && Rendered(b).value.message == "B"
  {
  }

  /** Hiding a visible alert cancels its timer and removes it from the
      screen; the initial record shows nothing and schedules nothing. */
  lemma HideCancelsTimer(s: AlertState, pending: Option<Timer>, show: nat)
    requires s.isVisible
    ensures TimerAfter(s, Hidden(s), pending, show) == None && Rendered(Hidden(s)) == None
    ensures Rendered(InitialAlert) == None
  {
  }

  /** The alert provider's state: the record, the timer its effect has
      pending, and the number of `showAlert` calls so far. */
  class AlertProvider {
    var state: AlertState
    var pendingTimer: Option<Timer>
    var shows: nat

    /** A timer is pending exactly while a visible alert has a positive
        duration, and its delay is that duration. */
    ghost predicate Valid()
      reads this
    {
      && (pendingTimer.Some? <==> state.isVisible && state.duration > 0)
      && (pendingTimer.Some? ==> pendingTimer.value.delay == state.duration && pendingTimer.value.scheduledAfterShow <= shows)
    }

    /** The initial record; the effect's first run schedules nothing. */
    constructor ()
      ensures Valid()
      ensures state == InitialAlert && pendingTimer == None && shows == 0
    {
      state := InitialAlert;
      pendingTimer := None;
      shows := 0;
    }

    /** `showAlert(message, type, description, duration)`, followed by the
        auto-hide effect when its dependencies changed. */
    method ShowAlert(message: string, alertType: Option<string>, description: Option<string>, duration: Option<int>)
      requires Valid()
      modifies this
      ensures Valid()
      ensures state == Shown(message, alertType, description, duration)
      ensures state.isVisible && state.message == message
      ensures shows == old(shows) + 1
      ensures pendingTimer == TimerAfter(old(state), state, old(pendingTimer), shows)
    {
      var prev := state;
      state := AlertState(
        message,
        if description.Some? then description.value else "",
        if alertType.Some? then alertType.value else "info",
        true,
        if duration.Some? then duration.value else 5000);
      shows := shows + 1;
      if prev.isVisible != state.isVisible || prev.duration != state.duration {
        pendingTimer := if state.duration > 0 then Some(Timer(state.duration, shows)) else None;
      }
    }

    /** `hideAlert`, also what a pending timer calls when it fires: nothing is
        rendered and no timer is left pending. */
    method HideAlert()
      requires Valid()
      modifies this
      ensures Valid()
      ensures state == Hidden(old(state)) && shows == old(shows)
      ensures Rendered(state) == None && pendingTimer == None
    {
      state := state.(isVisible := false, message := "");
      pendingTimer := None;
    }
  }
}
