/**
 * Event sequences run against the control panel, each stating what the user
 * and the device end up seeing. They rely only on the contracts of `App`.
 */
module Scenarios {
  import opened Wrappers
  import opened JsStrings
  import opened Api
  import opened ControlPanel

  /**
   * Pressing Set Alarm and letting the device answer: NaN in either buffer
   * raises an alert and sends nothing; otherwise the parsed request goes out
   * exactly when the request schema accepts it (an hour such as 25 passes the
   * gate but is never sent), and the banner shows exactly when it went out and
   * the device answered 2xx.
   */
  method SetAlarmAndSettle(app: App, t: Transport) returns (gate: Option<AlarmRequest>)
    requires app.Valid() && app.Interactive(SetAlarmButton)
    requires app.network == [] && !app.showSaveSuccess
    modifies app
    ensures app.Valid()
    ensures gate == AlarmGate(old(app.hour), old(app.minute))
    ensures gate.None? ==> app.network == [] && !app.showSaveSuccess && app.alerts == old(app.alerts) + 1
    ensures gate.Some? ==>
              app.network == (if AlarmRequestValid(gate.value) then [SetAlarmCall(gate.value)] else [])
              && (app.showSaveSuccess <==> AlarmRequestValid(gate.value) && Ok(t))
  {
    gate := AlarmGate(app.hour, app.minute);
    app.ClickSetAlarm();
    if gate.Some? {
      SettleSetAlarm(app, gate.value, t);
    }
  }

  /**
   * The device answers a pending set-alarm request that nothing was sent for
   * before: the request goes out exactly when the schema accepts it, and the
   * banner shows exactly when it went out and the device answered 2xx.
   */
  method SettleSetAlarm(app: App, a: AlarmRequest, t: Transport)
    requires app.Valid() && app.network == [] && !app.showSaveSuccess
    requires app.mutations.setAlarm == Started(SetAlarmCall(a))
    modifies app
    ensures app.Valid()
    ensures app.network == if AlarmRequestValid(a) then [SetAlarmCall(a)] else []
    ensures app.showSaveSuccess <==> AlarmRequestValid(a) && Ok(t)
  {
    app.MutationSettles(SetAlarmMutation, t);
  }

  /**
   * A poll that lands while the warm slider is being dragged leaves the dragged
   * value alone when the device's brightness did not change, and snaps the
   * slider to the device's value when it did.
   */
  method RefreshDuringDrag(initial: Status, dragged: int, polled: Status) returns (warm: int)
    requires StatusInRange(initial) && StatusInRange(polled)
    requires 0 <= dragged <= MaxBrightness
    ensures !BrightnessChanged(initial, polled) ==> warm == dragged
    ensures BrightnessChanged(initial, polled) ==> warm == polled.warmBrightness
  {
    var app := new App(initial);
    app.SlideWarm(dragged);
    app.PollSucceeded(polled);
    warm := app.warmBrightness;
  }

  /**
   * Releasing the warm slider sends the released value with the untouched cool
   * buffer; when the device refuses, the slider keeps the released value and the
   * brightness card shows the error.
   */
  method FailedCommitKeepsSlider(initial: Status, released: int, t: Transport)
    returns (sent: seq<Call>, warm: int, shown: Option<ApiError>)
    requires StatusInRange(initial)
    requires 0 <= released <= MaxBrightness
    requires !Ok(t)
    ensures sent == [SetBrightnessCall(BrightnessRequest(released, initial.coolBrightness))]
    ensures warm == released
    ensures shown.Some?
  {
    var app := new App(initial);
    app.SlideWarm(released);
    app.CommitWarm(released);
    app.MutationSettles(SetBrightnessMutation, t);
    sent, warm := app.network, app.warmBrightness;
    shown := BrightnessAreaError(app.mutations);
  }

  /** While "lights on" is pending, it is the only control that is disabled. */
  method LightsOnDisablesOnlyItself(initial: Status) returns (ms: Mutations)
    requires StatusInRange(initial)
    ensures forall c :: Disabled(c, ms) <==> c == LightsOnButton
  {
    var app := new App(initial);
    app.ClickLightsOn();
    ms := app.mutations;
  }
}
