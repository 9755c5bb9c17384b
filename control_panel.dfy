/**
 * The control panel's state machine: the status mirror kept by the status
 * query, the edit buffers of the alarm form and the brightness sliders, the
 * "alarm saved" banner, and one mutation slot per write endpoint. All events
 * (poll results, user input, mutation completions, the banner timer) run one
 * at a time on the page's event loop, so each is one method of `App`.
 */
module ControlPanel {
  import opened Wrappers
  import opened JsStrings
  import opened Api

  // ---------------------------------------------------------------------------
  // Mutations

  /** The five `useMutation` hooks of the page. */
  datatype MutationKind =
    | SetAlarmMutation
    | TurnOnMutation
    | TurnOffMutation
    | SetBrightnessMutation
    | ToggleAlarmMutation

  /** The hook whose mutation function performs the call; None for the reads. */
  function KindOf(c: Call): Option<MutationKind>
  {
    match c
    case GetStatusCall => None
    case GetAlarmCall => None
    case SetAlarmCall(_) => Some(SetAlarmMutation)
    case ManualOnCall => Some(TurnOnMutation)
    case ManualOffCall => Some(TurnOffMutation)
    case SetBrightnessCall(_) => Some(SetBrightnessMutation)
    case ToggleAlarmCall(_) => Some(ToggleAlarmMutation)
  }

  /** What a mutation hook exposes: pending or not, its last variables, its last error. */
  datatype MutationState = MutationState(isPending: bool, variables: Option<Call>, error: Option<ApiError>)

  const Idle := MutationState(false, None, None)

  /** `mutate(variables)`: pending, with the error of any earlier run cleared. */
  function Started(c: Call): MutationState
  {
    MutationState(true, Some(c), None)
  }

  /** The mutation function returned (failure None) or threw: no longer pending. */
  function Settled(m: MutationState, failure: Option<ApiError>): MutationState
  {
    m.(isPending := false, error := failure)
  }

  /**
   * A slot is consistent with its hook: a pending mutation has variables, the
   * variables are a call of that hook, and every hook but set-alarm only ever
   * holds calls that pass their request schema.
   */
  predicate SlotWellFormed(k: MutationKind, m: MutationState)
  {
    (m.isPending ==> m.variables.Some?)
    && (m.variables.Some? ==>
          KindOf(m.variables.value) == Some(k)
          && (k != SetAlarmMutation ==> RequestValid(m.variables.value)))
  }

  datatype Mutations = Mutations(
    setAlarm: MutationState,
    turnOn: MutationState,
    turnOff: MutationState,
    setBrightness: MutationState,
    toggleAlarm: MutationState)
  {
    function Get(k: MutationKind): MutationState
    {
      match k
      case SetAlarmMutation => setAlarm
      case TurnOnMutation => turnOn
      case TurnOffMutation => turnOff
      case SetBrightnessMutation => setBrightness
      case ToggleAlarmMutation => toggleAlarm
    }

    /** The same hooks with the slot of `k` replaced by `m`. */
    function Set(k: MutationKind, m: MutationState): (ms: Mutations)
      ensures ms.Get(k) == m
      ensures forall j :: j != k ==> ms.Get(j) == Get(j)
    {
      match k
      case SetAlarmMutation => this.(setAlarm := m)
      case TurnOnMutation => this.(turnOn := m)
      case TurnOffMutation => this.(turnOff := m)
      case SetBrightnessMutation => this.(setBrightness := m)
      case ToggleAlarmMutation => this.(toggleAlarm := m)
    }

    predicate WellFormed()
    {
      SlotWellFormed(SetAlarmMutation, setAlarm)
      && SlotWellFormed(TurnOnMutation, turnOn)
      && SlotWellFormed(TurnOffMutation, turnOff)
      && SlotWellFormed(SetBrightnessMutation, setBrightness)
      && SlotWellFormed(ToggleAlarmMutation, toggleAlarm)
    }
  }

  const AllIdle := Mutations(Idle, Idle, Idle, Idle, Idle)

  /** Replacing one slot by a consistent one keeps every slot consistent. */
  lemma SetKeepsWellFormed(ms: Mutations, k: MutationKind, m: MutationState)
    requires ms.WellFormed() && SlotWellFormed(k, m)
    ensures ms.Set(k, m).WellFormed()
  {
  }

  // ---------------------------------------------------------------------------
  // Controls, presets and what the page shows

  /** The nine brightness preset buttons. */
  datatype Preset =
    | OffPreset | WarmPreset | NeutralPreset | CoolPreset
    | MorningPreset | DayPreset | EveningPreset | NightPreset | BedtimePreset

  /** The fixed `{warm, cool}` pair each preset button sends; every pair is in range. */
  function PresetBrightness(p: Preset): (b: BrightnessRequest)
    ensures BrightnessRequestValid(b)
  {
    match p
    case OffPreset => BrightnessRequest(0, 0)
    case WarmPreset => BrightnessRequest(1023, 0)
    case NeutralPreset => BrightnessRequest(820, 820)
    case CoolPreset => BrightnessRequest(0, 1023)
    case MorningPreset => BrightnessRequest(1023, 410)
    case DayPreset => BrightnessRequest(615, 1023)
    case EveningPreset => BrightnessRequest(820, 205)
    case NightPreset => BrightnessRequest(205, 0)
    case BedtimePreset => BrightnessRequest(500, 0)
  }

  /** The interactive controls of the panel. */
  datatype Control =
    | AlarmSwitch
    | HourInput
    | MinuteInput
    | SetAlarmButton
    | PresetButton(preset: Preset)
    | WarmSlider
    | CoolSlider
    | LightsOnButton
    | LightsOffButton

  /** The mutation whose pending flag is the control's `disabled` prop, if any. */
  function Owner(c: Control): Option<MutationKind>
  {
    match c
    case AlarmSwitch => Some(ToggleAlarmMutation)
    case SetAlarmButton => Some(SetAlarmMutation)
    case PresetButton(_) => Some(SetBrightnessMutation)
    case LightsOnButton => Some(TurnOnMutation)
    case LightsOffButton => Some(TurnOffMutation)
    case _ => None
  }

  /** The control's `disabled` prop. */
  predicate Disabled(c: Control, ms: Mutations)
  {
    Owner(c).Some? && ms.Get(Owner(c).value).isPending
  }

  /**
   * Disabling is independent: changing one hook's slot changes the disabled
   * state only of the controls that hook owns.
   */
  lemma DisablingIsIndependent(c: Control, ms: Mutations, k: MutationKind, m: MutationState)
    requires Disabled(c, ms.Set(k, m)) != Disabled(c, ms)
    ensures Owner(c) == Some(k)
  {
  }

  /** The text fields and sliders are never disabled; the presets share the brightness flag. */
  lemma DisabledFlags(ms: Mutations, p: Preset)
    ensures !Disabled(HourInput, ms) && !Disabled(MinuteInput, ms)
    ensures !Disabled(WarmSlider, ms) && !Disabled(CoolSlider, ms)
    ensures Disabled(PresetButton(p), ms) <==> ms.setBrightness.isPending
    ensures Disabled(AlarmSwitch, ms) <==> ms.toggleAlarm.isPending
    ensures Disabled(SetAlarmButton, ms) <==> ms.setAlarm.isPending
    ensures Disabled(LightsOnButton, ms) <==> ms.turnOn.isPending
    ensures Disabled(LightsOffButton, ms) <==> ms.turnOff.isPending
  {
  }

  /**
   * The error line of the brightness card: the first error among the
   * brightness, lights-on and lights-off hooks, in that order.
   */
  function BrightnessAreaError(ms: Mutations): (e: Option<ApiError>)
    ensures e.None? <==> forall i :: 0 <= i < |AreaErrors(ms)| ==> AreaErrors(ms)[i].None?
    ensures e.Some? ==>
              exists i :: 0 <= i < |AreaErrors(ms)| && AreaErrors(ms)[i] == e
                          && forall j :: 0 <= j < i ==> AreaErrors(ms)[j].None?
  {
    var errs := AreaErrors(ms);
    if errs[0].Some? then errs[0]
    else if errs[1].Some? then errs[1]
    else errs[2]
  }

  /** The errors the brightness card looks at, in the order it looks at them. */
  function AreaErrors(ms: Mutations): seq<Option<ApiError>>
  {
    [ms.setBrightness.error, ms.turnOn.error, ms.turnOff.error]
  }

  // ---------------------------------------------------------------------------
  // Alarm form text

  /** The hour buffer's first value: the text before the first ':', zero-padded to two characters. */
  function SeedHour(alarmTime: string): (h: string)
    ensures |h| >= 2
  {
    PadStart(Split(alarmTime, ':')[0], 2, '0')
  }

  /** The minute buffer's first value: the second ':'-field, unpadded; `undefined` if there is none. */
  function SeedMinute(alarmTime: string): Option<string>
  {
    FieldAt(Split(alarmTime, ':'), 1)
  }

  /** `String(v)`, which is what parseInt reads: `undefined` becomes the text "undefined". */
  function JsText(v: Option<string>): string
  {
    if v.Some? then v.value else "undefined"
  }

  /** The two-digit form the device uses in "HH:MM". */
  function TwoDigits(n: nat): (r: string)
    ensures |r| >= 2 && ':' !in r
  {
    var r := PadStart(Decimal(n), 2, '0');
    assert forall i :: 0 <= i < |r| ==> IsDigit(r[i]) by {
      forall i | 0 <= i < |r|
        ensures IsDigit(r[i])
      {
        if i < |r| - |Decimal(n)| {
          assert r[i] == r[..|r| - |Decimal(n)|][i];
        } else {
          assert r[i] == r[|r| - |Decimal(n)|..][i - (|r| - |Decimal(n)|)];
        }
      }
    }
    r
  }

  /** The device's two-digit text reads back, through parseInt, as the number it was made from. */
  lemma TwoDigitsReadBack(n: nat)
    ensures ParseInt(TwoDigits(n)) == Some(n)
  {
    ParseIntOfPadded(Decimal(n), 2);
    ParseIntOfDecimal(n);
  }

  /** Whatever follows the first ':', the hour buffer is the text before it, zero-padded. */
  lemma SeedHourOfFirstField(a: string, b: string)
    requires ':' !in a
    ensures SeedHour(a + ":" + b) == PadStart(a, 2, '0')
  {
    assert a + ":" + b == a + (":" + b);
    SplitPrefix(a, ':', ":" + b);
    assert (":" + b)[0] == ':';
  }

  /** An alarm time in the device's "HH:MM" form seeds the buffers with its two fields. */
  lemma SeedsOfAlarmTime(h: nat, m: nat)
    ensures SeedHour(TwoDigits(h) + ":" + TwoDigits(m)) == TwoDigits(h)
    ensures SeedMinute(TwoDigits(h) + ":" + TwoDigits(m)) == Some(TwoDigits(m))
  {
    var hh, mm := TwoDigits(h), TwoDigits(m);
    assert Join([hh, mm], ':') == hh + ":" + mm;
    SplitJoin([hh, mm], ':');
    assert Split(hh + ":" + mm, ':') == [hh, mm];
  }

  /**
   * For an alarm time in the device's "HH:MM" form, the seeded buffers read
   * back, through the Set Alarm gate, as the alarm's hour and minute.
   */
  lemma SeededAlarmReadsBack(h: nat, m: nat)
    ensures AlarmGate(SeedHour(TwoDigits(h) + ":" + TwoDigits(m)), SeedMinute(TwoDigits(h) + ":" + TwoDigits(m)))
            == Some(AlarmRequest(h, m))
  {
    SeedsOfAlarmTime(h, m);
    TwoDigitsReadBack(h);
    TwoDigitsReadBack(m);
  }

  /** Digits typed into an alarm field are padded and read back by the gate as their value. */
  lemma TypedDigitsReadBack(ds: string)
    requires ds != [] && AllDigits(ds)
    ensures ParseInt(PadStart(ds, 2, '0')) == Some(DigitsValue(ds))
  {
    ParseIntOfPadded(ds, 2);
    ParseIntOfDigits(ds);
  }

  /** An emptied alarm field is stored as "00", which the gate reads as 0 rather than NaN. */
  lemma EmptiedFieldReadsAsZero()
    ensures PadStart("", 2, '0') == "00"
    ensures ParseInt(PadStart("", 2, '0')) == Some(0)
  {
    assert PadStart("", 2, '0') == Repeat('0', 2) == "00";
    ParseIntOfDigits("00");
    assert "00"[..1] == "0";
  }

  /**
   * The Set Alarm gate: the request built from the two buffers, or None when
   * parseInt reads NaN from either. There is no range check here.
   */
  function AlarmGate(hour: string, minute: Option<string>): Option<AlarmRequest>
  {
    var h := ParseInt(hour);
    var m := ParseInt(JsText(minute));
    if h.None? || m.None? then None else Some(AlarmRequest(h.value, m.value))
  }

  /**
   * The gate lets a request through exactly when both buffers start, after
   * white space, with an optionally signed digit; a missing minute is the text
   * "undefined" and never does.
   */
  lemma AlarmGateAcceptsNumbers(hour: string, minute: Option<string>)
    ensures AlarmGate(hour, minute).Some? <==> StartsNumber(hour) && StartsNumber(JsText(minute))
    ensures minute.None? ==> AlarmGate(hour, minute).None?
  {
    ParseIntDefinedIff(hour);
    ParseIntDefinedIff(JsText(minute));
    ParseIntNaN();
  }

  /** Numbers typed without leading zeros pass the gate as exactly those numbers. */
  lemma TypedNumbersPassGate(h: nat, m: nat)
    ensures AlarmGate(PadStart(Decimal(h), 2, '0'), Some(PadStart(Decimal(m), 2, '0'))) == Some(AlarmRequest(h, m))
  {
    TypedDigitsReadBack(Decimal(h));
    TypedDigitsReadBack(Decimal(m));
    DigitsValueOfDecimal(h);
    DigitsValueOfDecimal(m);
  }

  /** Any hour the gate reads outside 0..23 gets through the gate, and the request schema then refuses it. */
  lemma OutOfRangeHourPassesGate(hour: string, minute: Option<string>)
    requires ParseInt(hour).Some? && !(0 <= ParseInt(hour).value <= 23)
    ensures AlarmGate(hour, minute).Some? <==> ParseInt(JsText(minute)).Some?
    ensures AlarmGate(hour, minute).Some? ==> !AlarmRequestValid(AlarmGate(hour, minute).value)
  {
  }

  /** "25" passes the gate whenever the minute parses (there is no range check), and the request schema then refuses it. */
  lemma HourTwentyFivePassesGate(minute: Option<string>)
    ensures AlarmGate("25", minute).Some? <==> ParseInt(JsText(minute)).Some?
    ensures AlarmGate("25", minute).Some? ==>
              AlarmGate("25", minute).value.hour == 25 && !AlarmRequestValid(AlarmGate("25", minute).value)
  {
    ParseIntOfDigits("25");
    assert "25"[..1] == "2";
  }

  // ---------------------------------------------------------------------------
  // The page

  /** Mirror brightness differs: the dependency list of the resync effect changed. */
  predicate BrightnessChanged(before: Status, after: Status)
  {
    before.warmBrightness != after.warmBrightness || before.coolBrightness != after.coolBrightness
  }

  /** What a call puts on the wire: the call itself, unless its request schema throws first. */
  function Wire(c: Call): seq<Call>
  {
    if RequestValid(c) then [c] else []
  }

  class App {
    /** The status query's data: the last status the device reported. */
    var mirror: Status
    /** The status query's error: when set, a connection-error view replaces the panel. */
    var queryError: bool
    /** The status query was invalidated by a successful mutation and awaits a refetch. */
    var statusInvalidated: bool
    /** Edit buffers. */
    var hour: string
    var minute: Option<string>
    var warmBrightness: int
    var coolBrightness: int
    /** The "Alarm saved successfully" banner. */
    var showSaveSuccess: bool
    var mutations: Mutations
    /** Every request the mutation functions put on the wire, in order. */
    var network: seq<Call>
    /** How many `alert`s and `console.error`s have been issued. */
    var alerts: nat
    var errorLogs: nat

    ghost predicate Valid()
      reads this
    {
      StatusInRange(mirror)
      && |hour| >= 2
      && 0 <= warmBrightness <= MaxBrightness && 0 <= coolBrightness <= MaxBrightness
      && mutations.WellFormed()
      && (forall i :: 0 <= i < |network| ==> RequestValid(network[i]))
    }

    /** The control is on screen (no connection error) and not disabled. */
    predicate Interactive(c: Control)
      reads this
    {
      !queryError && !Disabled(c, mutations)
    }

    /** The page mounts with the status the route loader fetched. */
    constructor (initial: Status)
      requires StatusInRange(initial)
      ensures Valid()
      ensures mirror == initial && !queryError && !statusInvalidated
      ensures hour == SeedHour(initial.alarmTime) && minute == SeedMinute(initial.alarmTime)
      ensures warmBrightness == initial.warmBrightness && coolBrightness == initial.coolBrightness
      ensures !showSaveSuccess && mutations == AllIdle
      ensures network == [] && alerts == 0 && errorLogs == 0
    {
      mirror := initial;
      queryError := false;
      statusInvalidated := false;
      hour := SeedHour(initial.alarmTime);
      minute := SeedMinute(initial.alarmTime);
      warmBrightness := initial.warmBrightness;
      coolBrightness := initial.coolBrightness;
      showSaveSuccess := false;
      mutations := AllIdle;
      network := [];
      alerts := 0;
      errorLogs := 0;
    }

    /**
     * A status poll returned a schema-valid status: the mirror is replaced whole
     * and the query error clears. The brightness buffers are overwritten from the
     * new mirror exactly when its brightness differs from the previous mirror's,
     * whatever the user is dragging; otherwise they are left alone.
     */
    method PollSucceeded(s: Status)
      requires Valid() && StatusInRange(s)
      modifies this`mirror, this`queryError, this`statusInvalidated, this`warmBrightness, this`coolBrightness
      ensures Valid()
      ensures mirror == s && !queryError && !statusInvalidated
      ensures BrightnessChanged(old(mirror), s) ==>
                warmBrightness == s.warmBrightness && coolBrightness == s.coolBrightness
      ensures !BrightnessChanged(old(mirror), s) ==>
                warmBrightness == old(warmBrightness) && coolBrightness == old(coolBrightness)
    {
      var before := mirror;
      mirror := s;
      queryError := false;
      statusInvalidated := false;
      if BrightnessChanged(before, s) {
        warmBrightness := s.warmBrightness;
        coolBrightness := s.coolBrightness;
      }
    }

    /** The status query gave up: the error view replaces the panel; the mirror is kept. */
    method QueryFailed()
      requires Valid()
      modifies this`queryError
      ensures Valid() && queryError
    {
      queryError := true;
    }

    /** Typing in the hour field stores the text zero-padded to two characters; nothing is sent. */
    method TypeHour(text: string)
      requires Valid() && Interactive(HourInput)
      modifies this`hour
      ensures Valid()
      ensures hour == PadStart(text, 2, '0')
    {
      hour := PadStart(text, 2, '0');
    }

    /** Typing in the minute field stores the text zero-padded to two characters; nothing is sent. */
    method TypeMinute(text: string)
      requires Valid() && Interactive(MinuteInput)
      modifies this`minute
      ensures Valid()
      ensures minute == Some(PadStart(text, 2, '0'))
    {
      minute := Some(PadStart(text, 2, '0'));
    }

    /**
     * "Set Alarm": if either buffer is NaN to parseInt, an alert is shown and no
     * mutation starts; otherwise the set-alarm mutation starts with the two
     * parsed integers, with no range check at this point.
     */
    method ClickSetAlarm()
      requires Valid() && Interactive(SetAlarmButton)
      modifies this`mutations, this`alerts
      ensures Valid()
      ensures AlarmGate(hour, minute).None? ==> alerts == old(alerts) + 1 && mutations == old(mutations)
      ensures AlarmGate(hour, minute).Some? ==>
                alerts == old(alerts)
                && mutations == old(mutations).Set(SetAlarmMutation,
                     Started(SetAlarmCall(AlarmGate(hour, minute).value)))
    {
      var alarm := AlarmGate(hour, minute);
      if alarm.None? {
        alerts := alerts + 1;
        return;
      }
      Mutate(SetAlarmMutation, SetAlarmCall(alarm.value));
    }

    /** Dragging the warm slider moves only the warm buffer; nothing is sent. */
    method SlideWarm(value: int)
      requires Valid() && Interactive(WarmSlider)
      requires 0 <= value <= MaxBrightness
      modifies this`warmBrightness
      ensures Valid() && warmBrightness == value
    {
      warmBrightness := value;
    }

    /** Dragging the cool slider moves only the cool buffer; nothing is sent. */
    method SlideCool(value: int)
      requires Valid() && Interactive(CoolSlider)
      requires 0 <= value <= MaxBrightness
      modifies this`coolBrightness
      ensures Valid() && coolBrightness == value
    {
      coolBrightness := value;
    }

    /** Releasing the warm slider sends the committed warm value with the current cool buffer. */
    method CommitWarm(value: int)
      requires Valid() && Interactive(WarmSlider)
      requires 0 <= value <= MaxBrightness
      modifies this`mutations
      ensures Valid()
      ensures mutations == old(mutations).Set(SetBrightnessMutation,
                Started(SetBrightnessCall(BrightnessRequest(value, coolBrightness))))
    {
      Mutate(SetBrightnessMutation, SetBrightnessCall(BrightnessRequest(value, coolBrightness)));
    }

    /** Releasing the cool slider sends the current warm buffer with the committed cool value. */
    method CommitCool(value: int)
      requires Valid() && Interactive(CoolSlider)
      requires 0 <= value <= MaxBrightness
      modifies this`mutations
      ensures Valid()
      ensures mutations == old(mutations).Set(SetBrightnessMutation,
                Started(SetBrightnessCall(BrightnessRequest(warmBrightness, value))))
    {
      Mutate(SetBrightnessMutation, SetBrightnessCall(BrightnessRequest(warmBrightness, value)));
    }

    /** A preset button sends its fixed pair. */
    method ClickPreset(p: Preset)
      requires Valid() && Interactive(PresetButton(p))
      modifies this`mutations
      ensures Valid()
      ensures mutations == old(mutations).Set(SetBrightnessMutation, Started(SetBrightnessCall(PresetBrightness(p))))
    {
      Mutate(SetBrightnessMutation, SetBrightnessCall(PresetBrightness(p)));
    }

    /** The alarm switch asks for the opposite of what the mirror shows. */
    method FlipAlarmSwitch()
      requires Valid() && Interactive(AlarmSwitch)
      modifies this`mutations
      ensures Valid()
      ensures mutations == old(mutations).Set(ToggleAlarmMutation, Started(ToggleAlarmCall(!mirror.isAlarmSet)))
    {
      Mutate(ToggleAlarmMutation, ToggleAlarmCall(!mirror.isAlarmSet));
    }

    method ClickLightsOn()
      requires Valid() && Interactive(LightsOnButton)
      modifies this`mutations
      ensures Valid()
      ensures mutations == old(mutations).Set(TurnOnMutation, Started(ManualOnCall))
    {
      Mutate(TurnOnMutation, ManualOnCall);
    }

    method ClickLightsOff()
      requires Valid() && Interactive(LightsOffButton)
      modifies this`mutations
      ensures Valid()
      ensures mutations == old(mutations).Set(TurnOffMutation, Started(ManualOffCall))
    {
      Mutate(TurnOffMutation, ManualOffCall);
    }

    /** The call the pending mutation of hook `k` is running. */
    function PendingCall(k: MutationKind): Call
      reads this
      requires mutations.Get(k).variables.Some?
    {
      mutations.Get(k).variables.value
    }

    /** `mutate(call)` on hook `k`. */
    method Mutate(k: MutationKind, c: Call)
      requires Valid()
      requires KindOf(c) == Some(k) && (k != SetAlarmMutation ==> RequestValid(c))
      modifies this`mutations
      ensures Valid()
      ensures mutations == old(mutations).Set(k, Started(c))
    {
      SetKeepsWellFormed(mutations, k, Started(c));
      mutations := mutations.Set(k, Started(c));
    }

    /**
     * The pending mutation of hook `k` runs its endpoint against transport
     * outcome `t` and settles. The request goes on the wire only if it passes
     * its schema. On success the status query is invalidated and, for set-alarm,
     * the banner turns on; on failure only an error is logged. The edit buffers
     * and the mirror are never touched.
     */
    method MutationSettles(k: MutationKind, t: Transport)
      requires Valid() && mutations.Get(k).isPending
      modifies this`mutations, this`network, this`statusInvalidated, this`showSaveSuccess, this`errorLogs
      ensures Valid()
      ensures network == old(network) + Wire(old(PendingCall(k)))
      ensures mutations == old(mutations).Set(k, Settled(old(mutations.Get(k)), FirstFailure(old(PendingCall(k)), t)))
      ensures FirstFailure(old(PendingCall(k)), t).None? ==>
                statusInvalidated && errorLogs == old(errorLogs)
                && showSaveSuccess == (old(showSaveSuccess) || k == SetAlarmMutation)
      ensures FirstFailure(old(PendingCall(k)), t).Some? ==>
                statusInvalidated == old(statusInvalidated) && errorLogs == old(errorLogs) + 1
                && showSaveSuccess == old(showSaveSuccess)
    {
      var m := mutations.Get(k);
      var c := m.variables.value;
      var sent, failure := Perform(c, t);
      if sent.Some? {
        network := network + [sent.value];
      }
      SetKeepsWellFormed(mutations, k, Settled(m, failure));
      mutations := mutations.Set(k, Settled(m, failure));
      if failure.None? {
        statusInvalidated := true;
        if k == SetAlarmMutation {
          showSaveSuccess := true;
        }
      } else {
        errorLogs := errorLogs + 1;
      }
    }

    /** The banner's 3000 ms timer fires. */
    method BannerTimeout()
      requires Valid()
      modifies this`showSaveSuccess
      ensures Valid() && !showSaveSuccess
    {
      showSaveSuccess := false;
    }
  }
}
