// Pyrotechnic and GPIO actuation, battery and sensor checks (src/hardware_control.cpp).

module HardwareControl {
  import opened SequencerTypes

  /** The five pyrotechnic output channels. */
  datatype Channel = Booster | NoseFairing | StageSeparation | PayloadDeploy | Parachute

  const Channels: set<Channel> := {Booster, NoseFairing, StageSeparation, PayloadDeploy, Parachute}

  lemma ChannelsComplete(ch: Channel)
    ensures ch in Channels
  {
  }

  /** Arduino pin driving each channel (A0 is pin 14 on the Nano). */
  function PinOf(ch: Channel): nat {
    match ch
    case Booster => 2
    case NoseFairing => 4
    case StageSeparation => 5
    case PayloadDeploy => 7
    case Parachute => 14
  }

  const PayloadPowerPin: nat := 17  // A3

  /** No two channels share a pin, and none is the payload power pin. */
  lemma PinsDistinct(a: Channel, b: Channel)
    ensures PinOf(a) == PinOf(b) ==> a == b
    ensures PinOf(a) != PayloadPowerPin
  {
  }

  /** An actuation call as seen by the hardware: a pulse on one channel,
      safing every channel, or switching payload power. */
  datatype Action = Fire(ch: Channel) | SafeAll | PayloadPower(on: bool)

  /** Output levels of the five pyro pins (true = HIGH). */
  type PinMap = map<Channel, bool>

  function AllLow(): (m: PinMap)
    ensures m.Keys == Channels
    ensures forall ch :: ch in m ==> !m[ch]
  {
    map ch | ch in Channels :: false
  }

  /** The pin levels after one action (a pulse ends LOW). */
  function Effect(pyro: PinMap, a: Action): PinMap {
    match a
    case Fire(ch) => pyro[ch := false]
    case SafeAll => AllLow()
    case PayloadPower(_) => pyro
  }

  function ApplyPins(pyro: PinMap, actions: seq<Action>): PinMap
    decreases |actions|
  {
    if actions == [] then pyro else ApplyPins(Effect(pyro, actions[0]), actions[1..])
  }

  /** The payload power level after a sequence of actions. */
  function ApplyPower(power: bool, actions: seq<Action>): bool
    decreases |actions|
  {
    if actions == [] then power
    else ApplyPower(if actions[0].PayloadPower? then actions[0].on else power, actions[1..])
  }

  /** A pin map where every channel is present and LOW. */
  predicate Safe(pyro: PinMap) {
    pyro.Keys == Channels && forall ch :: ch in pyro ==> !pyro[ch]
  }

  /** Once every pin is LOW, any sequence of fire, safe-all and power calls leaves them LOW:
      a pulse never outlives the call that issued it. */
  lemma {:induction false} ActionsKeepSafe(pyro: PinMap, actions: seq<Action>)
    requires Safe(pyro)
    ensures Safe(ApplyPins(pyro, actions))
    decreases |actions|
  {
    if actions != [] {
      var next := Effect(pyro, actions[0]);
      assert Safe(next) by {
        if actions[0].Fire? {
          assert next == pyro[actions[0].ch := false];
          assert next.Keys == pyro.Keys + {actions[0].ch};
          ChannelsComplete(actions[0].ch);
        }
      }
      ActionsKeepSafe(next, actions[1..]);
    }
  }

  /** Applying safe-all twice gives the same pin state as applying it once. */
  lemma SafeAllIdempotent(pyro: PinMap)
    ensures ApplyPins(pyro, [SafeAll, SafeAll]) == ApplyPins(pyro, [SafeAll]) == AllLow()
  {
    assert [SafeAll, SafeAll][1..] == [SafeAll];
  }

  /** The GPIO outputs the actuation functions drive, and a ghost log of every call. */
  class Board {
    var pyro: PinMap
    var payloadPower: bool
    /** Pin levels during the most recent 100 ms pulse. */
    ghost var pulse: PinMap
    ghost var log: seq<Action>

    ghost predicate Valid()
      reads this
    {
      pyro.Keys == Channels
    }

    /** initHardware: safe all pyro channels, then power the payload. */
    constructor InitHardware()
      ensures Valid() && Safe(pyro) && payloadPower
      ensures log == [SafeAll, PayloadPower(true)]
    {
      pyro := AllLow();
      payloadPower := false;
      pulse := AllLow();
      log := [];
      new;
      SafeAllPyrotechnics();
      EnablePayloadPower();
    }

    /** safeAllPyrotechnics: drive all five pyro pins LOW, touch nothing else. */
    method SafeAllPyrotechnics()
      modifies this
      ensures Valid()
      ensures pyro == AllLow() && payloadPower == old(payloadPower) && pulse == old(pulse)
      ensures log == old(log) + [SafeAll]
    {
      pyro := map[Booster := false, NoseFairing := false, StageSeparation := false,
                  PayloadDeploy := false, Parachute := false];
      assert pyro == AllLow();
      log := log + [SafeAll];
    }

    /** igniteBooster, popNoseFairing, separateStage, deployPayload and deployParachute:
        raise the channel's own pin for 100 ms, then drive it LOW again. */
    method FireChannel(ch: Channel)
      requires Valid()
      modifies this
      ensures Valid()
      ensures pulse == old(pyro)[ch := true]
      ensures pyro == old(pyro)[ch := false] && payloadPower == old(payloadPower)
      ensures log == old(log) + [Fire(ch)]
    {
      ChannelsComplete(ch);
      pyro := pyro[ch := true];
      pulse := pyro;
      pyro := pyro[ch := false];
      log := log + [Fire(ch)];
    }

    method EnablePayloadPower()
      modifies this
      ensures payloadPower && pyro == old(pyro) && pulse == old(pulse)
      ensures log == old(log) + [PayloadPower(true)]
    {
      payloadPower := true;
      log := log + [PayloadPower(true)];
    }

    method DisablePayloadPower()
      modifies this
      ensures !payloadPower && pyro == old(pyro) && pulse == old(pulse)
      ensures log == old(log) + [PayloadPower(false)]
    {
      payloadPower := false;
      log := log + [PayloadPower(false)];
    }
  }

  /** The battery voltage for a raw 10-bit ADC reading against a 5 V reference. */
  function BatteryVoltage(reading: int): real {
    (reading as real / 1023.0) * 5.0
  }

  /** checkBatteryStatus's verdict: more than 3.3 V. */
  predicate BatteryOk(reading: int) {
    BatteryVoltage(reading) > 3.3
  }

  /** The 3.3 V threshold falls between raw readings 675 and 676. */
  lemma BatteryThreshold(reading: int)
    ensures BatteryOk(reading) <==> reading >= 676
  {
    var v := reading as real;
    assert BatteryVoltage(reading) == v * 5.0 / 1023.0;
    if reading >= 676 {
      assert v * 5.0 >= 3380.0;
    } else {
      assert v <= 675.0;
      assert v * 5.0 <= 3375.0;
    }
  }

  /** The temperature reading that signals a failed sensor. */
  const TemperatureFailure: real := -999.0

  /** checkBatteryStatus: store whether the battery is above 3.3 V. */
  method CheckBatteryStatus(data: TelemetryData, reading: int)
    modifies data
    ensures data.Snapshot() == old(data.Snapshot()).(batteryOK := BatteryOk(reading))
  {
    var voltage := (reading as real / 1023.0) * 5.0;
    data.batteryOK := voltage > 3.3;
  }

  /** checkSensorStatus: sensors are OK unless the temperature reads the failure sentinel;
      the GPS satellite count only produces a warning. */
  method CheckSensorStatus(data: TelemetryData, temperature: real)
    returns (ok: bool)
    modifies data
    ensures ok == data.sensorsOK
    ensures ok <==> temperature != TemperatureFailure
    ensures data.batteryOK == old(data.batteryOK) && data.payloadOK == old(data.payloadOK)
  {
    data.sensorsOK := true;
    if temperature == TemperatureFailure {
      data.sensorsOK := false;
    }
    ok := data.sensorsOK;
  }
}
