/** The polling hub: the subscriber list that switches polling on and off,
    the connection check before each read, the single 81-register read and
    its decoding into `data`, and the fan-out to subscribers after a
    successful read. The Modbus client, the host's interval timer and the
    subscriber callbacks are outside the model: what they return is passed
    in as a parameter, and every call made to them is recorded in `trace`. */
module ModbusHub {
  import opened RegisterCodec
  import opened Snapshot
  import opened DecoderSections
  import opened FieldValues
  import IngeteamConst

  /** What `read_input_registers` gives back: it raises, or returns an error
      response, or returns a response carrying registers. */
  datatype ReadResult = Raised | ErrorResponse | Registers(words: seq<Word>)

  /** A call from the hub to the client, the timer or a subscriber. */
  datatype Event<Cb> =
    | ClientConnect
    | ClientIsSocketOpen
    | ClientRead(unit: int, address: nat, count: nat)
    | ClientClose
    | TimerStart
    | TimerCancel
    | Notify(callback: Cb)

  /** The client's timeout for a scan interval: `max(3, scan_interval - 1)`. */
  function ClientTimeout(scanInterval: int): (t: int)
    ensures t >= 3 && t >= scanInterval - 1
    ensures t == 3 || t == scanInterval - 1
  {
    Max(3, scanInterval - 1)
  }

  /** A blocking call times out before the next tick is due exactly when the
      interval is longer than 3 seconds; with the default interval of 10 the
      timeout is 9. */
  lemma TimeoutBeforeNextTick(scanInterval: int)
    ensures ClientTimeout(scanInterval) < scanInterval <==> scanInterval > 3
    ensures ClientTimeout(IngeteamConst.DefaultScanInterval) == 9
  {
  }

  /** How many times `e` occurs in `trace`. */
  function Count<Cb(==)>(trace: seq<Event<Cb>>, e: Event<Cb>): nat
  {
    if trace == [] then 0
    else Count(trace[..|trace| - 1], e) + (if trace[|trace| - 1] == e then 1 else 0)
  }

  lemma {:induction false} CountAppend<Cb>(a: seq<Event<Cb>>, b: seq<Event<Cb>>, e: Event<Cb>)
    ensures Count(a + b, e) == Count(a, e) + Count(b, e)
    decreases |b|
  {
    if b != [] {
      var b' := b[..|b| - 1];
      assert (a + b)[..|a + b| - 1] == a + b';
      CountAppend(a, b', e);
    } else {
      assert a + b == a;
    }
  }

  /** One call of each subscriber, in list order. */
  function Notifications<Cb>(callbacks: seq<Cb>): (ns: seq<Event<Cb>>)
    ensures |ns| == |callbacks|
    ensures forall i :: 0 <= i < |callbacks| ==> ns[i] == Notify(callbacks[i])
  {
    if callbacks == [] then []
    else Notifications(callbacks[..|callbacks| - 1]) + [Notify(callbacks[|callbacks| - 1])]
  }

  /** A call that does not occur is counted zero times. */
  lemma {:induction false} CountAbsent<Cb>(trace: seq<Event<Cb>>, e: Event<Cb>)
    requires e !in trace
    ensures Count(trace, e) == 0
    decreases |trace|
  {
    if trace != [] {
      assert trace[..|trace| - 1] + [trace[|trace| - 1]] == trace;
      CountAbsent(trace[..|trace| - 1], e);
    }
  }

  /** Appending calls other than `e` leaves the count of `e` as it was. */
  lemma CountUnchanged<Cb>(trace: seq<Event<Cb>>, added: seq<Event<Cb>>, e: Event<Cb>)
    requires e !in added
    ensures Count(trace + added, e) == Count(trace, e)
  {
    CountAppend(trace, added, e);
    CountAbsent(added, e);
  }

  /** Notifying the subscribers neither starts nor cancels the timer, and
      opens or closes no connection. */
  lemma NotificationsTouchNothingElse<Cb>(callbacks: seq<Cb>, e: Event<Cb>)
    requires !e.Notify?
    ensures Count(Notifications(callbacks), e) == 0
  {
    CountAbsent(Notifications(callbacks), e);
  }

  /** The calls `_check_and_reconnect` makes: ask whether the socket is open,
      and connect when it is not. */
  function ReconnectTrace<Cb>(socketOpen: bool): (t: seq<Event<Cb>>)
    ensures |t| >= 1 && t[0] == ClientIsSocketOpen
    ensures ClientConnect in t <==> !socketOpen
    ensures ClientClose !in t && TimerStart !in t && TimerCancel !in t
  {
    if socketOpen then [ClientIsSocketOpen] else [ClientIsSocketOpen, ClientConnect]
  }

  /** The calls `_update_modbus_data` makes: the socket check comes first,
      the reconnect (when the socket is closed) second, and the read happens
      exactly when the client is connected; the timer is never touched and
      the client never closed. */
  function UpdateTrace<Cb>(unit: int, socketOpen: bool, connectResult: bool): (t: seq<Event<Cb>>)
    ensures |t| >= 1 && t[0] == ClientIsSocketOpen
    ensures !socketOpen ==> |t| >= 2 && t[1] == ClientConnect
    ensures ClientRead(unit, 0, IngeteamConst.RegisterCount) in t <==> socketOpen || connectResult
    ensures ClientClose !in t && TimerStart !in t && TimerCancel !in t
  {
    ReconnectTrace(socketOpen)
    + (if socketOpen || connectResult then [ClientRead(unit, 0, IngeteamConst.RegisterCount)] else [])
  }

  /** A response `read_modbus_data` accepts: no error, and all 81 registers. */
  predicate Complete(response: ReadResult)
    ensures response.Raised? || response.ErrorResponse? ==> !Complete(response)
  {
    response.Registers? && |response.words| >= IngeteamConst.RegisterCount
  }

  /** Whether `_update_modbus_data` returns True: an update that cannot
      reconnect, or whose read fails in any way, reports failure; one that
      succeeds has read a complete window. */
  predicate UpdateSucceeds(socketOpen: bool, connectResult: bool, response: ReadResult)
    ensures UpdateSucceeds(socketOpen, connectResult, response) ==> Complete(response)
    ensures !socketOpen && !connectResult ==> !UpdateSucceeds(socketOpen, connectResult, response)
    ensures response.Raised? || response.ErrorResponse? ==> !UpdateSucceeds(socketOpen, connectResult, response)
  {
    (socketOpen || connectResult) && Complete(response)
  }

  /** The position of the first `x` in `s`. */
  function IndexOf<T(==)>(s: seq<T>, x: T): (i: nat)
    requires x in s
    ensures i < |s| && s[i] == x && x !in s[..i]
  {
    if s[0] == x then 0 else 1 + IndexOf(s[1..], x)
  }

  /** `list.remove(x)`: the list without its first `x`. */
  function RemoveFirst<T(==)>(s: seq<T>, x: T): (r: seq<T>)
    requires x in s
    ensures r == s[..IndexOf(s, x)] + s[IndexOf(s, x) + 1..]
  {
    if s[0] == x then s[1..]
    else
      var i := IndexOf(s[1..], x);
      assert s[..i + 1] == [s[0]] + s[1..][..i];
      assert s[i + 2..] == s[1..][i + 1..];
      [s[0]] + RemoveFirst(s[1..], x)
  }

  /** Removing drops exactly one `x` and keeps every other element. */
  lemma RemoveFirstMultiset<T>(s: seq<T>, x: T)
    requires x in s
    ensures multiset(RemoveFirst(s, x)) == multiset(s) - multiset{x}
    ensures |RemoveFirst(s, x)| == |s| - 1
  {
    var i := IndexOf(s, x);
    var before, after := s[..i], s[i + 1..];
    assert s == before + [x] + after;
    assert multiset(s) == multiset(before) + multiset{x} + multiset(after);
    assert multiset(RemoveFirst(s, x)) == multiset(before) + multiset(after);
  }

  /** `IngeteamModbusHub`. `sensors` is `_sensors`; `timerActive` says that
      `_unsub_interval_method` holds the handle of a running interval timer;
      `data` is the snapshot the subscribers read. */
  class IngeteamModbusHub<Cb(==)> {
    const name: string
    const host: string
    const port: string
    const address: int
    const readMeter: bool
    const readBattery: bool
    const scanInterval: int
    const timeout: int

    var sensors: seq<Cb>
    var timerActive: bool
    var data: map<Key, Value>
    var trace: seq<Event<Cb>>

    /** Polling runs exactly while someone is subscribed, and every timer
        started has been cancelled except the running one. */
    ghost predicate Valid()
      reads this
    {
      && (timerActive <==> sensors != [])
      && Count(trace, TimerStart) == Count(trace, TimerCancel) + (if timerActive then 1 else 0)
    }

    constructor (name: string, host: string, port: string, address: int, scanInterval: int,
                 readMeter: bool, readBattery: bool)
      ensures Valid()
      ensures this.name == name && this.host == host && this.port == port
      ensures this.address == address && this.scanInterval == scanInterval
      ensures this.readMeter == readMeter && this.readBattery == readBattery
      ensures timeout == ClientTimeout(scanInterval)
      ensures sensors == [] && !timerActive && data == map[] && trace == []
    {
      this.name := name;
      this.host := host;
      this.port := port;
      this.address := address;
      this.scanInterval := scanInterval;
      this.readMeter := readMeter;
      this.readBattery := readBattery;
      timeout := ClientTimeout(scanInterval);
      sensors := [];
      timerActive := false;
      data := map[];
      trace := [];
    }

    /** `connect`: whatever the client's `connect` returns. */
    method Connect(connectResult: bool) returns (ok: bool)
      modifies this`trace
      ensures ok == connectResult
      ensures trace == old(trace) + [ClientConnect]
    {
      trace := trace + [ClientConnect];
      ok := connectResult;
    }

    /** `close`. */
    method Close()
      modifies this`trace
      ensures trace == old(trace) + [ClientClose]
    {
      trace := trace + [ClientClose];
    }

    /** `_check_and_reconnect`: true when the socket is open, otherwise the
        result of a fresh connect. */
    method CheckAndReconnect(socketOpen: bool, connectResult: bool) returns (ok: bool)
      modifies this`trace
      ensures ok == (socketOpen || connectResult)
      ensures trace == old(trace) + ReconnectTrace(socketOpen)
    {
      trace := trace + [ClientIsSocketOpen];
      if !socketOpen {
        ok := Connect(connectResult);
        return;
      }
      ok := true;
    }

    /** `read_input_registers`: one request to the client. */
    method ReadInput(unit: int, start: nat, count: nat, response: ReadResult) returns (r: ReadResult)
      modifies this`trace
      ensures r == response
      ensures trace == old(trace) + [ClientRead(unit, start, count)]
    {
      trace := trace + [ClientRead(unit, start, count)];
      r := response;
    }

    /** Inverter status and lifetime. */
    method WriteStatus(regs: seq<Word>)
      requires |regs| >= IngeteamConst.RegisterCount
      modifies this`data
      ensures data == StatusBlock(old(data), Decoded(regs))
    {
      ghost var d := Decoded(regs);
      TotalOperationTimeField(regs);
      StopCodeField(regs);
      AlarmCodeField(regs);
      StatusField(regs);
      WaitingTimeField(regs);
      assert d[TotalOperationTime] == Int(U32FromWordsLe(regs, 6));
      data := data[TotalOperationTime := Int(U32FromWordsLe(regs, 6))];
      assert d[StopCode] == Int(regs[9]);
      data := data[StopCode := Int(regs[9])];
      assert d[AlarmCode] == Int(U32FromWordsLe(regs, 10));
      data := data[AlarmCode := Int(U32FromWordsLe(regs, 10))];
      var statusCode := regs[15];
      assert d[Status] == Text(Label(IngeteamConst.InverterStatus, statusCode));
      data := data[Status := Text(Label(IngeteamConst.InverterStatus, statusCode))];
      assert d[WaitingTime] == Int(regs[16]);
      data := data[WaitingTime := Int(regs[16])];
    }

    /** Battery voltage, current and power. */
    method WriteBatteryFlow(regs: seq<Word>)
      requires |regs| >= IngeteamConst.RegisterCount
      modifies this`data
      ensures data == BatteryFlowBlock(old(data), Decoded(regs))
    {
      ghost var d := Decoded(regs);
      BatteryVoltageField(regs);
      BatteryCurrentField(regs);
      BatteryDischargingPowerField(regs);
      BatteryChargingPowerField(regs);
      assert d[BatteryVoltage] == Num(Scaled(regs[17], 10));
      data := data[BatteryVoltage := Num(Scaled(regs[17], 10))];
      assert d[BatteryCurrent] == Num(Scaled(DecodeSigned(regs[18]), 100));
      data := data[BatteryCurrent := Num(Scaled(DecodeSigned(regs[18]), 100))];
      var batteryPower := DecodeSigned(regs[19]);
      assert d[BatteryDischargingPower] == Int(Max(0, batteryPower));
      data := data[BatteryDischargingPower := Int(Max(0, batteryPower))];
      assert d[BatteryChargingPower] == Int(Max(0, -batteryPower));
      data := data[BatteryChargingPower := Int(Max(0, -batteryPower))];
    }

    /** Battery state of charge and health, charging and discharging voltages. */
    method WriteBatteryCharge(regs: seq<Word>)
      requires |regs| >= IngeteamConst.RegisterCount
      modifies this`data
      ensures data == BatteryChargeBlock(old(data), Decoded(regs))
    {
      ghost var d := Decoded(regs);
      BatteryStateOfChargeField(regs);
      BatteryStateOfHealthField(regs);
      BatteryChargingVoltageField(regs);
      BatteryDischargingVoltageField(regs);
      assert d[BatteryStateOfCharge] == Int(regs[20]);
      data := data[BatteryStateOfCharge := Int(regs[20])];
      assert d[BatteryStateOfHealth] == Int(regs[21]);
      data := data[BatteryStateOfHealth := Int(regs[21])];
      assert d[BatteryChargingVoltage] == Num(Scaled(regs[22], 10));
      data := data[BatteryChargingVoltage := Num(Scaled(regs[22], 10))];
      assert d[BatteryDischargingVoltage] == Num(Scaled(regs[23], 10));
      data := data[BatteryDischargingVoltage := Num(Scaled(regs[23], 10))];
    }

    /** Battery current limits, status, temperature and discharge limitation. */
    method WriteBatteryLimits(regs: seq<Word>)
      requires |regs| >= IngeteamConst.RegisterCount
      modifies this`data
      ensures data == BatteryLimitsBlock(old(data), Decoded(regs))
    {
      ghost var d := Decoded(regs);
      BatteryChargingCurrentMaxField(regs);
      BatteryDischargingCurrentMaxField(regs);
      BatteryStatusField(regs);
      BatteryTempField(regs);
      BatteryBmsAlarmField(regs);
      BatteryDischargeLimitationReasonField(regs);
      assert d[BatteryChargingCurrentMax] == Num(Scaled(regs[24], 100));
      data := data[BatteryChargingCurrentMax := Num(Scaled(regs[24], 100))];
      assert d[BatteryDischargingCurrentMax] == Num(Scaled(regs[25], 100));
      data := data[BatteryDischargingCurrentMax := Num(Scaled(regs[25], 100))];
      var battStatusCode := regs[26];
      assert d[BatteryStatus] == Text(Label(IngeteamConst.BatteryStatus, battStatusCode));
      data := data[BatteryStatus := Text(Label(IngeteamConst.BatteryStatus, battStatusCode))];
      assert d[BatteryTemp] == Num(Scaled(DecodeSigned(regs[27]), 10));
      data := data[BatteryTemp := Num(Scaled(DecodeSigned(regs[27]), 10))];
      assert d[BatteryBmsAlarm] == Int(regs[28]);
      data := data[BatteryBmsAlarm := Int(regs[28])];
      var battLimitCode := regs[29];
      assert d[BatteryDischargeLimitationReason] == Text(Label(IngeteamConst.BatteryLimitationReasons, battLimitCode));
      data := data[BatteryDischargeLimitationReason := Text(Label(IngeteamConst.BatteryLimitationReasons, battLimitCode))];
    }

    /** Battery management system registers. */
    method WriteBatteryBms(regs: seq<Word>)
      requires |regs| >= IngeteamConst.RegisterCount
      modifies this`data
      ensures data == BatteryBmsBlock(old(data), Decoded(regs))
    {
      ghost var d := Decoded(regs);
      BatteryVoltageInternalField(regs);
      BatteryBmsFlagsField(regs);
      BatteryBmsWarningsField(regs);
      BatteryBmsErrorsField(regs);
      BatteryBmsFaultsField(regs);
      BatteryChargeLimitationReasonField(regs);
      assert d[BatteryVoltageInternal] == Num(Scaled(regs[30], 10));
      data := data[BatteryVoltageInternal := Num(Scaled(regs[30], 10))];
      assert d[BatteryBmsFlags] == Int(regs[68]);
      data := data[BatteryBmsFlags := Int(regs[68])];
      assert d[BatteryBmsWarnings] == Int(regs[73]);
      data := data[BatteryBmsWarnings := Int(regs[73])];
      assert d[BatteryBmsErrors] == Int(regs[74]);
      data := data[BatteryBmsErrors := Int(regs[74])];
      assert d[BatteryBmsFaults] == Int(regs[75]);
      data := data[BatteryBmsFaults := Int(regs[75])];
      assert d[BatteryChargeLimitationReason] == Int(regs[77]);
      data := data[BatteryChargeLimitationReason := Int(regs[77])];
    }

    /** PV strings, external PV and EV charger. */
    method WritePvStrings(regs: seq<Word>)
      requires |regs| >= IngeteamConst.RegisterCount
      modifies this`data
      ensures data == PvStringsBlock(old(data), Decoded(regs))
    {
      ghost var d := Decoded(regs);
      Pv1VoltageField(regs);
      Pv1CurrentField(regs);
      Pv1PowerField(regs);
      Pv2VoltageField(regs);
      Pv2CurrentField(regs);
      Pv2PowerField(regs);
      ExternalPvPowerField(regs);
      EvPowerField(regs);
      assert d[Pv1Voltage] == Int(regs[31]);
      data := data[Pv1Voltage := Int(regs[31])];
      assert d[Pv1Current] == Num(Scaled(regs[32], 100));
      data := data[Pv1Current := Num(Scaled(regs[32], 100))];
      assert d[Pv1Power] == Int(regs[33]);
      data := data[Pv1Power := Int(regs[33])];
      assert d[Pv2Voltage] == Int(regs[34]);
      data := data[Pv2Voltage := Int(regs[34])];
      assert d[Pv2Current] == Num(Scaled(regs[35], 100));
      data := data[Pv2Current := Num(Scaled(regs[35], 100))];
      assert d[Pv2Power] == Int(regs[36]);
      data := data[Pv2Power := Int(regs[36])];
      assert d[ExternalPvPower] == Int(regs[79]);
      data := data[ExternalPvPower := Int(regs[79])];
      assert d[EvPower] == Int(DecodeSigned(regs[80]));
      data := data[EvPower := Int(DecodeSigned(regs[80]))];
    }

    /** PV totals, read back from the values just written. */
    method WritePvTotals(regs: seq<Word>)
      requires |regs| >= IngeteamConst.RegisterCount
      requires Pv1Power in data && data[Pv1Power] == Decoded(regs)[Pv1Power]
      requires Pv2Power in data && data[Pv2Power] == Decoded(regs)[Pv2Power]
      requires ExternalPvPower in data && data[ExternalPvPower] == Decoded(regs)[ExternalPvPower]
      modifies this`data
      ensures data == PvTotalsBlock(old(data), Decoded(regs))
    {
      ghost var d := Decoded(regs);
      Pv1PowerField(regs);
      Pv2PowerField(regs);
      ExternalPvPowerField(regs);
      PvInternalTotalPowerField(regs);
      PvTotalPowerField(regs);
      assert d[PvInternalTotalPower] == Int(IntOr(data, Pv1Power) + IntOr(data, Pv2Power));
      data := data[PvInternalTotalPower := Int(IntOr(data, Pv1Power) + IntOr(data, Pv2Power))];
      assert d[PvTotalPower] == Int(data[PvInternalTotalPower].n + IntOr(data, ExternalPvPower));
      data := data[PvTotalPower := Int(data[PvInternalTotalPower].n + IntOr(data, ExternalPvPower))];
    }

    /** Inverter output and active-power reduction. */
    method WriteInverterOutput(regs: seq<Word>)
      requires |regs| >= IngeteamConst.RegisterCount
      modifies this`data
      ensures data == InverterOutputBlock(old(data), Decoded(regs))
    {
      ghost var d := Decoded(regs);
      ActivePowerField(regs);
      ReactivePowerField(regs);
      PowerFactorField(regs);
      ApReductionRatioField(regs);
      ApReductionReasonField(regs);
      ReactiveSetpointTypeField(regs);
      assert d[ActivePower] == Int(DecodeSigned(regs[37]));
      data := data[ActivePower := Int(DecodeSigned(regs[37]))];
      assert d[ReactivePower] == Int(DecodeSigned(regs[38]));
      data := data[ReactivePower := Int(DecodeSigned(regs[38]))];
      assert d[PowerFactor] == Num(Scaled(DecodeSigned(regs[39]), 1000));
      data := data[PowerFactor := Num(Scaled(DecodeSigned(regs[39]), 1000))];
      assert d[ApReductionRatio] == Num(Scaled(regs[40], 10));
      data := data[ApReductionRatio := Num(Scaled(regs[40], 10))];
      var apReasonCode := regs[41];
      assert d[ApReductionReason] == Text(Label(IngeteamConst.ApReductionReasons, apReasonCode));
      data := data[ApReductionReason := Text(Label(IngeteamConst.ApReductionReasons, apReasonCode))];
      assert d[ReactiveSetpointType] == Int(regs[42]);
      data := data[ReactiveSetpointType := Int(regs[42])];
    }

    /** Critical loads. */
    method WriteCriticalLoads(regs: seq<Word>)
      requires |regs| >= IngeteamConst.RegisterCount
      modifies this`data
      ensures data == CriticalLoadsBlock(old(data), Decoded(regs))
    {
      ghost var d := Decoded(regs);
      ClVoltageField(regs);
      ClCurrentField(regs);
      ClFreqField(regs);
      ClActivePowerField(regs);
      ClReactivePowerField(regs);
      TotalLoadsPowerField(regs);
      assert d[ClVoltage] == Int(regs[43]);
      data := data[ClVoltage := Int(regs[43])];
      assert d[ClCurrent] == Num(Scaled(regs[44], 100));
      data := data[ClCurrent := Num(Scaled(regs[44], 100))];
      assert d[ClFreq] == Num(Scaled(regs[45], 100));
      data := data[ClFreq := Num(Scaled(regs[45], 100))];
      assert d[ClActivePower] == Int(DecodeSigned(regs[46]));
      data := data[ClActivePower := Int(DecodeSigned(regs[46]))];
      assert d[ClReactivePower] == Int(DecodeSigned(regs[47]));
      data := data[ClReactivePower := Int(DecodeSigned(regs[47]))];
      assert d[TotalLoadsPower] == Int(regs[78]);
      data := data[TotalLoadsPower := Int(regs[78])];
    }

    /** DC bus, isolation resistances, temperatures and residual current. */
    method WriteDcAndTemperatures(regs: seq<Word>)
      requires |regs| >= IngeteamConst.RegisterCount
      modifies this`data
      ensures data == DcAndTemperaturesBlock(old(data), Decoded(regs))
    {
      ghost var d := Decoded(regs);
      DcBusVoltageField(regs);
      PositiveIsolationResistanceField(regs);
      NegativeIsolationResistanceField(regs);
      TempMod1Field(regs);
      TempMod2Field(regs);
      TempPcbField(regs);
      RmsDiffCurrentField(regs);
      assert d[DcBusVoltage] == Int(regs[54]);
      data := data[DcBusVoltage := Int(regs[54])];
      assert d[PositiveIsolationResistance] == Int(regs[59]);
      data := data[PositiveIsolationResistance := Int(regs[59])];
      assert d[NegativeIsolationResistance] == Int(regs[60]);
      data := data[NegativeIsolationResistance := Int(regs[60])];
      assert d[TempMod1] == Num(Scaled(DecodeSigned(regs[55]), 10));
      data := data[TempMod1 := Num(Scaled(DecodeSigned(regs[55]), 10))];
      assert d[TempMod2] == Num(Scaled(DecodeSigned(regs[56]), 10));
      data := data[TempMod2 := Num(Scaled(DecodeSigned(regs[56]), 10))];
      assert d[TempPcb] == Num(Scaled(DecodeSigned(regs[57]), 10));
      data := data[TempPcb := Num(Scaled(DecodeSigned(regs[57]), 10))];
      assert d[RmsDiffCurrent] == Num(Scaled(regs[61], 10));
      data := data[RmsDiffCurrent := Num(Scaled(regs[61], 10))];
    }

    /** Digital outputs and inputs. */
    method WriteDigitalIo(regs: seq<Word>)
      requires |regs| >= IngeteamConst.RegisterCount
      modifies this`data
      ensures data == DigitalIoBlock(old(data), Decoded(regs))
    {
      ghost var d := Decoded(regs);
      Do1StatusField(regs);
      Do2StatusField(regs);
      DiDrmStatusField(regs);
      Di2StatusField(regs);
      Di3StatusField(regs);
      assert d[Do1Status] == Text(LabelOr(IngeteamConst.BooleanStatus, regs[62], "Unknown"));
      data := data[Do1Status := Text(LabelOr(IngeteamConst.BooleanStatus, regs[62], "Unknown"))];
      assert d[Do2Status] == Text(LabelOr(IngeteamConst.BooleanStatus, regs[63], "Unknown"));
      data := data[Do2Status := Text(LabelOr(IngeteamConst.BooleanStatus, regs[63], "Unknown"))];
      assert d[DiDrmStatus] == Text(LabelOr(IngeteamConst.BooleanStatus, regs[64], "Unknown"));
      data := data[DiDrmStatus := Text(LabelOr(IngeteamConst.BooleanStatus, regs[64], "Unknown"))];
      assert d[Di2Status] == Text(LabelOr(IngeteamConst.BooleanStatus, regs[65], "Unknown"));
      data := data[Di2Status := Text(LabelOr(IngeteamConst.BooleanStatus, regs[65], "Unknown"))];
      assert d[Di3Status] == Text(LabelOr(IngeteamConst.BooleanStatus, regs[66], "Unknown"));
      data := data[Di3Status := Text(LabelOr(IngeteamConst.BooleanStatus, regs[66], "Unknown"))];
    }

    /** Internal meter. */
    method WriteInternalMeter(regs: seq<Word>)
      requires |regs| >= IngeteamConst.RegisterCount
      modifies this`data
      ensures data == InternalMeterBlock(old(data), Decoded(regs))
    {
      ghost var d := Decoded(regs);
      ImVoltageField(regs);
      ImCurrentField(regs);
      ImFreqField(regs);
      ImActivePowerField(regs);
      ImReactivePowerField(regs);
      ImPowerFactorField(regs);
      assert d[ImVoltage] == Int(regs[48]);
      data := data[ImVoltage := Int(regs[48])];
      assert d[ImCurrent] == Num(Scaled(regs[49], 100));
      data := data[ImCurrent := Num(Scaled(regs[49], 100))];
      assert d[ImFreq] == Num(Scaled(regs[50], 100));
      data := data[ImFreq := Num(Scaled(regs[50], 100))];
      assert d[ImActivePower] == Int(DecodeSigned(regs[51]));
      data := data[ImActivePower := Int(DecodeSigned(regs[51]))];
      assert d[ImReactivePower] == Int(DecodeSigned(regs[52]));
      data := data[ImReactivePower := Int(DecodeSigned(regs[52]))];
      assert d[ImPowerFactor] == Num(Scaled(DecodeSigned(regs[53]), 1000));
      data := data[ImPowerFactor := Num(Scaled(DecodeSigned(regs[53]), 1000))];
    }

    /** External meter. */
    method WriteExternalMeter(regs: seq<Word>)
      requires |regs| >= IngeteamConst.RegisterCount
      modifies this`data
      ensures data == ExternalMeterBlock(old(data), Decoded(regs))
    {
      ghost var d := Decoded(regs);
      EmVoltageField(regs);
      EmFreqField(regs);
      EmActivePowerField(regs);
      EmActivePowerReturnedField(regs);
      EmReactivePowerField(regs);
      assert d[EmVoltage] == Int(regs[69]);
      data := data[EmVoltage := Int(regs[69])];
      assert d[EmFreq] == Num(Scaled(regs[70], 10));
      data := data[EmFreq := Num(Scaled(regs[70], 10))];
      var gridPower := DecodeSigned(regs[71]);
      assert d[EmActivePower] == Int(Max(0, gridPower));
      data := data[EmActivePower := Int(Max(0, gridPower))];
      assert d[EmActivePowerReturned] == Int(Max(0, -gridPower));
      data := data[EmActivePowerReturned := Int(Max(0, -gridPower))];
      assert d[EmReactivePower] == Int(DecodeSigned(regs[72]));
      data := data[EmReactivePower := Int(DecodeSigned(regs[72]))];
    }

    /** Every write of `read_modbus_data`, in the source's order: whatever
        `data` held before, it ends up as the snapshot the registers decode
        to. */
    method WriteRegisters(regs: seq<Word>)
      requires |regs| >= IngeteamConst.RegisterCount
      modifies this`data
      ensures data == Decoded(regs)
    {
      ghost var d := Decoded(regs);
      ghost var previous := data;
      WriteStatus(regs);
      WriteBatteryFlow(regs);
      WriteBatteryCharge(regs);
      WriteBatteryLimits(regs);
      WriteBatteryBms(regs);
      ghost var beforePv := data;
      WritePvStrings(regs);
      PvStringsBlockPowers(beforePv, d);
      WritePvTotals(regs);
      WriteInverterOutput(regs);
      WriteCriticalLoads(regs);
      WriteDcAndTemperatures(regs);
      WriteDigitalIo(regs);
      WriteInternalMeter(regs);
      WriteExternalMeter(regs);
      AllBlocksReplaceSnapshot(previous, d);
    }

    /** `read_modbus_data`: read registers 0..80 and, when the response is
        complete, write every measurement into `data`. `raised` says that the
        read raised instead of returning. */
    method ReadModbusData(response: ReadResult) returns (raised: bool, ok: bool)
      modifies this`data, this`trace
      ensures raised == response.Raised?
      ensures ok == Complete(response)
      ensures trace == old(trace) + [ClientRead(address, 0, IngeteamConst.RegisterCount)]
      ensures data == if ok then Decoded(response.words) else old(data)
    {
      var r := ReadInput(address, 0, IngeteamConst.RegisterCount, response);
      if r.Raised? {
        return true, false;
      }
      raised := false;
      if r.ErrorResponse? {
        return raised, false;
      }
      var regs := r.words;
      if |regs| < IngeteamConst.RegisterCount {
        return raised, false;
      }

      WriteRegisters(regs);
      ok := true;
    }

    /** `_update_modbus_data`: reconnect if needed, then read; any exception
        of the read is caught and reported as failure. */
    method UpdateModbusData(socketOpen: bool, connectResult: bool, response: ReadResult) returns (ok: bool)
      modifies this`data, this`trace
      ensures ok == UpdateSucceeds(socketOpen, connectResult, response)
      ensures trace == old(trace) + UpdateTrace(address, socketOpen, connectResult)
      ensures data == if ok then Decoded(response.words) else old(data)
    {
      var connected := CheckAndReconnect(socketOpen, connectResult);
      if !connected {
        return false;
      }
      var raised;
      raised, ok := ReadModbusData(response);
      if raised {
        ok := false;
      }
    }

    /** `async_add_ingeteam_sensor`: the first subscriber connects and starts
        the interval timer; every subscriber is appended. */
    method AddSensor(callback: Cb, connectResult: bool)
      requires Valid()
      modifies this`sensors, this`timerActive, this`trace
      ensures Valid()
      ensures sensors == old(sensors) + [callback]
      ensures timerActive
      ensures trace == old(trace) + (if old(sensors) == [] then [ClientConnect, TimerStart] else [])
    {
      if sensors == [] {
        var _ := Connect(connectResult);
        trace := trace + [TimerStart];
        CountAppend(old(trace), [ClientConnect, TimerStart], TimerStart);
        CountAppend(old(trace), [ClientConnect, TimerStart], TimerCancel);
        timerActive := true;
      }
      sensors := sensors + [callback];
    }

    /** `async_remove_ingeteam_sensor`: remove the first occurrence of the
        callback; when none is left, cancel the timer and close. Removing a
        callback that is not subscribed raises, changing nothing; `ok` is
        false then. */
    method RemoveSensor(callback: Cb) returns (ok: bool)
      requires Valid()
      modifies this`sensors, this`timerActive, this`trace
      ensures Valid()
      ensures ok == (callback in old(sensors))
      ensures ok ==> sensors == RemoveFirst(old(sensors), callback)
      ensures !ok ==> sensors == old(sensors)
      ensures timerActive == (sensors != [])
      ensures trace == old(trace) + (if ok && sensors == [] then [TimerCancel, ClientClose] else [])
    {
      if callback !in sensors {
        return false;
      }
      ok := true;
      sensors := RemoveFirst(sensors, callback);
      if sensors == [] && timerActive {
        trace := trace + [TimerCancel];
        timerActive := false;
        Close();
        CountAppend(old(trace), [TimerCancel, ClientClose], TimerStart);
        CountAppend(old(trace), [TimerCancel, ClientClose], TimerCancel);
      }
    }

    /** The loop of `async_refresh_modbus_data`: every subscriber is called
        once, in list order. */
    method NotifySensors()
      modifies this`trace
      ensures trace == old(trace) + Notifications(sensors)
    {
      for i := 0 to |sensors|
        invariant trace == old(trace) + Notifications(sensors[..i])
      {
        assert sensors[..i + 1][..i] == sensors[..i];
        trace := trace + [Notify(sensors[i])];
      }
      assert sensors[..|sensors|] == sensors;
    }

    /** `async_refresh_modbus_data`: one tick. Without subscribers it does
        nothing; otherwise it updates and, only when the update succeeded,
        calls every subscriber in list order. */
    method RefreshModbusData(socketOpen: bool, connectResult: bool, response: ReadResult)
      requires Valid()
      modifies this`data, this`trace
      ensures Valid()
      ensures old(sensors) == [] ==> data == old(data) && trace == old(trace)
      ensures old(sensors) != [] ==>
        && data == (if UpdateSucceeds(socketOpen, connectResult, response)
                    then Decoded(response.words) else old(data))
        && trace == old(trace) + UpdateTrace(address, socketOpen, connectResult)
                   + (if UpdateSucceeds(socketOpen, connectResult, response) then Notifications(sensors) else [])
    {
      if sensors == [] {
        return;
      }
      var updated := UpdateModbusData(socketOpen, connectResult, response);
      if updated {
        NotifySensors();
      }
      ghost var added := trace[|old(trace)|..];
      assert trace == old(trace) + added;
      assert TimerStart !in added && TimerCancel !in added;
      CountUnchanged(old(trace), added, TimerStart);
      CountUnchanged(old(trace), added, TimerCancel);
    }
  }

  /** Two subscribers join and leave again: the client is connected and the
      timer started once, for the first, and the timer cancelled and the
      client closed once, for the last. The two may be the same callback,
      subscribed twice, as `list.append` and `list.remove` allow. */
  method SubscribeTwiceAndLeave<Cb(==)>(first: Cb, second: Cb)
    returns (hub: IngeteamModbusHub<Cb>)
    ensures hub.Valid()
    ensures hub.sensors == [] && !hub.timerActive
    ensures hub.trace == [ClientConnect, TimerStart, TimerCancel, ClientClose]
  {
    hub := new IngeteamModbusHub(IngeteamConst.DefaultName, "inverter", "502",
                                 IngeteamConst.DefaultModbusAddress, IngeteamConst.DefaultScanInterval,
                                 IngeteamConst.DefaultReadMeter, IngeteamConst.DefaultReadBattery);
    hub.AddSensor(first, true);
    hub.AddSensor(second, true);
    assert hub.sensors == [first, second];
    var left := hub.RemoveSensor(first);
    assert hub.sensors == [second];
    left := hub.RemoveSensor(second);
  }

  /** `data.get(k, 0)` for an integer measurement. */
  function IntOr(m: map<Key, Value>, k: Key): (n: int)
    ensures k !in m ==> n == 0
    ensures k in m && m[k].Int? ==> n == m[k].n
  {
    if k in m && m[k].Int? then m[k].n else 0
  }
}
