/** The single-block register map: which of the 81 input registers (read
    from address 0) each measurement of the snapshot comes from, how it is
    decoded, and the snapshot that a complete register window yields. */
module Snapshot {
  import opened RegisterCodec
  import IngeteamConst

  /** The measurement keys the decoder writes. `Name` gives the key string
      used by the entity layer. */
  datatype Key =
    | TotalOperationTime | StopCode | AlarmCode | Status | WaitingTime
    | BatteryVoltage | BatteryCurrent | BatteryDischargingPower | BatteryChargingPower
    | BatteryStateOfCharge | BatteryStateOfHealth | BatteryChargingVoltage
    | BatteryDischargingVoltage | BatteryChargingCurrentMax | BatteryDischargingCurrentMax
    | BatteryStatus | BatteryTemp | BatteryBmsAlarm | BatteryDischargeLimitationReason
    | BatteryVoltageInternal | BatteryBmsFlags | BatteryBmsWarnings | BatteryBmsErrors
    | BatteryBmsFaults | BatteryChargeLimitationReason
    | Pv1Voltage | Pv1Current | Pv1Power | Pv2Voltage | Pv2Current | Pv2Power
    | ExternalPvPower | EvPower | PvInternalTotalPower | PvTotalPower
    | ActivePower | ReactivePower | PowerFactor | ApReductionRatio | ApReductionReason
    | ReactiveSetpointType | ClVoltage | ClCurrent | ClFreq | ClActivePower
    | ClReactivePower | TotalLoadsPower | DcBusVoltage | PositiveIsolationResistance
    | NegativeIsolationResistance | TempMod1 | TempMod2 | TempPcb | RmsDiffCurrent
    | Do1Status | Do2Status | DiDrmStatus | Di2Status | Di3Status
    | ImVoltage | ImCurrent | ImFreq | ImActivePower | ImReactivePower | ImPowerFactor
    | EmVoltage | EmFreq | EmActivePower | EmActivePowerReturned | EmReactivePower
  {
    function Name(): (s: string)
      ensures |s| > 0
    {
      match this
      case TotalOperationTime => "total_operation_time"
      case StopCode => "stop_code"
      case AlarmCode => "alarm_code"
      case Status => "status"
      case WaitingTime => "waiting_time"
      case BatteryVoltage => "battery_voltage"
      case BatteryCurrent => "battery_current"
      case BatteryDischargingPower => "battery_discharging_power"
      case BatteryChargingPower => "battery_charging_power"
      case BatteryStateOfCharge => "battery_state_of_charge"
      case BatteryStateOfHealth => "battery_state_of_health"
      case BatteryChargingVoltage => "battery_charging_voltage"
      case BatteryDischargingVoltage => "battery_discharging_voltage"
      case BatteryChargingCurrentMax => "battery_charging_current_max"
      case BatteryDischargingCurrentMax => "battery_discharging_current_max"
      case BatteryStatus => "battery_status"
      case BatteryTemp => "battery_temp"
      case BatteryBmsAlarm => "battery_bms_alarm"
      case BatteryDischargeLimitationReason => "battery_discharge_limitation_reason"
      case BatteryVoltageInternal => "battery_voltage_internal"
      case BatteryBmsFlags => "battery_bms_flags"
      case BatteryBmsWarnings => "battery_bms_warnings"
      case BatteryBmsErrors => "battery_bms_errors"
      case BatteryBmsFaults => "battery_bms_faults"
      case BatteryChargeLimitationReason => "battery_charge_limitation_reason"
      case Pv1Voltage => "pv1_voltage"
      case Pv1Current => "pv1_current"
      case Pv1Power => "pv1_power"
      case Pv2Voltage => "pv2_voltage"
      case Pv2Current => "pv2_current"
      case Pv2Power => "pv2_power"
      case ExternalPvPower => "external_pv_power"
      case EvPower => "ev_power"
      case PvInternalTotalPower => "pv_internal_total_power"
      case PvTotalPower => "pv_total_power"
      case ActivePower => "active_power"
      case ReactivePower => "reactive_power"
      case PowerFactor => "power_factor"
      case ApReductionRatio => "ap_reduction_ratio"
      case ApReductionReason => "ap_reduction_reason"
      case ReactiveSetpointType => "reactive_setpoint_type"
      case ClVoltage => "cl_voltage"
      case ClCurrent => "cl_current"
      case ClFreq => "cl_freq"
      case ClActivePower => "cl_active_power"
      case ClReactivePower => "cl_reactive_power"
      case TotalLoadsPower => "total_loads_power"
      case DcBusVoltage => "dc_bus_voltage"
      case PositiveIsolationResistance => "positive_isolation_resistance"
      case NegativeIsolationResistance => "negative_isolation_resistance"
      case TempMod1 => "temp_mod_1"
      case TempMod2 => "temp_mod_2"
      case TempPcb => "temp_pcb"
      case RmsDiffCurrent => "rms_diff_current"
      case Do1Status => "do_1_status"
      case Do2Status => "do_2_status"
      case DiDrmStatus => "di_drm_status"
      case Di2Status => "di_2_status"
      case Di3Status => "di_3_status"
      case ImVoltage => "im_voltage"
      case ImCurrent => "im_current"
      case ImFreq => "im_freq"
      case ImActivePower => "im_active_power"
      case ImReactivePower => "im_reactive_power"
      case ImPowerFactor => "im_power_factor"
      case EmVoltage => "em_voltage"
      case EmFreq => "em_freq"
      case EmActivePower => "em_active_power"
      case EmActivePowerReturned => "em_active_power_returned"
      case EmReactivePower => "em_reactive_power"
    }
  }

  /** A decoded measurement: an integer, an exactly scaled rational (the
      source's float division), or a label. */
  datatype Value = Int(n: int) | Num(x: real) | Text(s: string)

  /** How one measurement is obtained from the register window. */
  /** A scale factor: the source divides only by positive constants. */
  type Scale = q: nat | q > 0 witness 1

  datatype Decoding =
    | Unsigned(offset: nat)
    | Signed(offset: nat)
    | UnsignedScaled(offset: nat, divisor: Scale)
    | SignedScaled(offset: nat, divisor: Scale)
    | DoubleWord(offset: nat)                      // low word at offset, high word at offset + 1
    | PositivePart(offset: nat)                    // max(0, signed register)
    | NegativePart(offset: nat)                    // max(0, -signed register)
    | CodeLabel(table: map<int, string>, offset: nat)   // label or "Unknown (<code>)"
    | BooleanLabel(offset: nat)                    // "Off", "On" or "Unknown"
    | Total(offsets: seq<nat>)                     // sum of unsigned registers

  /** The register map of the single-block layout. */
  function Layout(k: Key): (d: Decoding)
    ensures forall i :: i in Reads(d) ==> i < IngeteamConst.RegisterCount
  {
    match k
    case TotalOperationTime => DoubleWord(6)
    case StopCode => Unsigned(9)
    case AlarmCode => DoubleWord(10)
    case Status => CodeLabel(IngeteamConst.InverterStatus, 15)
    case WaitingTime => Unsigned(16)
    case BatteryVoltage => UnsignedScaled(17, 10)
    case BatteryCurrent => SignedScaled(18, 100)
    case BatteryDischargingPower => PositivePart(19)
    case BatteryChargingPower => NegativePart(19)
    case BatteryStateOfCharge => Unsigned(20)
    case BatteryStateOfHealth => Unsigned(21)
    case BatteryChargingVoltage => UnsignedScaled(22, 10)
    case BatteryDischargingVoltage => UnsignedScaled(23, 10)
    case BatteryChargingCurrentMax => UnsignedScaled(24, 100)
    case BatteryDischargingCurrentMax => UnsignedScaled(25, 100)
    case BatteryStatus => CodeLabel(IngeteamConst.BatteryStatus, 26)
    case BatteryTemp => SignedScaled(27, 10)
    case BatteryBmsAlarm => Unsigned(28)
    case BatteryDischargeLimitationReason => CodeLabel(IngeteamConst.BatteryLimitationReasons, 29)
    case BatteryVoltageInternal => UnsignedScaled(30, 10)
    case BatteryBmsFlags => Unsigned(68)
    case BatteryBmsWarnings => Unsigned(73)
    case BatteryBmsErrors => Unsigned(74)
    case BatteryBmsFaults => Unsigned(75)
    case BatteryChargeLimitationReason => Unsigned(77)
    case Pv1Voltage => Unsigned(31)
    case Pv1Current => UnsignedScaled(32, 100)
    case Pv1Power => Unsigned(33)
    case Pv2Voltage => Unsigned(34)
    case Pv2Current => UnsignedScaled(35, 100)
    case Pv2Power => Unsigned(36)
    case ExternalPvPower => Unsigned(79)
    case EvPower => Signed(80)
    case PvInternalTotalPower => Total([33, 36])
    case PvTotalPower => Total([33, 36, 79])
    case ActivePower => Signed(37)
    case ReactivePower => Signed(38)
    case PowerFactor => SignedScaled(39, 1000)
    case ApReductionRatio => UnsignedScaled(40, 10)
    case ApReductionReason => CodeLabel(IngeteamConst.ApReductionReasons, 41)
    case ReactiveSetpointType => Unsigned(42)
    case ClVoltage => Unsigned(43)
    case ClCurrent => UnsignedScaled(44, 100)
    case ClFreq => UnsignedScaled(45, 100)
    case ClActivePower => Signed(46)
    case ClReactivePower => Signed(47)
    case TotalLoadsPower => Unsigned(78)
    case DcBusVoltage => Unsigned(54)
    case PositiveIsolationResistance => Unsigned(59)
    case NegativeIsolationResistance => Unsigned(60)
    case TempMod1 => SignedScaled(55, 10)
    case TempMod2 => SignedScaled(56, 10)
    case TempPcb => SignedScaled(57, 10)
    case RmsDiffCurrent => UnsignedScaled(61, 10)
    case Do1Status => BooleanLabel(62)
    case Do2Status => BooleanLabel(63)
    case DiDrmStatus => BooleanLabel(64)
    case Di2Status => BooleanLabel(65)
    case Di3Status => BooleanLabel(66)
    case ImVoltage => Unsigned(48)
    case ImCurrent => UnsignedScaled(49, 100)
    case ImFreq => UnsignedScaled(50, 100)
    case ImActivePower => Signed(51)
    case ImReactivePower => Signed(52)
    case ImPowerFactor => SignedScaled(53, 1000)
    case EmVoltage => Unsigned(69)
    case EmFreq => UnsignedScaled(70, 10)
    case EmActivePower => PositivePart(71)
    case EmActivePowerReturned => NegativePart(71)
    case EmReactivePower => Signed(72)
  }

  /** The registers a decoding reads. */
  function Reads(d: Decoding): set<nat>
  {
    match d
    case DoubleWord(i) => {i, i + 1}
    case Total(offsets) => set j | 0 <= j < |offsets| :: offsets[j]
    case _ => {d.offset}
  }

  /** Every key of the snapshot. */
  const AllKeys: set<Key> := {
    TotalOperationTime, StopCode, AlarmCode, Status, WaitingTime,
    BatteryVoltage, BatteryCurrent, BatteryDischargingPower, BatteryChargingPower,
    BatteryStateOfCharge, BatteryStateOfHealth, BatteryChargingVoltage,
    BatteryDischargingVoltage, BatteryChargingCurrentMax, BatteryDischargingCurrentMax,
    BatteryStatus, BatteryTemp, BatteryBmsAlarm, BatteryDischargeLimitationReason,
    BatteryVoltageInternal, BatteryBmsFlags, BatteryBmsWarnings, BatteryBmsErrors,
    BatteryBmsFaults, BatteryChargeLimitationReason,
    Pv1Voltage, Pv1Current, Pv1Power, Pv2Voltage, Pv2Current, Pv2Power,
    ExternalPvPower, EvPower, PvInternalTotalPower, PvTotalPower,
    ActivePower, ReactivePower, PowerFactor, ApReductionRatio, ApReductionReason,
    ReactiveSetpointType, ClVoltage, ClCurrent, ClFreq, ClActivePower,
    ClReactivePower, TotalLoadsPower, DcBusVoltage, PositiveIsolationResistance,
    NegativeIsolationResistance, TempMod1, TempMod2, TempPcb, RmsDiffCurrent,
    Do1Status, Do2Status, DiDrmStatus, Di2Status, Di3Status,
    ImVoltage, ImCurrent, ImFreq, ImActivePower, ImReactivePower, ImPowerFactor,
    EmVoltage, EmFreq, EmActivePower, EmActivePowerReturned, EmReactivePower
  }

  /** Registers at `offsets`, added up. */
  function SumAt(regs: seq<Word>, offsets: seq<nat>): int
    requires forall j :: 0 <= j < |offsets| ==> offsets[j] < |regs|
  {
    if offsets == [] then 0
    else SumAt(regs, offsets[..|offsets| - 1]) + regs[offsets[|offsets| - 1]]
  }

  /** What decoding `d` yields from a window holding every register it reads. */
  function Decode(d: Decoding, regs: seq<Word>): (v: Value)
    requires forall i :: i in Reads(d) ==> i < |regs|
    ensures v.Num? <==> d.UnsignedScaled? || d.SignedScaled?
    ensures v.Text? <==> d.CodeLabel? || d.BooleanLabel?
  {
    match d
    case Unsigned(i) => assert i in Reads(d); Int(regs[i])
    case Signed(i) => assert i in Reads(d); Int(DecodeSigned(regs[i]))
    case UnsignedScaled(i, q) =>
      assert i in Reads(d);
      Num(Scaled(regs[i], q))
    case SignedScaled(i, q) =>
      assert i in Reads(d);
      Num(Scaled(DecodeSigned(regs[i]), q))
    case DoubleWord(i) => assert i + 1 in Reads(d); Int(U32FromWordsLe(regs, i))
    case PositivePart(i) => assert i in Reads(d); Int(SplitPower(DecodeSigned(regs[i])).0)
    case NegativePart(i) => assert i in Reads(d); Int(SplitPower(DecodeSigned(regs[i])).1)
    case CodeLabel(t, i) => assert i in Reads(d); Text(Label(t, regs[i]))
    case BooleanLabel(i) => assert i in Reads(d); Text(LabelOr(IngeteamConst.BooleanStatus, regs[i], "Unknown"))
    case Total(offsets) =>
      assert forall j :: 0 <= j < |offsets| ==> offsets[j] in Reads(d);
      Int(SumAt(regs, offsets))
  }

  /** Registers at `offsets` agree in `r1` and `r2`, so their sums do. */
  lemma {:induction false} SumAtReadsOnly(r1: seq<Word>, r2: seq<Word>, offsets: seq<nat>)
    requires forall j :: 0 <= j < |offsets| ==> offsets[j] < |r1| && offsets[j] < |r2|
    requires forall j :: 0 <= j < |offsets| ==> r1[offsets[j]] == r2[offsets[j]]
    ensures SumAt(r1, offsets) == SumAt(r2, offsets)
    decreases |offsets|
  {
    if offsets != [] {
      SumAtReadsOnly(r1, r2, offsets[..|offsets| - 1]);
    }
  }

  /** A decoding looks at no register outside `Reads`. */
  lemma DecodeReadsOnly(d: Decoding, r1: seq<Word>, r2: seq<Word>)
    requires forall i :: i in Reads(d) ==> i < |r1| && i < |r2| && r1[i] == r2[i]
    ensures Decode(d, r1) == Decode(d, r2)
  {
    match d
    case DoubleWord(i) =>
      assert i in Reads(d) && i + 1 in Reads(d);
    case Total(offsets) =>
      assert forall j :: 0 <= j < |offsets| ==> offsets[j] in Reads(d);
      SumAtReadsOnly(r1, r2, offsets);
    case _ =>
      assert d.offset in Reads(d);
  }

  /** The measurement `k` decoded from a complete register window. */
  function Field(regs: seq<Word>, k: Key): (v: Value)
    requires |regs| >= IngeteamConst.RegisterCount
    ensures v == Decode(Layout(k), regs[..IngeteamConst.RegisterCount])
  {
    DecodeReadsOnly(Layout(k), regs, regs[..IngeteamConst.RegisterCount]);
    Decode(Layout(k), regs)
  }

  /** A snapshot that holds a value for every key. */
  predicate Full(d: map<Key, Value>)
  {
    forall k :: k in d
  }

  /** Registers at `a` and `b`, added up. */
  lemma SumAtTwo(regs: seq<Word>, a: nat, b: nat)
    requires a < |regs| && b < |regs|
    ensures SumAt(regs, [a, b]) == regs[a] as int + regs[b] as int
  {
    assert [a, b][..1] == [a];
    assert [a][..0] == [];
    assert SumAt(regs, [a]) == regs[a] as int;
  }

  lemma SumAtThree(regs: seq<Word>, a: nat, b: nat, c: nat)
    requires a < |regs| && b < |regs| && c < |regs|
    ensures SumAt(regs, [a, b, c]) == regs[a] as int + regs[b] as int + regs[c] as int
  {
    assert [a, b, c][..2] == [a, b];
    SumAtTwo(regs, a, b);
  }

  lemma KeyInAllKeys(k: Key)
    ensures k in AllKeys
  {
  }

  /** Every key is a key of the snapshot. */
  lemma AllKeysComplete()
    ensures forall k :: k in AllKeys
  {
    forall k
      ensures k in AllKeys
    {
      KeyInAllKeys(k);
    }
  }

  /** The snapshot a complete register window yields. */
  function Decoded(regs: seq<Word>): (s: map<Key, Value>)
    requires |regs| >= IngeteamConst.RegisterCount
    ensures Full(s)
    ensures forall k :: s[k] == Field(regs, k)
  {
    AllKeysComplete();
    map k | k in AllKeys :: Field(regs, k)
  }
}
