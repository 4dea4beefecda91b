/** The decoder's writes, in the groups the source's comments give them
    (status, battery, PV, inverter and loads, meters), each group cut into
    blocks of at most eight writes. A block overwrites its keys with the
    entries of a full snapshot and leaves every other key alone; running
    every block in the decoder's order over any previous snapshot gives the
    full snapshot itself. */
module DecoderSections {
  import opened Snapshot

  /** `after` is `before` with the entries of `keys` overwritten by those
      of `d`. */
  ghost predicate Overlays(after: map<Key, Value>, before: map<Key, Value>,
                           d: map<Key, Value>, keys: set<Key>)
  {
    && (forall k :: k in keys ==> k in d && k in after && after[k] == d[k])
    && (forall k :: k !in keys ==> (k in after <==> k in before))
    && (forall k :: k !in keys && k in before ==> after[k] == before[k])
  }

  // Inverter status and lifetime

  const StatusKeys: set<Key> := {
    TotalOperationTime, StopCode, AlarmCode, Status, WaitingTime
  }

  function StatusBlock(m: map<Key, Value>, d: map<Key, Value>): (r: map<Key, Value>)
    requires Full(d)
    ensures r.Keys == m.Keys + StatusKeys
  {
    m
    [TotalOperationTime := d[TotalOperationTime]]
    [StopCode := d[StopCode]]
    [AlarmCode := d[AlarmCode]]
    [Status := d[Status]]
    [WaitingTime := d[WaitingTime]]
  }

  lemma StatusBlockOverlays(m: map<Key, Value>, d: map<Key, Value>)
    requires Full(d)
    ensures Overlays(StatusBlock(m, d), m, d, StatusKeys)
  {
  }

  // Battery voltage, current and power

  const BatteryFlowKeys: set<Key> := {
    BatteryVoltage, BatteryCurrent, BatteryDischargingPower, BatteryChargingPower
  }

  function BatteryFlowBlock(m: map<Key, Value>, d: map<Key, Value>): (r: map<Key, Value>)
    requires Full(d)
    ensures r.Keys == m.Keys + BatteryFlowKeys
  {
    m
    [BatteryVoltage := d[BatteryVoltage]]
    [BatteryCurrent := d[BatteryCurrent]]
    [BatteryDischargingPower := d[BatteryDischargingPower]]
    [BatteryChargingPower := d[BatteryChargingPower]]
  }

  lemma BatteryFlowBlockOverlays(m: map<Key, Value>, d: map<Key, Value>)
    requires Full(d)
    ensures Overlays(BatteryFlowBlock(m, d), m, d, BatteryFlowKeys)
  {
  }

  // Battery state of charge and health, charging and discharging voltages

  const BatteryChargeKeys: set<Key> := {
    BatteryStateOfCharge, BatteryStateOfHealth, BatteryChargingVoltage,
    BatteryDischargingVoltage
  }

  function BatteryChargeBlock(m: map<Key, Value>, d: map<Key, Value>): (r: map<Key, Value>)
    requires Full(d)
    ensures r.Keys == m.Keys + BatteryChargeKeys
  {
    m
    [BatteryStateOfCharge := d[BatteryStateOfCharge]]
    [BatteryStateOfHealth := d[BatteryStateOfHealth]]
    [BatteryChargingVoltage := d[BatteryChargingVoltage]]
    [BatteryDischargingVoltage := d[BatteryDischargingVoltage]]
  }

  lemma BatteryChargeBlockOverlays(m: map<Key, Value>, d: map<Key, Value>)
    requires Full(d)
    ensures Overlays(BatteryChargeBlock(m, d), m, d, BatteryChargeKeys)
  {
  }

  // Battery current limits, status, temperature and discharge limitation

  const BatteryLimitsKeys: set<Key> := {
    BatteryChargingCurrentMax, BatteryDischargingCurrentMax, BatteryStatus, BatteryTemp,
    BatteryBmsAlarm, BatteryDischargeLimitationReason
  }

  function BatteryLimitsBlock(m: map<Key, Value>, d: map<Key, Value>): (r: map<Key, Value>)
    requires Full(d)
    ensures r.Keys == m.Keys + BatteryLimitsKeys
  {
    m
    [BatteryChargingCurrentMax := d[BatteryChargingCurrentMax]]
    [BatteryDischargingCurrentMax := d[BatteryDischargingCurrentMax]]
    [BatteryStatus := d[BatteryStatus]]
    [BatteryTemp := d[BatteryTemp]]
    [BatteryBmsAlarm := d[BatteryBmsAlarm]]
    [BatteryDischargeLimitationReason := d[BatteryDischargeLimitationReason]]
  }

  lemma BatteryLimitsBlockOverlays(m: map<Key, Value>, d: map<Key, Value>)
    requires Full(d)
    ensures Overlays(BatteryLimitsBlock(m, d), m, d, BatteryLimitsKeys)
  {
  }

  // Battery management system registers

  const BatteryBmsKeys: set<Key> := {
    BatteryVoltageInternal, BatteryBmsFlags, BatteryBmsWarnings, BatteryBmsErrors,
    BatteryBmsFaults, BatteryChargeLimitationReason
  }

  function BatteryBmsBlock(m: map<Key, Value>, d: map<Key, Value>): (r: map<Key, Value>)
    requires Full(d)
    ensures r.Keys == m.Keys + BatteryBmsKeys
  {
    m
    [BatteryVoltageInternal := d[BatteryVoltageInternal]]
    [BatteryBmsFlags := d[BatteryBmsFlags]]
    [BatteryBmsWarnings := d[BatteryBmsWarnings]]
    [BatteryBmsErrors := d[BatteryBmsErrors]]
    [BatteryBmsFaults := d[BatteryBmsFaults]]
    [BatteryChargeLimitationReason := d[BatteryChargeLimitationReason]]
  }

  lemma BatteryBmsBlockOverlays(m: map<Key, Value>, d: map<Key, Value>)
    requires Full(d)
    ensures Overlays(BatteryBmsBlock(m, d), m, d, BatteryBmsKeys)
  {
  }

  // PV strings, external PV and EV charger

  const PvStringsKeys: set<Key> := {
    Pv1Voltage, Pv1Current, Pv1Power, Pv2Voltage, Pv2Current, Pv2Power, ExternalPvPower,
    EvPower
  }

  function PvStringsBlock(m: map<Key, Value>, d: map<Key, Value>): (r: map<Key, Value>)
    requires Full(d)
    ensures r.Keys == m.Keys + PvStringsKeys
  {
    m
    [Pv1Voltage := d[Pv1Voltage]]
    [Pv1Current := d[Pv1Current]]
    [Pv1Power := d[Pv1Power]]
    [Pv2Voltage := d[Pv2Voltage]]
    [Pv2Current := d[Pv2Current]]
    [Pv2Power := d[Pv2Power]]
    [ExternalPvPower := d[ExternalPvPower]]
    [EvPower := d[EvPower]]
  }

  lemma PvStringsBlockOverlays(m: map<Key, Value>, d: map<Key, Value>)
    requires Full(d)
    ensures Overlays(PvStringsBlock(m, d), m, d, PvStringsKeys)
  {
  }

  /** The three PV powers the totals are computed from hold their full
      snapshot values once the PV strings block has run. */
  lemma PvStringsBlockPowers(m: map<Key, Value>, d: map<Key, Value>)
    requires Full(d)
    ensures Pv1Power in PvStringsBlock(m, d) && PvStringsBlock(m, d)[Pv1Power] == d[Pv1Power]
    ensures Pv2Power in PvStringsBlock(m, d) && PvStringsBlock(m, d)[Pv2Power] == d[Pv2Power]
    ensures ExternalPvPower in PvStringsBlock(m, d)
      && PvStringsBlock(m, d)[ExternalPvPower] == d[ExternalPvPower]
  {
  }

  // PV totals, read back from the values just written

  const PvTotalsKeys: set<Key> := {
    PvInternalTotalPower, PvTotalPower
  }

  function PvTotalsBlock(m: map<Key, Value>, d: map<Key, Value>): (r: map<Key, Value>)
    requires Full(d)
    ensures r.Keys == m.Keys + PvTotalsKeys
  {
    m
    [PvInternalTotalPower := d[PvInternalTotalPower]]
    [PvTotalPower := d[PvTotalPower]]
  }

  lemma PvTotalsBlockOverlays(m: map<Key, Value>, d: map<Key, Value>)
    requires Full(d)
    ensures Overlays(PvTotalsBlock(m, d), m, d, PvTotalsKeys)
  {
  }

  // Inverter output and active-power reduction

  const InverterOutputKeys: set<Key> := {
    ActivePower, ReactivePower, PowerFactor, ApReductionRatio, ApReductionReason,
    ReactiveSetpointType
  }

  function InverterOutputBlock(m: map<Key, Value>, d: map<Key, Value>): (r: map<Key, Value>)
    requires Full(d)
    ensures r.Keys == m.Keys + InverterOutputKeys
  {
    m
    [ActivePower := d[ActivePower]]
    [ReactivePower := d[ReactivePower]]
    [PowerFactor := d[PowerFactor]]
    [ApReductionRatio := d[ApReductionRatio]]
    [ApReductionReason := d[ApReductionReason]]
    [ReactiveSetpointType := d[ReactiveSetpointType]]
  }

  lemma InverterOutputBlockOverlays(m: map<Key, Value>, d: map<Key, Value>)
    requires Full(d)
    ensures Overlays(InverterOutputBlock(m, d), m, d, InverterOutputKeys)
  {
  }

  // Critical loads

  const CriticalLoadsKeys: set<Key> := {
    ClVoltage, ClCurrent, ClFreq, ClActivePower, ClReactivePower, TotalLoadsPower
  }

  function CriticalLoadsBlock(m: map<Key, Value>, d: map<Key, Value>): (r: map<Key, Value>)
    requires Full(d)
    ensures r.Keys == m.Keys + CriticalLoadsKeys
  {
    m
    [ClVoltage := d[ClVoltage]]
    [ClCurrent := d[ClCurrent]]
    [ClFreq := d[ClFreq]]
    [ClActivePower := d[ClActivePower]]
    [ClReactivePower := d[ClReactivePower]]
    [TotalLoadsPower := d[TotalLoadsPower]]
  }

  lemma CriticalLoadsBlockOverlays(m: map<Key, Value>, d: map<Key, Value>)
    requires Full(d)
    ensures Overlays(CriticalLoadsBlock(m, d), m, d, CriticalLoadsKeys)
  {
  }

  // DC bus, isolation resistances, temperatures and residual current

  const DcAndTemperaturesKeys: set<Key> := {
    DcBusVoltage, PositiveIsolationResistance, NegativeIsolationResistance, TempMod1,
    TempMod2, TempPcb, RmsDiffCurrent
  }

  function DcAndTemperaturesBlock(m: map<Key, Value>, d: map<Key, Value>): (r: map<Key, Value>)
    requires Full(d)
    ensures r.Keys == m.Keys + DcAndTemperaturesKeys
  {
    m
    [DcBusVoltage := d[DcBusVoltage]]
    [PositiveIsolationResistance := d[PositiveIsolationResistance]]
    [NegativeIsolationResistance := d[NegativeIsolationResistance]]
    [TempMod1 := d[TempMod1]]
    [TempMod2 := d[TempMod2]]
    [TempPcb := d[TempPcb]]
    [RmsDiffCurrent := d[RmsDiffCurrent]]
  }

  lemma DcAndTemperaturesBlockOverlays(m: map<Key, Value>, d: map<Key, Value>)
    requires Full(d)
    ensures Overlays(DcAndTemperaturesBlock(m, d), m, d, DcAndTemperaturesKeys)
  {
  }

  // Digital outputs and inputs

  const DigitalIoKeys: set<Key> := {
    Do1Status, Do2Status, DiDrmStatus, Di2Status, Di3Status
  }

  function DigitalIoBlock(m: map<Key, Value>, d: map<Key, Value>): (r: map<Key, Value>)
    requires Full(d)
    ensures r.Keys == m.Keys + DigitalIoKeys
  {
    m
    [Do1Status := d[Do1Status]]
    [Do2Status := d[Do2Status]]
    [DiDrmStatus := d[DiDrmStatus]]
    [Di2Status := d[Di2Status]]
    [Di3Status := d[Di3Status]]
  }

  lemma DigitalIoBlockOverlays(m: map<Key, Value>, d: map<Key, Value>)
    requires Full(d)
    ensures Overlays(DigitalIoBlock(m, d), m, d, DigitalIoKeys)
  {
  }

  // Internal meter

  const InternalMeterKeys: set<Key> := {
    ImVoltage, ImCurrent, ImFreq, ImActivePower, ImReactivePower, ImPowerFactor
  }

  function InternalMeterBlock(m: map<Key, Value>, d: map<Key, Value>): (r: map<Key, Value>)
    requires Full(d)
    ensures r.Keys == m.Keys + InternalMeterKeys
  {
    m
    [ImVoltage := d[ImVoltage]]
    [ImCurrent := d[ImCurrent]]
    [ImFreq := d[ImFreq]]
    [ImActivePower := d[ImActivePower]]
    [ImReactivePower := d[ImReactivePower]]
    [ImPowerFactor := d[ImPowerFactor]]
  }

  lemma InternalMeterBlockOverlays(m: map<Key, Value>, d: map<Key, Value>)
    requires Full(d)
    ensures Overlays(InternalMeterBlock(m, d), m, d, InternalMeterKeys)
  {
  }

  // External meter

  const ExternalMeterKeys: set<Key> := {
    EmVoltage, EmFreq, EmActivePower, EmActivePowerReturned, EmReactivePower
  }

  function ExternalMeterBlock(m: map<Key, Value>, d: map<Key, Value>): (r: map<Key, Value>)
    requires Full(d)
    ensures r.Keys == m.Keys + ExternalMeterKeys
  {
    m
    [EmVoltage := d[EmVoltage]]
    [EmFreq := d[EmFreq]]
    [EmActivePower := d[EmActivePower]]
    [EmActivePowerReturned := d[EmActivePowerReturned]]
    [EmReactivePower := d[EmReactivePower]]
  }

  lemma ExternalMeterBlockOverlays(m: map<Key, Value>, d: map<Key, Value>)
    requires Full(d)
    ensures Overlays(ExternalMeterBlock(m, d), m, d, ExternalMeterKeys)
  {
  }

  /** Two overlays in a row overlay the union of their keys. */
  lemma OverlaysCompose(c: map<Key, Value>, b: map<Key, Value>, a: map<Key, Value>,
                        d: map<Key, Value>, first: set<Key>, second: set<Key>)
    requires Overlays(b, a, d, first)
    requires Overlays(c, b, d, second)
    ensures Overlays(c, a, d, first + second)
  {
  }

  /** An overlay of every key, from a full snapshot, is that snapshot. */
  lemma OverlayEverything(after: map<Key, Value>, before: map<Key, Value>,
                          d: map<Key, Value>, keys: set<Key>)
    requires Full(d)
    requires forall k :: k in keys
    requires Overlays(after, before, d, keys)
    ensures after == d
  {
  }

  /** The keys of all the blocks together. */
  const BlockKeys: set<Key> :=
    StatusKeys + BatteryFlowKeys + BatteryChargeKeys + BatteryLimitsKeys
    + BatteryBmsKeys + PvStringsKeys + PvTotalsKeys + InverterOutputKeys
    + CriticalLoadsKeys + DcAndTemperaturesKeys + DigitalIoKeys + InternalMeterKeys
    + ExternalMeterKeys

  /** Every key belongs to a block. */
  lemma InSomeBlock(k: Key)
    ensures k in BlockKeys
  {
  }

  lemma BlocksCoverEveryKey()
    ensures forall k :: k in BlockKeys
  {
    forall k
      ensures k in BlockKeys
    {
      InSomeBlock(k);
    }
  }

  /** Every block, in the decoder's order, run over `m`: together they
      overwrite every key of every block. */
  function AllBlocks(m: map<Key, Value>, d: map<Key, Value>): (r: map<Key, Value>)
    requires Full(d)
    ensures Overlays(r, m, d, BlockKeys)
  {
    var s1 := StatusBlock(m, d);
    var s2 := BatteryFlowBlock(s1, d);
    var s3 := BatteryChargeBlock(s2, d);
    var s4 := BatteryLimitsBlock(s3, d);
    var s5 := BatteryBmsBlock(s4, d);
    var s6 := PvStringsBlock(s5, d);
    var s7 := PvTotalsBlock(s6, d);
    var s8 := InverterOutputBlock(s7, d);
    var s9 := CriticalLoadsBlock(s8, d);
    var s10 := DcAndTemperaturesBlock(s9, d);
    var s11 := DigitalIoBlock(s10, d);
    var s12 := InternalMeterBlock(s11, d);
    var s13 := ExternalMeterBlock(s12, d);
    StatusBlockOverlays(m, d);
    BatteryFlowBlockOverlays(s1, d);
    OverlaysCompose(s2, s1, m, d, StatusKeys, BatteryFlowKeys);
    BatteryChargeBlockOverlays(s2, d);
    OverlaysCompose(s3, s2, m, d, StatusKeys + BatteryFlowKeys, BatteryChargeKeys);
    BatteryLimitsBlockOverlays(s3, d);
    OverlaysCompose(s4, s3, m, d, StatusKeys + BatteryFlowKeys + BatteryChargeKeys, BatteryLimitsKeys);
    BatteryBmsBlockOverlays(s4, d);
    OverlaysCompose(s5, s4, m, d, StatusKeys + BatteryFlowKeys + BatteryChargeKeys + BatteryLimitsKeys, BatteryBmsKeys);
    PvStringsBlockOverlays(s5, d);
    OverlaysCompose(s6, s5, m, d, StatusKeys + BatteryFlowKeys + BatteryChargeKeys + BatteryLimitsKeys + BatteryBmsKeys, PvStringsKeys);
    PvTotalsBlockOverlays(s6, d);
    OverlaysCompose(s7, s6, m, d, StatusKeys + BatteryFlowKeys + BatteryChargeKeys + BatteryLimitsKeys + BatteryBmsKeys + PvStringsKeys, PvTotalsKeys);
    InverterOutputBlockOverlays(s7, d);
    OverlaysCompose(s8, s7, m, d, StatusKeys + BatteryFlowKeys + BatteryChargeKeys + BatteryLimitsKeys + BatteryBmsKeys + PvStringsKeys + PvTotalsKeys, InverterOutputKeys);
    CriticalLoadsBlockOverlays(s8, d);
    OverlaysCompose(s9, s8, m, d, StatusKeys + BatteryFlowKeys + BatteryChargeKeys + BatteryLimitsKeys + BatteryBmsKeys + PvStringsKeys + PvTotalsKeys + InverterOutputKeys, CriticalLoadsKeys);
    DcAndTemperaturesBlockOverlays(s9, d);
    OverlaysCompose(s10, s9, m, d, StatusKeys + BatteryFlowKeys + BatteryChargeKeys + BatteryLimitsKeys + BatteryBmsKeys + PvStringsKeys + PvTotalsKeys + InverterOutputKeys + CriticalLoadsKeys, DcAndTemperaturesKeys);
    DigitalIoBlockOverlays(s10, d);
    OverlaysCompose(s11, s10, m, d, StatusKeys + BatteryFlowKeys + BatteryChargeKeys + BatteryLimitsKeys + BatteryBmsKeys + PvStringsKeys + PvTotalsKeys + InverterOutputKeys + CriticalLoadsKeys + DcAndTemperaturesKeys, DigitalIoKeys);
    InternalMeterBlockOverlays(s11, d);
    OverlaysCompose(s12, s11, m, d, StatusKeys + BatteryFlowKeys + BatteryChargeKeys + BatteryLimitsKeys + BatteryBmsKeys + PvStringsKeys + PvTotalsKeys + InverterOutputKeys + CriticalLoadsKeys + DcAndTemperaturesKeys + DigitalIoKeys, InternalMeterKeys);
    ExternalMeterBlockOverlays(s12, d);
    OverlaysCompose(s13, s12, m, d, StatusKeys + BatteryFlowKeys + BatteryChargeKeys + BatteryLimitsKeys + BatteryBmsKeys + PvStringsKeys + PvTotalsKeys + InverterOutputKeys + CriticalLoadsKeys + DcAndTemperaturesKeys + DigitalIoKeys + InternalMeterKeys, ExternalMeterKeys);
    s13
  }

  /** Whatever the previous snapshot held, running every block over it gives
      the full snapshot the blocks copy from. */
  lemma AllBlocksReplaceSnapshot(m: map<Key, Value>, d: map<Key, Value>)
    requires Full(d)
    ensures AllBlocks(m, d) == d
  {
    BlocksCoverEveryKey();
    OverlayEverything(AllBlocks(m, d), m, d, BlockKeys);
  }
}
