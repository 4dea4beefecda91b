/** What each key of the register map decodes to, stated directly in terms
    of the registers: the offset it is read from and the conversion applied,
    as Python expressions on the register list would give it. */
module FieldValues {
  import opened RegisterCodec
  import opened Snapshot
  import IngeteamConst

  // Inverter status and lifetime

  lemma TotalOperationTimeField(regs: seq<Word>)
    requires |regs| >= IngeteamConst.RegisterCount
    ensures Field(regs, TotalOperationTime) == Int(U32FromWordsLe(regs, 6))
  {
    assert Layout(TotalOperationTime) == DoubleWord(6);
  }

  lemma StopCodeField(regs: seq<Word>)
    requires |regs| >= IngeteamConst.RegisterCount
    ensures Field(regs, StopCode) == Int(regs[9])
  {
    assert Layout(StopCode) == Unsigned(9);
  }

  lemma AlarmCodeField(regs: seq<Word>)
    requires |regs| >= IngeteamConst.RegisterCount
    ensures Field(regs, AlarmCode) == Int(U32FromWordsLe(regs, 10))
  {
    assert Layout(AlarmCode) == DoubleWord(10);
  }

  lemma StatusField(regs: seq<Word>)
    requires |regs| >= IngeteamConst.RegisterCount
    ensures Field(regs, Status) == Text(Label(IngeteamConst.InverterStatus, regs[15]))
  {
    assert Layout(Status) == CodeLabel(IngeteamConst.InverterStatus, 15);
  }

  lemma WaitingTimeField(regs: seq<Word>)
    requires |regs| >= IngeteamConst.RegisterCount
    ensures Field(regs, WaitingTime) == Int(regs[16])
  {
    assert Layout(WaitingTime) == Unsigned(16);
  }

  // Battery voltage, current and power

  lemma BatteryVoltageField(regs: seq<Word>)
    requires |regs| >= IngeteamConst.RegisterCount
    ensures Field(regs, BatteryVoltage) == Num(Scaled(regs[17], 10))
  {
    assert Layout(BatteryVoltage) == UnsignedScaled(17, 10);
  }

  lemma BatteryCurrentField(regs: seq<Word>)
    requires |regs| >= IngeteamConst.RegisterCount
    ensures Field(regs, BatteryCurrent) == Num(Scaled(DecodeSigned(regs[18]), 100))
  {
    assert Layout(BatteryCurrent) == SignedScaled(18, 100);
  }

  lemma BatteryDischargingPowerField(regs: seq<Word>)
    requires |regs| >= IngeteamConst.RegisterCount
    ensures Field(regs, BatteryDischargingPower) == Int(Max(0, DecodeSigned(regs[19])))
  {
    assert Layout(BatteryDischargingPower) == PositivePart(19);
  }

  lemma BatteryChargingPowerField(regs: seq<Word>)
    requires |regs| >= IngeteamConst.RegisterCount
    ensures Field(regs, BatteryChargingPower) == Int(Max(0, -DecodeSigned(regs[19])))
  {
    assert Layout(BatteryChargingPower) == NegativePart(19);
  }

  // Battery state of charge and health, charging and discharging voltages

  lemma BatteryStateOfChargeField(regs: seq<Word>)
    requires |regs| >= IngeteamConst.RegisterCount
    ensures Field(regs, BatteryStateOfCharge) == Int(regs[20])
  {
    assert Layout(BatteryStateOfCharge) == Unsigned(20);
  }

  lemma BatteryStateOfHealthField(regs: seq<Word>)
    requires |regs| >= IngeteamConst.RegisterCount
    ensures Field(regs, BatteryStateOfHealth) == Int(regs[21])
  {
    assert Layout(BatteryStateOfHealth) == Unsigned(21);
  }

  lemma BatteryChargingVoltageField(regs: seq<Word>)
    requires |regs| >= IngeteamConst.RegisterCount
    ensures Field(regs, BatteryChargingVoltage) == Num(Scaled(regs[22], 10))
  {
    assert Layout(BatteryChargingVoltage) == UnsignedScaled(22, 10);
  }

  lemma BatteryDischargingVoltageField(regs: seq<Word>)
    requires |regs| >= IngeteamConst.RegisterCount
    ensures Field(regs, BatteryDischargingVoltage) == Num(Scaled(regs[23], 10))
  {
    assert Layout(BatteryDischargingVoltage) == UnsignedScaled(23, 10);
  }

  // Battery current limits, status, temperature and discharge limitation

  lemma BatteryChargingCurrentMaxField(regs: seq<Word>)
    requires |regs| >= IngeteamConst.RegisterCount
    ensures Field(regs, BatteryChargingCurrentMax) == Num(Scaled(regs[24], 100))
  {
    assert Layout(BatteryChargingCurrentMax) == UnsignedScaled(24, 100);
  }

  lemma BatteryDischargingCurrentMaxField(regs: seq<Word>)
    requires |regs| >= IngeteamConst.RegisterCount
    ensures Field(regs, BatteryDischargingCurrentMax) == Num(Scaled(regs[25], 100))
  {
    assert Layout(BatteryDischargingCurrentMax) == UnsignedScaled(25, 100);
  }

  lemma BatteryStatusField(regs: seq<Word>)
    requires |regs| >= IngeteamConst.RegisterCount
    ensures Field(regs, BatteryStatus) == Text(Label(IngeteamConst.BatteryStatus, regs[26]))
  {
    assert Layout(BatteryStatus) == CodeLabel(IngeteamConst.BatteryStatus, 26);
  }

  lemma BatteryTempField(regs: seq<Word>)
    requires |regs| >= IngeteamConst.RegisterCount
    ensures Field(regs, BatteryTemp) == Num(Scaled(DecodeSigned(regs[27]), 10))
  {
    assert Layout(BatteryTemp) == SignedScaled(27, 10);
  }

  lemma BatteryBmsAlarmField(regs: seq<Word>)
    requires |regs| >= IngeteamConst.RegisterCount
    ensures Field(regs, BatteryBmsAlarm) == Int(regs[28])
  {
    assert Layout(BatteryBmsAlarm) == Unsigned(28);
  }

  lemma BatteryDischargeLimitationReasonField(regs: seq<Word>)
    requires |regs| >= IngeteamConst.RegisterCount
    ensures Field(regs, BatteryDischargeLimitationReason)
      == Text(Label(IngeteamConst.BatteryLimitationReasons, regs[29]))
  {
    assert Layout(BatteryDischargeLimitationReason) == CodeLabel(IngeteamConst.BatteryLimitationReasons, 29);
  }

  // Battery management system registers

  lemma BatteryVoltageInternalField(regs: seq<Word>)
    requires |regs| >= IngeteamConst.RegisterCount
    ensures Field(regs, BatteryVoltageInternal) == Num(Scaled(regs[30], 10))
  {
    assert Layout(BatteryVoltageInternal) == UnsignedScaled(30, 10);
  }

  lemma BatteryBmsFlagsField(regs: seq<Word>)
    requires |regs| >= IngeteamConst.RegisterCount
    ensures Field(regs, BatteryBmsFlags) == Int(regs[68])
  {
    assert Layout(BatteryBmsFlags) == Unsigned(68);
  }

  lemma BatteryBmsWarningsField(regs: seq<Word>)
    requires |regs| >= IngeteamConst.RegisterCount
    ensures Field(regs, BatteryBmsWarnings) == Int(regs[73])
  {
    assert Layout(BatteryBmsWarnings) == Unsigned(73);
  }

  lemma BatteryBmsErrorsField(regs: seq<Word>)
    requires |regs| >= IngeteamConst.RegisterCount
    ensures Field(regs, BatteryBmsErrors) == Int(regs[74])
  {
    assert Layout(BatteryBmsErrors) == Unsigned(74);
  }

  lemma BatteryBmsFaultsField(regs: seq<Word>)
    requires |regs| >= IngeteamConst.RegisterCount
    ensures Field(regs, BatteryBmsFaults) == Int(regs[75])
  {
    assert Layout(BatteryBmsFaults) == Unsigned(75);
  }

  lemma BatteryChargeLimitationReasonField(regs: seq<Word>)
    requires |regs| >= IngeteamConst.RegisterCount
    ensures Field(regs, BatteryChargeLimitationReason) == Int(regs[77])
  {
    assert Layout(BatteryChargeLimitationReason) == Unsigned(77);
  }

  // PV strings, external PV and EV charger

  lemma Pv1VoltageField(regs: seq<Word>)
    requires |regs| >= IngeteamConst.RegisterCount
    ensures Field(regs, Pv1Voltage) == Int(regs[31])
  {
    assert Layout(Pv1Voltage) == Unsigned(31);
  }

  lemma Pv1CurrentField(regs: seq<Word>)
    requires |regs| >= IngeteamConst.RegisterCount
    ensures Field(regs, Pv1Current) == Num(Scaled(regs[32], 100))
  {
    assert Layout(Pv1Current) == UnsignedScaled(32, 100);
  }

  lemma Pv1PowerField(regs: seq<Word>)
    requires |regs| >= IngeteamConst.RegisterCount
    ensures Field(regs, Pv1Power) == Int(regs[33])
  {
    assert Layout(Pv1Power) == Unsigned(33);
  }

  lemma Pv2VoltageField(regs: seq<Word>)
    requires |regs| >= IngeteamConst.RegisterCount
    ensures Field(regs, Pv2Voltage) == Int(regs[34])
  {
    assert Layout(Pv2Voltage) == Unsigned(34);
  }

  lemma Pv2CurrentField(regs: seq<Word>)
    requires |regs| >= IngeteamConst.RegisterCount
    ensures Field(regs, Pv2Current) == Num(Scaled(regs[35], 100))
  {
    assert Layout(Pv2Current) == UnsignedScaled(35, 100);
  }

  lemma Pv2PowerField(regs: seq<Word>)
    requires |regs| >= IngeteamConst.RegisterCount
    ensures Field(regs, Pv2Power) == Int(regs[36])
  {
    assert Layout(Pv2Power) == Unsigned(36);
  }

  lemma ExternalPvPowerField(regs: seq<Word>)
    requires |regs| >= IngeteamConst.RegisterCount
    ensures Field(regs, ExternalPvPower) == Int(regs[79])
  {
    assert Layout(ExternalPvPower) == Unsigned(79);
  }

  lemma EvPowerField(regs: seq<Word>)
    requires |regs| >= IngeteamConst.RegisterCount
    ensures Field(regs, EvPower) == Int(DecodeSigned(regs[80]))
  {
    assert Layout(EvPower) == Signed(80);
  }

  // PV totals, read back from the values just written

  lemma PvInternalTotalPowerField(regs: seq<Word>)
    requires |regs| >= IngeteamConst.RegisterCount
    ensures Field(regs, PvInternalTotalPower) == Int(regs[33] as int + regs[36] as int)
  {
    assert Layout(PvInternalTotalPower) == Total([33, 36]);
    SumAtTwo(regs, 33, 36);
  }

  lemma PvTotalPowerField(regs: seq<Word>)
    requires |regs| >= IngeteamConst.RegisterCount
    ensures Field(regs, PvTotalPower)
      == Int(regs[33] as int + regs[36] as int + regs[79] as int)
  {
    assert Layout(PvTotalPower) == Total([33, 36, 79]);
    SumAtThree(regs, 33, 36, 79);
  }

  // Inverter output and active-power reduction

  lemma ActivePowerField(regs: seq<Word>)
    requires |regs| >= IngeteamConst.RegisterCount
    ensures Field(regs, ActivePower) == Int(DecodeSigned(regs[37]))
  {
    assert Layout(ActivePower) == Signed(37);
  }

  lemma ReactivePowerField(regs: seq<Word>)
    requires |regs| >= IngeteamConst.RegisterCount
    ensures Field(regs, ReactivePower) == Int(DecodeSigned(regs[38]))
  {
    assert Layout(ReactivePower) == Signed(38);
  }

  lemma PowerFactorField(regs: seq<Word>)
    requires |regs| >= IngeteamConst.RegisterCount
    ensures Field(regs, PowerFactor) == Num(Scaled(DecodeSigned(regs[39]), 1000))
  {
    assert Layout(PowerFactor) == SignedScaled(39, 1000);
  }

  lemma ApReductionRatioField(regs: seq<Word>)
    requires |regs| >= IngeteamConst.RegisterCount
    ensures Field(regs, ApReductionRatio) == Num(Scaled(regs[40], 10))
  {
    assert Layout(ApReductionRatio) == UnsignedScaled(40, 10);
  }

  lemma ApReductionReasonField(regs: seq<Word>)
    requires |regs| >= IngeteamConst.RegisterCount
    ensures Field(regs, ApReductionReason)
      == Text(Label(IngeteamConst.ApReductionReasons, regs[41]))
  {
    assert Layout(ApReductionReason) == CodeLabel(IngeteamConst.ApReductionReasons, 41);
  }

  lemma ReactiveSetpointTypeField(regs: seq<Word>)
    requires |regs| >= IngeteamConst.RegisterCount
    ensures Field(regs, ReactiveSetpointType) == Int(regs[42])
  {
    assert Layout(ReactiveSetpointType) == Unsigned(42);
  }

  // Critical loads

  lemma ClVoltageField(regs: seq<Word>)
    requires |regs| >= IngeteamConst.RegisterCount
    ensures Field(regs, ClVoltage) == Int(regs[43])
  {
    assert Layout(ClVoltage) == Unsigned(43);
  }

  lemma ClCurrentField(regs: seq<Word>)
    requires |regs| >= IngeteamConst.RegisterCount
    ensures Field(regs, ClCurrent) == Num(Scaled(regs[44], 100))
  {
    assert Layout(ClCurrent) == UnsignedScaled(44, 100);
  }

  lemma ClFreqField(regs: seq<Word>)
    requires |regs| >= IngeteamConst.RegisterCount
    ensures Field(regs, ClFreq) == Num(Scaled(regs[45], 100))
  {
    assert Layout(ClFreq) == UnsignedScaled(45, 100);
  }

  lemma ClActivePowerField(regs: seq<Word>)
    requires |regs| >= IngeteamConst.RegisterCount
    ensures Field(regs, ClActivePower) == Int(DecodeSigned(regs[46]))
  {
    assert Layout(ClActivePower) == Signed(46);
  }

  lemma ClReactivePowerField(regs: seq<Word>)
    requires |regs| >= IngeteamConst.RegisterCount
    ensures Field(regs, ClReactivePower) == Int(DecodeSigned(regs[47]))
  {
    assert Layout(ClReactivePower) == Signed(47);
  }

  lemma TotalLoadsPowerField(regs: seq<Word>)
    requires |regs| >= IngeteamConst.RegisterCount
    ensures Field(regs, TotalLoadsPower) == Int(regs[78])
  {
    assert Layout(TotalLoadsPower) == Unsigned(78);
  }

  // DC bus, isolation resistances, temperatures and residual current

  lemma DcBusVoltageField(regs: seq<Word>)
    requires |regs| >= IngeteamConst.RegisterCount
    ensures Field(regs, DcBusVoltage) == Int(regs[54])
  {
    assert Layout(DcBusVoltage) == Unsigned(54);
  }

  lemma PositiveIsolationResistanceField(regs: seq<Word>)
    requires |regs| >= IngeteamConst.RegisterCount
    ensures Field(regs, PositiveIsolationResistance) == Int(regs[59])
  {
    assert Layout(PositiveIsolationResistance) == Unsigned(59);
  }

  lemma NegativeIsolationResistanceField(regs: seq<Word>)
    requires |regs| >= IngeteamConst.RegisterCount
    ensures Field(regs, NegativeIsolationResistance) == Int(regs[60])
  {
    assert Layout(NegativeIsolationResistance) == Unsigned(60);
  }

  lemma TempMod1Field(regs: seq<Word>)
    requires |regs| >= IngeteamConst.RegisterCount
    ensures Field(regs, TempMod1) == Num(Scaled(DecodeSigned(regs[55]), 10))
  {
    assert Layout(TempMod1) == SignedScaled(55, 10);
  }

  lemma TempMod2Field(regs: seq<Word>)
    requires |regs| >= IngeteamConst.RegisterCount
    ensures Field(regs, TempMod2) == Num(Scaled(DecodeSigned(regs[56]), 10))
  {
    assert Layout(TempMod2) == SignedScaled(56, 10);
  }

  lemma TempPcbField(regs: seq<Word>)
    requires |regs| >= IngeteamConst.RegisterCount
    ensures Field(regs, TempPcb) == Num(Scaled(DecodeSigned(regs[57]), 10))
  {
    assert Layout(TempPcb) == SignedScaled(57, 10);
  }

  lemma RmsDiffCurrentField(regs: seq<Word>)
    requires |regs| >= IngeteamConst.RegisterCount
    ensures Field(regs, RmsDiffCurrent) == Num(Scaled(regs[61], 10))
  {
    assert Layout(RmsDiffCurrent) == UnsignedScaled(61, 10);
  }

  // Digital outputs and inputs

  lemma Do1StatusField(regs: seq<Word>)
    requires |regs| >= IngeteamConst.RegisterCount
    ensures Field(regs, Do1Status)
      == Text(LabelOr(IngeteamConst.BooleanStatus, regs[62], "Unknown"))
  {
    assert Layout(Do1Status) == BooleanLabel(62);
  }

  lemma Do2StatusField(regs: seq<Word>)
    requires |regs| >= IngeteamConst.RegisterCount
    ensures Field(regs, Do2Status)
      == Text(LabelOr(IngeteamConst.BooleanStatus, regs[63], "Unknown"))
  {
    assert Layout(Do2Status) == BooleanLabel(63);
  }

  lemma DiDrmStatusField(regs: seq<Word>)
    requires |regs| >= IngeteamConst.RegisterCount
    ensures Field(regs, DiDrmStatus)
      == Text(LabelOr(IngeteamConst.BooleanStatus, regs[64], "Unknown"))
  {
    assert Layout(DiDrmStatus) == BooleanLabel(64);
  }

  lemma Di2StatusField(regs: seq<Word>)
    requires |regs| >= IngeteamConst.RegisterCount
    ensures Field(regs, Di2Status)
      == Text(LabelOr(IngeteamConst.BooleanStatus, regs[65], "Unknown"))
  {
    assert Layout(Di2Status) == BooleanLabel(65);
  }

  lemma Di3StatusField(regs: seq<Word>)
    requires |regs| >= IngeteamConst.RegisterCount
    ensures Field(regs, Di3Status)
      == Text(LabelOr(IngeteamConst.BooleanStatus, regs[66], "Unknown"))
  {
    assert Layout(Di3Status) == BooleanLabel(66);
  }

  // Internal meter

  lemma ImVoltageField(regs: seq<Word>)
    requires |regs| >= IngeteamConst.RegisterCount
    ensures Field(regs, ImVoltage) == Int(regs[48])
  {
    assert Layout(ImVoltage) == Unsigned(48);
  }

  lemma ImCurrentField(regs: seq<Word>)
    requires |regs| >= IngeteamConst.RegisterCount
    ensures Field(regs, ImCurrent) == Num(Scaled(regs[49], 100))
  {
    assert Layout(ImCurrent) == UnsignedScaled(49, 100);
  }

  lemma ImFreqField(regs: seq<Word>)
    requires |regs| >= IngeteamConst.RegisterCount
    ensures Field(regs, ImFreq) == Num(Scaled(regs[50], 100))
  {
    assert Layout(ImFreq) == UnsignedScaled(50, 100);
  }

  lemma ImActivePowerField(regs: seq<Word>)
    requires |regs| >= IngeteamConst.RegisterCount
    ensures Field(regs, ImActivePower) == Int(DecodeSigned(regs[51]))
  {
    assert Layout(ImActivePower) == Signed(51);
  }

  lemma ImReactivePowerField(regs: seq<Word>)
    requires |regs| >= IngeteamConst.RegisterCount
    ensures Field(regs, ImReactivePower) == Int(DecodeSigned(regs[52]))
  {
    assert Layout(ImReactivePower) == Signed(52);
  }

  lemma ImPowerFactorField(regs: seq<Word>)
    requires |regs| >= IngeteamConst.RegisterCount
    ensures Field(regs, ImPowerFactor) == Num(Scaled(DecodeSigned(regs[53]), 1000))
  {
    assert Layout(ImPowerFactor) == SignedScaled(53, 1000);
  }

  // External meter

  lemma EmVoltageField(regs: seq<Word>)
    requires |regs| >= IngeteamConst.RegisterCount
    ensures Field(regs, EmVoltage) == Int(regs[69])
  {
    assert Layout(EmVoltage) == Unsigned(69);
  }

  lemma EmFreqField(regs: seq<Word>)
    requires |regs| >= IngeteamConst.RegisterCount
    ensures Field(regs, EmFreq) == Num(Scaled(regs[70], 10))
  {
    assert Layout(EmFreq) == UnsignedScaled(70, 10);
  }

  lemma EmActivePowerField(regs: seq<Word>)
    requires |regs| >= IngeteamConst.RegisterCount
    ensures Field(regs, EmActivePower) == Int(Max(0, DecodeSigned(regs[71])))
  {
    assert Layout(EmActivePower) == PositivePart(71);
  }

  lemma EmActivePowerReturnedField(regs: seq<Word>)
    requires |regs| >= IngeteamConst.RegisterCount
    ensures Field(regs, EmActivePowerReturned) == Int(Max(0, -DecodeSigned(regs[71])))
  {
    assert Layout(EmActivePowerReturned) == NegativePart(71);
  }

  lemma EmReactivePowerField(regs: seq<Word>)
    requires |regs| >= IngeteamConst.RegisterCount
    ensures Field(regs, EmReactivePower) == Int(DecodeSigned(regs[72]))
  {
    assert Layout(EmReactivePower) == Signed(72);
  }
}
