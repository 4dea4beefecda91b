/** What the snapshot of a complete register window promises: the signed
    power readings split into two non-negative halves, the PV totals add up
    the powers they are computed from, the label fields never fail, the
    32-bit counters fit in 32 bits, no battery status overrides the battery
    readings, every measurement depends only on the registers it reads, and
    registers past the 81st are ignored. */
module SnapshotProperties {
  import opened RegisterCodec
  import opened Snapshot
  import opened FieldValues
  import IngeteamConst

  /** `pos` and `neg` are the two halves of the signed reading `p`: both
      integers, both non-negative, at most one non-zero, and `pos - neg == p`. */
  predicate SplitsInto(pos: Value, neg: Value, p: int)
  {
    && pos.Int? && neg.Int?
    && pos.n >= 0 && neg.n >= 0
    && (pos.n == 0 || neg.n == 0)
    && pos.n - neg.n == p
  }

  /** Battery power, register 19: discharging minus charging is the signed
      reading, and the battery never reports both at once. */
  lemma BatteryPowerSplit(regs: seq<Word>)
    requires |regs| >= IngeteamConst.RegisterCount
    ensures SplitsInto(Decoded(regs)[BatteryDischargingPower], Decoded(regs)[BatteryChargingPower],
                       DecodeSigned(regs[19]))
  {
    BatteryDischargingPowerField(regs);
    BatteryChargingPowerField(regs);
  }

  /** Grid power at the external meter, register 71: imported minus returned
      is the signed reading. */
  lemma GridPowerSplit(regs: seq<Word>)
    requires |regs| >= IngeteamConst.RegisterCount
    ensures SplitsInto(Decoded(regs)[EmActivePower], Decoded(regs)[EmActivePowerReturned],
                       DecodeSigned(regs[71]))
  {
    EmActivePowerField(regs);
    EmActivePowerReturnedField(regs);
  }

  /** The PV totals are sums of the snapshot's own PV powers. */
  lemma PvTotalsAddUp(regs: seq<Word>)
    requires |regs| >= IngeteamConst.RegisterCount
    ensures var d := Decoded(regs);
      && d[Pv1Power].Int? && d[Pv2Power].Int? && d[ExternalPvPower].Int?
      && d[PvInternalTotalPower] == Int(d[Pv1Power].n + d[Pv2Power].n)
      && d[PvTotalPower] == Int(d[PvInternalTotalPower].n + d[ExternalPvPower].n)
  {
    Pv1PowerField(regs);
    Pv2PowerField(regs);
    ExternalPvPowerField(regs);
    PvInternalTotalPowerField(regs);
    PvTotalPowerField(regs);
  }

  /** A label field: the table's label when the code is one of the table's
      codes `0..last`, the "Unknown (<code>)" fallback otherwise. */
  predicate LabelledBy(v: Value, table: map<int, string>, last: nat, code: nat)
  {
    && v.Text?
    && (code <= last ==> code in table && v.s == table[code])
    && (code > last ==> v.s == UnknownLabel(code))
  }

  /** The four code fields never fail: a known code gives its label and any
      other code gives the fallback that names it. */
  lemma LabelFieldsNeverFail(regs: seq<Word>)
    requires |regs| >= IngeteamConst.RegisterCount
    ensures LabelledBy(Decoded(regs)[Status], IngeteamConst.InverterStatus, 10, regs[15])
    ensures LabelledBy(Decoded(regs)[BatteryStatus], IngeteamConst.BatteryStatus, 10, regs[26])
    ensures LabelledBy(Decoded(regs)[BatteryDischargeLimitationReason],
                       IngeteamConst.BatteryLimitationReasons, 12, regs[29])
    ensures LabelledBy(Decoded(regs)[ApReductionReason], IngeteamConst.ApReductionReasons, 16, regs[41])
  {
    StatusField(regs);
    BatteryStatusField(regs);
    BatteryDischargeLimitationReasonField(regs);
    ApReductionReasonField(regs);
    IngeteamConst.InverterStatusKeys();
    IngeteamConst.BatteryStatusKeys();
    IngeteamConst.BatteryLimitationReasonsKeys();
    IngeteamConst.ApReductionReasonsKeys();
  }

  /** No label of `table` has the shape of the fallback label. */
  ghost predicate NoFallbackLabel(table: map<int, string>)
  {
    forall c :: c in table ==> !IsUnknownLabel(table[c])
  }

  // None of the four code tables has a label that could be mistaken for
  // the fallback: every label starts with a letter other than 'U'.

  lemma InverterStatusNoFallbackLabel()
    ensures NoFallbackLabel(IngeteamConst.InverterStatus)
  {
    IngeteamConst.InverterStatusKeys();
    var t := IngeteamConst.InverterStatus;
    assert t[0][0] != 'U' && t[1][0] != 'U' && t[2][0] != 'U' && t[3][0] != 'U' && t[4][0] != 'U' && t[5][0] != 'U' && t[6][0] != 'U' && t[7][0] != 'U' && t[8][0] != 'U' && t[9][0] != 'U' && t[10][0] != 'U';
    forall c | c in t
      ensures !IsUnknownLabel(t[c])
    {
      NotUnknownLabel(t[c]);
    }
  }

  lemma BatteryStatusNoFallbackLabel()
    ensures NoFallbackLabel(IngeteamConst.BatteryStatus)
  {
    IngeteamConst.BatteryStatusKeys();
    var t := IngeteamConst.BatteryStatus;
    assert t[0][0] != 'U' && t[1][0] != 'U' && t[2][0] != 'U' && t[3][0] != 'U' && t[4][0] != 'U' && t[5][0] != 'U' && t[6][0] != 'U' && t[7][0] != 'U' && t[8][0] != 'U' && t[9][0] != 'U' && t[10][0] != 'U';
    forall c | c in t
      ensures !IsUnknownLabel(t[c])
    {
      NotUnknownLabel(t[c]);
    }
  }

  lemma BatteryLimitationReasonsNoFallbackLabel()
    ensures NoFallbackLabel(IngeteamConst.BatteryLimitationReasons)
  {
    IngeteamConst.BatteryLimitationReasonsKeys();
    var t := IngeteamConst.BatteryLimitationReasons;
    assert t[0][0] != 'U' && t[1][0] != 'U' && t[2][0] != 'U' && t[3][0] != 'U' && t[4][0] != 'U' && t[5][0] != 'U' && t[6][0] != 'U' && t[7][0] != 'U' && t[8][0] != 'U' && t[9][0] != 'U' && t[10][0] != 'U' && t[11][0] != 'U' && t[12][0] != 'U';
    forall c | c in t
      ensures !IsUnknownLabel(t[c])
    {
      NotUnknownLabel(t[c]);
    }
  }

  lemma ApReductionReasonsNoFallbackLabel()
    ensures NoFallbackLabel(IngeteamConst.ApReductionReasons)
  {
    IngeteamConst.ApReductionReasonsKeys();
    var t := IngeteamConst.ApReductionReasons;
    assert t[0][0] != 'U' && t[1][0] != 'U' && t[2][0] != 'U' && t[3][0] != 'U' && t[4][0] != 'U' && t[5][0] != 'U' && t[6][0] != 'U' && t[7][0] != 'U' && t[8][0] != 'U' && t[9][0] != 'U' && t[10][0] != 'U' && t[11][0] != 'U' && t[12][0] != 'U' && t[13][0] != 'U' && t[14][0] != 'U' && t[15][0] != 'U' && t[16][0] != 'U';
    forall c | c in t
      ensures !IsUnknownLabel(t[c])
    {
      NotUnknownLabel(t[c]);
    }
  }

  /** A label field says whether its code was known: it has the fallback's
      shape exactly when the code is past the table, and then names it. */
  predicate RevealsCode(v: Value, last: nat, code: nat)
  {
    && v.Text?
    && (IsUnknownLabel(v.s) <==> code > last)
    && (code > last ==> UnknownCode(v.s) == code)
  }

  /** With a table of codes `0..last`, none of whose labels looks like
      the fallback, a label field reveals its code. */
  lemma LabelRevealsCode(v: Value, table: map<int, string>, last: nat, code: nat)
    requires LabelledBy(v, table, last, code)
    requires NoFallbackLabel(table)
    requires table.Keys == IngeteamConst.CodesUpTo(last)
    ensures RevealsCode(v, last, code)
  {
    LabelDistinguishesUnknown(table, code);
  }

  lemma LabelFieldsRevealUnknownCodes(regs: seq<Word>)
    requires |regs| >= IngeteamConst.RegisterCount
    ensures RevealsCode(Decoded(regs)[Status], 10, regs[15])
    ensures RevealsCode(Decoded(regs)[BatteryStatus], 10, regs[26])
    ensures RevealsCode(Decoded(regs)[BatteryDischargeLimitationReason], 12, regs[29])
    ensures RevealsCode(Decoded(regs)[ApReductionReason], 16, regs[41])
  {
    var d := Decoded(regs);
    LabelFieldsNeverFail(regs);
    InverterStatusNoFallbackLabel();
    BatteryStatusNoFallbackLabel();
    BatteryLimitationReasonsNoFallbackLabel();
    ApReductionReasonsNoFallbackLabel();
    IngeteamConst.InverterStatusKeys();
    IngeteamConst.BatteryStatusKeys();
    IngeteamConst.BatteryLimitationReasonsKeys();
    IngeteamConst.ApReductionReasonsKeys();
    LabelRevealsCode(d[Status], IngeteamConst.InverterStatus, 10, regs[15]);
    LabelRevealsCode(d[BatteryStatus], IngeteamConst.BatteryStatus, 10, regs[26]);
    LabelRevealsCode(d[BatteryDischargeLimitationReason], IngeteamConst.BatteryLimitationReasons, 12, regs[29]);
    LabelRevealsCode(d[ApReductionReason], IngeteamConst.ApReductionReasons, 16, regs[41]);
  }

  /** A digital input or output: "Off" for 0, "On" for 1, "Unknown" for
      anything else. */
  predicate SwitchState(v: Value, code: nat)
  {
    v == Text(if code == 0 then "Off" else if code == 1 then "On" else "Unknown")
  }

  lemma DigitalIoStates(regs: seq<Word>)
    requires |regs| >= IngeteamConst.RegisterCount
    ensures SwitchState(Decoded(regs)[Do1Status], regs[62])
    ensures SwitchState(Decoded(regs)[Do2Status], regs[63])
    ensures SwitchState(Decoded(regs)[DiDrmStatus], regs[64])
    ensures SwitchState(Decoded(regs)[Di2Status], regs[65])
    ensures SwitchState(Decoded(regs)[Di3Status], regs[66])
  {
    Do1StatusField(regs);
    Do2StatusField(regs);
    DiDrmStatusField(regs);
    Di2StatusField(regs);
    Di3StatusField(regs);
    IngeteamConst.BooleanStatusKeys();
  }

  /** The operation-time and alarm counters are 32-bit values, low word
      first. */
  lemma CountersAreU32(regs: seq<Word>)
    requires |regs| >= IngeteamConst.RegisterCount
    ensures var d := Decoded(regs);
      && d[TotalOperationTime] == Int(regs[7] as int * 0x1_0000 + regs[6] as int)
      && d[AlarmCode] == Int(regs[11] as int * 0x1_0000 + regs[10] as int)
      && 0 <= d[TotalOperationTime].n < 0x1_0000_0000
      && 0 <= d[AlarmCode].n < 0x1_0000_0000
  {
    TotalOperationTimeField(regs);
    AlarmCodeField(regs);
  }

  /** Scaled readings are the raw register over the scale factor, exactly:
      battery voltage in tenths of a volt, battery current and power factor
      signed, in hundredths and thousandths. */
  lemma ScaledReadings(regs: seq<Word>)
    requires |regs| >= IngeteamConst.RegisterCount
    ensures var d := Decoded(regs);
      && d[BatteryVoltage].Num? && d[BatteryVoltage].x * 10.0 == regs[17] as real
      && d[BatteryCurrent].Num? && d[BatteryCurrent].x * 100.0 == DecodeSigned(regs[18]) as real
      && d[PowerFactor].Num? && d[PowerFactor].x * 1000.0 == DecodeSigned(regs[39]) as real
      && -32.768 <= d[PowerFactor].x <= 32.767
  {
    BatteryVoltageField(regs);
    BatteryCurrentField(regs);
    PowerFactorField(regs);
  }

  /** The decoder has no override for the "No Configured" battery status
      (code 7): the battery readings keep their raw decoded values. */
  lemma NotConfiguredBatteryKeepsReadings(regs: seq<Word>)
    requires |regs| >= IngeteamConst.RegisterCount
    requires regs[26] == 7
    ensures Decoded(regs)[BatteryStatus] == Text("No Configured")
    ensures Decoded(regs)[BatteryVoltage] == Num(Scaled(regs[17], 10))
    ensures Decoded(regs)[BatteryStateOfCharge] == Int(regs[20])
    ensures SplitsInto(Decoded(regs)[BatteryDischargingPower], Decoded(regs)[BatteryChargingPower],
                       DecodeSigned(regs[19]))
  {
    BatteryStatusField(regs);
    BatteryVoltageField(regs);
    BatteryStateOfChargeField(regs);
    BatteryPowerSplit(regs);
    IngeteamConst.BatteryStatusNotConfigured();
  }

  /** Each measurement depends only on the registers its decoding reads. */
  lemma FieldReadsOnly(r1: seq<Word>, r2: seq<Word>, k: Key)
    requires |r1| >= IngeteamConst.RegisterCount && |r2| >= IngeteamConst.RegisterCount
    requires forall i :: 0 <= i < IngeteamConst.RegisterCount && i in Reads(Layout(k)) ==> r1[i] == r2[i]
    ensures Field(r1, k) == Field(r2, k)
  {
    DecodeReadsOnly(Layout(k), r1, r2);
  }

  /** A response longer than 81 registers decodes as its first 81. */
  lemma ExtraRegistersIgnored(regs: seq<Word>)
    requires |regs| >= IngeteamConst.RegisterCount
    ensures Decoded(regs) == Decoded(regs[..IngeteamConst.RegisterCount])
  {
    var window := regs[..IngeteamConst.RegisterCount];
    forall k
      ensures Decoded(regs)[k] == Decoded(window)[k]
    {
      FieldReadsOnly(regs, window, k);
    }
  }
}
