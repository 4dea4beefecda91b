# Ingeteam inverter Modbus hub

A Dafny model of the polling hub of the `ingeteam_modbus` Home Assistant
integration, together with proofs about it. The hub is `IngeteamModbusHub` in
`custom_components/ingeteam_modbus/__init__.py`. It owns one Modbus/TCP client
to an Ingeteam inverter, and it keeps a list of subscriber callbacks. The first
subscriber connects the client and starts an interval timer. On each tick the
hub does the following:

1. It checks the socket and reconnects when needed.
2. It reads 81 input registers from address 0.
3. It decodes them into the `data` dictionary of about 70 measurements.
4. When that succeeded, it calls every subscriber.

The last subscriber to leave cancels the timer and closes the client.

The model has these modules:

- `IngeteamConst` (`const.dfy`): the defaults and the code-to-label tables of
  `const.py`, as `map<int, string>` constants, with their exact key sets.
- `RegisterCodec` (`codec.dfy`): the primitive decoders, written as
  functions.
  - `_decode_signed` is defined with the bitwise `&` of the source, on
    naturals.
  - `_u32_from_words_le` is defined with `<<` and `|`.
  - It also holds exact fixed-point scaling (`real`), the `max(0, p)` /
    `max(0, -p)` power split, and the `dict.get(code, f"Unknown ({code})")`
    label lookup with its decimal rendering.
- `Snapshot` (`snapshot.dfy`): the register map.
  - Each measurement key is a constructor of `Key`, and `Name` gives its
    dictionary key string.
  - `Layout` says from which registers, and how, each key is decoded.
  - `Decoded(regs)` is the snapshot a complete window yields. It is the
    specification of `read_modbus_data`.
- `FieldValues` (`fields.dfy`): one lemma per key, stating the key's decoded value as the
  source's expression on the register list.
- `DecoderSections` (`sections.dfy`): the decoder's writes, grouped in the
  blocks the source's comments give. It also holds the proof that running
  every block in order, over any previous `data`, yields `Decoded(regs)`.
- `ModbusHub` (`hub.dfy`): the hub as a class.
  - `sensors`, `timerActive` (`_unsub_interval_method` is set) and `data` are
    fields the methods update in place.
  - `read_modbus_data` is imperative: 70 map updates, block by block, after
    the two guards.
  - The Modbus client, the timer and the callbacks are outside the program.
    What they return is passed in as a parameter (`socketOpen`,
    `connectResult`, a `ReadResult`). Every call the hub makes to them is
    appended to the field `trace`, so lifecycle facts can be stated as
    counts of events.
- `SnapshotProperties` (`properties.dfy`): what a decoded snapshot promises.
  - The power splits and the PV totals.
  - Label fields never fail, and an unknown code can be read back from its
    label.
  - Each measurement depends only on its own registers.
  - Registers past the 81st are ignored.

`Valid()` is preserved by subscribe, unsubscribe and refresh. It says that
polling is active exactly while the subscriber list is non-empty, and that
every `TimerStart` in the trace except the running one has a matching
`TimerCancel`.

Two points of behaviour that are easy to get wrong:

- The decoder applies no override when the battery status is 7 ("No
  Configured"): the battery readings keep their decoded values, as
  `NotConfiguredBatteryKeepsReadings` states.
- The client timeout `max(3, scan_interval - 1)` is shorter than the scan
  interval only for intervals above 3 seconds; for an interval of 3 or less
  it is not below the interval, as `TimeoutBeforeNextTick` states.

## Model

| member | source | states |
|---|---|---|
| RegisterCodec.BitAnd | custom_components/ingeteam_modbus/__init__.py:211 | Python's `a & b` on non-negative ints, bit by bit; the result is at most either operand |
| RegisterCodec.BitOr | custom_components/ingeteam_modbus/__init__.py:225 | Python's `a \| b` on non-negative ints, bit by bit; the result is at least either operand and at most their sum |
| RegisterCodec.ShiftLeft | custom_components/ingeteam_modbus/__init__.py:225 | Python's `a << k`: the low `k` bits of the result are clear and dividing by 2^k gives `a` back |
| RegisterCodec.MulDivExact | custom_components/ingeteam_modbus/__init__.py:225 | dividing `a * p` by a positive `p` gives `a` with remainder 0, which `<<` relies on |
| RegisterCodec.BitAndPow2 | custom_components/ingeteam_modbus/__init__.py:211 | masking with a single bit `2^k` (as `value & 0x8000` does) gives `2^k` exactly when bit `k` is set, else 0 |
| RegisterCodec.TopBit | custom_components/ingeteam_modbus/__init__.py:211 | bit 15 of a 16-bit word is set exactly when the word is at least 0x8000 |
| RegisterCodec.BitOrShifted | custom_components/ingeteam_modbus/__init__.py:225 | `high << k` or-ed bit by bit with `low` is `high * 2^k + low` when `low < 2^k` |
| RegisterCodec.DecodeSigned | custom_components/ingeteam_modbus/__init__.py:208-213 | `_decode_signed(w)` is `w` when bit 0x8000 is clear and `w - 65536` when it is set; the result lies in [-32768, 32767] and is congruent to `w` modulo 2^16 |
| RegisterCodec.EncodeSigned | custom_components/ingeteam_modbus/__init__.py:208-213 | the register a signed value in [-32768, 32767] is stored as (the inverse partner of `_decode_signed`) |
| RegisterCodec.DecodeEncodeSigned | custom_components/ingeteam_modbus/__init__.py:208-213 | decoding the stored register gives back every 16-bit signed value |
| RegisterCodec.EncodeDecodeSigned | custom_components/ingeteam_modbus/__init__.py:208-213 | every register is the stored form of its decoded value, so decoding is a bijection on 16-bit words |
| RegisterCodec.U32FromWordsLe | custom_components/ingeteam_modbus/__init__.py:215-225 | `_u32_from_words_le(regs, i)` is `regs[i+1] * 65536 + regs[i]` (low word first) and is below 2^32 |
| RegisterCodec.WordsLe | custom_components/ingeteam_modbus/__init__.py:215-225 | the two registers, low word first, that a device writes for a 32-bit value (the inverse partner) |
| RegisterCodec.U32WordsRoundTrip | custom_components/ingeteam_modbus/__init__.py:215-225 | combining the two words of any 32-bit value gives the value back |
| RegisterCodec.WordsU32RoundTrip | custom_components/ingeteam_modbus/__init__.py:215-225 | splitting the combined value gives back exactly the two registers it came from, so no register pair is lost |
| RegisterCodec.DivModWord | custom_components/ingeteam_modbus/__init__.py:225 | splitting `h * 65536 + l` at 2^16 gives back `h` and `l` |
| RegisterCodec.Scaled | custom_components/ingeteam_modbus/__init__.py:258 | `raw / divisor` as an exact rational: it times the divisor is `raw`, and its sign is the sign of `raw` |
| RegisterCodec.Max | custom_components/ingeteam_modbus/__init__.py:261-262 | Python's `max` of two ints is one of them and at least both |
| RegisterCodec.SplitPower | custom_components/ingeteam_modbus/__init__.py:260-262 | `(max(0, p), max(0, -p))`: the halves differ by exactly `p` and at least one is 0 |
| RegisterCodec.DecimalString | custom_components/ingeteam_modbus/__init__.py:254 | the digits `f"{code}"` prints: at least one digit, no leading zero |
| RegisterCodec.DecimalRoundTrip | custom_components/ingeteam_modbus/__init__.py:254 | the digits printed for a code denote that code |
| RegisterCodec.DecimalStringInjective | custom_components/ingeteam_modbus/__init__.py:254 | different codes print differently |
| RegisterCodec.UnknownLabel | custom_components/ingeteam_modbus/__init__.py:254 | the fallback `f"Unknown ({code})"`: it starts with `Unknown (`, ends with `)` and has at least one character between them |
| RegisterCodec.NotUnknownLabel | custom_components/ingeteam_modbus/__init__.py:254 | a string whose first letter is not `U` is never mistaken for a fallback label |
| RegisterCodec.Label | custom_components/ingeteam_modbus/__init__.py:254 | `table.get(code, f"Unknown ({code})")`: the table's label for a known code, the fallback for any other code |
| RegisterCodec.LabelOr | custom_components/ingeteam_modbus/__init__.py:317 | `table.get(code, fallback)`: the table's label for a known code, the fallback otherwise |
| RegisterCodec.UnknownLabelRoundTrip | custom_components/ingeteam_modbus/__init__.py:254 | the fallback label is recognisable as one, and the code can be read back from it |
| RegisterCodec.LabelDistinguishesUnknown | custom_components/ingeteam_modbus/__init__.py:254 | when no label of a table looks like a fallback, the label shows whether the code was known, and which code an unknown one was |
| IngeteamConst.DefaultsArePositive | custom_components/ingeteam_modbus/const.py:3-5 | `DEFAULT_MODBUS_ADDRESS` is 1, `DEFAULT_SCAN_INTERVAL` 10 and `DEFAULT_PORT` 502, all positive |
| IngeteamConst.CodesUpTo | custom_components/ingeteam_modbus/const.py:92-171 | the set of codes `0..n`, the key set of every table |
| IngeteamConst.BooleanStatusKeys | custom_components/ingeteam_modbus/const.py:92-95 | `BOOLEAN_STATUS` has exactly the codes 0 and 1 |
| IngeteamConst.BooleanStatusLabels | custom_components/ingeteam_modbus/const.py:92-95 | `BOOLEAN_STATUS` maps 0 to "Off" and 1 to "On" |
| IngeteamConst.InverterStatusKeys | custom_components/ingeteam_modbus/const.py:97-109 | `INVERTER_STATUS` has exactly the codes 0..10 |
| IngeteamConst.BatteryStatusKeys | custom_components/ingeteam_modbus/const.py:111-123 | `BATTERY_STATUS` has exactly the codes 0..10 |
| IngeteamConst.BatteryStatusNotConfigured | custom_components/ingeteam_modbus/const.py:119 | `BATTERY_STATUS[7]` is "No Configured" |
| IngeteamConst.BatteryBmsAlarmsKeys | custom_components/ingeteam_modbus/const.py:125-135 | `BATTERY_BMS_ALARMS` has exactly the codes 0..8 |
| IngeteamConst.BatteryLimitationReasonsKeys | custom_components/ingeteam_modbus/const.py:137-151 | `BATTERY_LIMITATION_REASONS` has exactly the codes 0..12 |
| IngeteamConst.ApReductionReasonsKeys | custom_components/ingeteam_modbus/const.py:153-171 | `AP_REDUCTION_REASONS` has exactly the codes 0..16 |
| IngeteamConst.NoLimitationIsCodeZero | custom_components/ingeteam_modbus/const.py:137-171 | code 0 is "No limitation" in both limitation tables |
| Snapshot.Key.Name | custom_components/ingeteam_modbus/__init__.py:246-335 | the `self.data` key string of each of the 70 measurements the decoder writes; none is empty |
| Snapshot.Layout | custom_components/ingeteam_modbus/__init__.py:238-335 | the register map of the decoder, one decoding per key; every register index it reads is below 81, so after the length guard no read is out of bounds |
| Snapshot.Decode | custom_components/ingeteam_modbus/__init__.py:244-335 | each decoding rule of the decoder: the value is a float (here an exact rational) exactly for the scaled readings and a string exactly for the label readings; it is an int for every other rule |
| Snapshot.SumAtReadsOnly | custom_components/ingeteam_modbus/__init__.py:293-294 | a sum of registers depends only on the summed registers |
| Snapshot.DecodeReadsOnly | custom_components/ingeteam_modbus/__init__.py:244-335 | a decoding depends on no register outside the ones it reads |
| Snapshot.Field | custom_components/ingeteam_modbus/__init__.py:244-335 | the value the decoder writes for a key; it is decoded from the 81-register window alone |
| Snapshot.Decoded | custom_components/ingeteam_modbus/__init__.py:244-335 | a complete window yields a snapshot that holds every key, each with its `Layout` decoding |
| FieldValues.TotalOperationTimeField | custom_components/ingeteam_modbus/__init__.py:246 | `total_operation_time` is registers 6 (low word) and 7 (high word) as one 32-bit value |
| FieldValues.StopCodeField | custom_components/ingeteam_modbus/__init__.py:248 | `stop_code` is register 9, unsigned |
| FieldValues.AlarmCodeField | custom_components/ingeteam_modbus/__init__.py:251 | `alarm_code` is registers 10 (low word) and 11 (high word) as one 32-bit value |
| FieldValues.StatusField | custom_components/ingeteam_modbus/__init__.py:253-254 | `status` is the `INVERTER_STATUS` label of register 15, or `Unknown (<code>)` |
| FieldValues.WaitingTimeField | custom_components/ingeteam_modbus/__init__.py:255 | `waiting_time` is register 16, unsigned |
| FieldValues.BatteryVoltageField | custom_components/ingeteam_modbus/__init__.py:258 | `battery_voltage` is register 17 divided by 10, as an exact rational |
| FieldValues.BatteryCurrentField | custom_components/ingeteam_modbus/__init__.py:259 | `battery_current` is signed register 18 divided by 100, as an exact rational |
| FieldValues.BatteryDischargingPowerField | custom_components/ingeteam_modbus/__init__.py:260-261 | `battery_discharging_power` is `max(0, p)` for the signed register 19 |
| FieldValues.BatteryChargingPowerField | custom_components/ingeteam_modbus/__init__.py:260-262 | `battery_charging_power` is `max(0, -p)` for the signed register 19 |
| FieldValues.BatteryStateOfChargeField | custom_components/ingeteam_modbus/__init__.py:263 | `battery_state_of_charge` is register 20, unsigned |
| FieldValues.BatteryStateOfHealthField | custom_components/ingeteam_modbus/__init__.py:264 | `battery_state_of_health` is register 21, unsigned |
| FieldValues.BatteryChargingVoltageField | custom_components/ingeteam_modbus/__init__.py:265 | `battery_charging_voltage` is register 22 divided by 10, as an exact rational |
| FieldValues.BatteryDischargingVoltageField | custom_components/ingeteam_modbus/__init__.py:266 | `battery_discharging_voltage` is register 23 divided by 10, as an exact rational |
| FieldValues.BatteryChargingCurrentMaxField | custom_components/ingeteam_modbus/__init__.py:267 | `battery_charging_current_max` is register 24 divided by 100, as an exact rational |
| FieldValues.BatteryDischargingCurrentMaxField | custom_components/ingeteam_modbus/__init__.py:268 | `battery_discharging_current_max` is register 25 divided by 100, as an exact rational |
| FieldValues.BatteryStatusField | custom_components/ingeteam_modbus/__init__.py:269-270 | `battery_status` is the `BATTERY_STATUS` label of register 26, or `Unknown (<code>)` |
| FieldValues.BatteryTempField | custom_components/ingeteam_modbus/__init__.py:271 | `battery_temp` is signed register 27 divided by 10, as an exact rational |
| FieldValues.BatteryBmsAlarmField | custom_components/ingeteam_modbus/__init__.py:272 | `battery_bms_alarm` is register 28, unsigned |
| FieldValues.BatteryDischargeLimitationReasonField | custom_components/ingeteam_modbus/__init__.py:273-276 | `battery_discharge_limitation_reason` is the `BATTERY_LIMITATION_REASONS` label of register 29, or `Unknown (<code>)` |
| FieldValues.BatteryVoltageInternalField | custom_components/ingeteam_modbus/__init__.py:277 | `battery_voltage_internal` is register 30 divided by 10, as an exact rational |
| FieldValues.BatteryBmsFlagsField | custom_components/ingeteam_modbus/__init__.py:278 | `battery_bms_flags` is register 68, unsigned |
| FieldValues.BatteryBmsWarningsField | custom_components/ingeteam_modbus/__init__.py:279 | `battery_bms_warnings` is register 73, unsigned |
| FieldValues.BatteryBmsErrorsField | custom_components/ingeteam_modbus/__init__.py:280 | `battery_bms_errors` is register 74, unsigned |
| FieldValues.BatteryBmsFaultsField | custom_components/ingeteam_modbus/__init__.py:281 | `battery_bms_faults` is register 75, unsigned |
| FieldValues.BatteryChargeLimitationReasonField | custom_components/ingeteam_modbus/__init__.py:282 | `battery_charge_limitation_reason` is register 77, unsigned |
| FieldValues.Pv1VoltageField | custom_components/ingeteam_modbus/__init__.py:285 | `pv1_voltage` is register 31, unsigned |
| FieldValues.Pv1CurrentField | custom_components/ingeteam_modbus/__init__.py:286 | `pv1_current` is register 32 divided by 100, as an exact rational |
| FieldValues.Pv1PowerField | custom_components/ingeteam_modbus/__init__.py:287 | `pv1_power` is register 33, unsigned |
| FieldValues.Pv2VoltageField | custom_components/ingeteam_modbus/__init__.py:288 | `pv2_voltage` is register 34, unsigned |
| FieldValues.Pv2CurrentField | custom_components/ingeteam_modbus/__init__.py:289 | `pv2_current` is register 35 divided by 100, as an exact rational |
| FieldValues.Pv2PowerField | custom_components/ingeteam_modbus/__init__.py:290 | `pv2_power` is register 36, unsigned |
| FieldValues.ExternalPvPowerField | custom_components/ingeteam_modbus/__init__.py:291 | `external_pv_power` is register 79, unsigned |
| FieldValues.EvPowerField | custom_components/ingeteam_modbus/__init__.py:292 | `ev_power` is register 80 as a signed 16-bit value |
| FieldValues.PvInternalTotalPowerField | custom_components/ingeteam_modbus/__init__.py:293 | `pv_internal_total_power` is register 33 plus register 36 (`pv1_power + pv2_power`) |
| FieldValues.PvTotalPowerField | custom_components/ingeteam_modbus/__init__.py:294 | `pv_total_power` is registers 33, 36 and 79 added (`pv_internal_total_power + external_pv_power`) |
| FieldValues.ActivePowerField | custom_components/ingeteam_modbus/__init__.py:297 | `active_power` is register 37 as a signed 16-bit value |
| FieldValues.ReactivePowerField | custom_components/ingeteam_modbus/__init__.py:298 | `reactive_power` is register 38 as a signed 16-bit value |
| FieldValues.PowerFactorField | custom_components/ingeteam_modbus/__init__.py:299 | `power_factor` is signed register 39 divided by 1000, as an exact rational |
| FieldValues.ApReductionRatioField | custom_components/ingeteam_modbus/__init__.py:300 | `ap_reduction_ratio` is register 40 divided by 10, as an exact rational |
| FieldValues.ApReductionReasonField | custom_components/ingeteam_modbus/__init__.py:301-302 | `ap_reduction_reason` is the `AP_REDUCTION_REASONS` label of register 41, or `Unknown (<code>)` |
| FieldValues.ReactiveSetpointTypeField | custom_components/ingeteam_modbus/__init__.py:303 | `reactive_setpoint_type` is register 42, unsigned |
| FieldValues.ClVoltageField | custom_components/ingeteam_modbus/__init__.py:304 | `cl_voltage` is register 43, unsigned |
| FieldValues.ClCurrentField | custom_components/ingeteam_modbus/__init__.py:305 | `cl_current` is register 44 divided by 100, as an exact rational |
| FieldValues.ClFreqField | custom_components/ingeteam_modbus/__init__.py:306 | `cl_freq` is register 45 divided by 100, as an exact rational |
| FieldValues.ClActivePowerField | custom_components/ingeteam_modbus/__init__.py:307 | `cl_active_power` is register 46 as a signed 16-bit value |
| FieldValues.ClReactivePowerField | custom_components/ingeteam_modbus/__init__.py:308 | `cl_reactive_power` is register 47 as a signed 16-bit value |
| FieldValues.TotalLoadsPowerField | custom_components/ingeteam_modbus/__init__.py:309 | `total_loads_power` is register 78, unsigned |
| FieldValues.DcBusVoltageField | custom_components/ingeteam_modbus/__init__.py:310 | `dc_bus_voltage` is register 54, unsigned |
| FieldValues.PositiveIsolationResistanceField | custom_components/ingeteam_modbus/__init__.py:311 | `positive_isolation_resistance` is register 59, unsigned |
| FieldValues.NegativeIsolationResistanceField | custom_components/ingeteam_modbus/__init__.py:312 | `negative_isolation_resistance` is register 60, unsigned |
| FieldValues.TempMod1Field | custom_components/ingeteam_modbus/__init__.py:313 | `temp_mod_1` is signed register 55 divided by 10, as an exact rational |
| FieldValues.TempMod2Field | custom_components/ingeteam_modbus/__init__.py:314 | `temp_mod_2` is signed register 56 divided by 10, as an exact rational |
| FieldValues.TempPcbField | custom_components/ingeteam_modbus/__init__.py:315 | `temp_pcb` is signed register 57 divided by 10, as an exact rational |
| FieldValues.RmsDiffCurrentField | custom_components/ingeteam_modbus/__init__.py:316 | `rms_diff_current` is register 61 divided by 10, as an exact rational |
| FieldValues.Do1StatusField | custom_components/ingeteam_modbus/__init__.py:317 | `do_1_status` is the `BOOLEAN_STATUS` label of register 62, or `Unknown` |
| FieldValues.Do2StatusField | custom_components/ingeteam_modbus/__init__.py:318 | `do_2_status` is the `BOOLEAN_STATUS` label of register 63, or `Unknown` |
| FieldValues.DiDrmStatusField | custom_components/ingeteam_modbus/__init__.py:319 | `di_drm_status` is the `BOOLEAN_STATUS` label of register 64, or `Unknown` |
| FieldValues.Di2StatusField | custom_components/ingeteam_modbus/__init__.py:320 | `di_2_status` is the `BOOLEAN_STATUS` label of register 65, or `Unknown` |
| FieldValues.Di3StatusField | custom_components/ingeteam_modbus/__init__.py:321 | `di_3_status` is the `BOOLEAN_STATUS` label of register 66, or `Unknown` |
| FieldValues.ImVoltageField | custom_components/ingeteam_modbus/__init__.py:324 | `im_voltage` is register 48, unsigned |
| FieldValues.ImCurrentField | custom_components/ingeteam_modbus/__init__.py:325 | `im_current` is register 49 divided by 100, as an exact rational |
| FieldValues.ImFreqField | custom_components/ingeteam_modbus/__init__.py:326 | `im_freq` is register 50 divided by 100, as an exact rational |
| FieldValues.ImActivePowerField | custom_components/ingeteam_modbus/__init__.py:327 | `im_active_power` is register 51 as a signed 16-bit value |
| FieldValues.ImReactivePowerField | custom_components/ingeteam_modbus/__init__.py:328 | `im_reactive_power` is register 52 as a signed 16-bit value |
| FieldValues.ImPowerFactorField | custom_components/ingeteam_modbus/__init__.py:329 | `im_power_factor` is signed register 53 divided by 1000, as an exact rational |
| FieldValues.EmVoltageField | custom_components/ingeteam_modbus/__init__.py:330 | `em_voltage` is register 69, unsigned |
| FieldValues.EmFreqField | custom_components/ingeteam_modbus/__init__.py:331 | `em_freq` is register 70 divided by 10, as an exact rational |
| FieldValues.EmActivePowerField | custom_components/ingeteam_modbus/__init__.py:332-333 | `em_active_power` is `max(0, p)` for the signed register 71 |
| FieldValues.EmActivePowerReturnedField | custom_components/ingeteam_modbus/__init__.py:332-334 | `em_active_power_returned` is `max(0, -p)` for the signed register 71 |
| FieldValues.EmReactivePowerField | custom_components/ingeteam_modbus/__init__.py:335 | `em_reactive_power` is register 72 as a signed 16-bit value |
| DecoderSections.StatusBlock | custom_components/ingeteam_modbus/__init__.py:246-255 | the writes of inverter status and lifetime: afterwards `data` holds exactly its previous keys plus this block's keys |
| DecoderSections.BatteryFlowBlock | custom_components/ingeteam_modbus/__init__.py:258-262 | the writes of battery voltage, current and the power split: afterwards `data` holds exactly its previous keys plus this block's keys |
| DecoderSections.BatteryChargeBlock | custom_components/ingeteam_modbus/__init__.py:263-266 | the writes of battery state of charge and health and the charging and discharging voltages: afterwards `data` holds exactly its previous keys plus this block's keys |
| DecoderSections.BatteryLimitsBlock | custom_components/ingeteam_modbus/__init__.py:267-276 | the writes of battery current limits, status, temperature, alarm and discharge limitation: afterwards `data` holds exactly its previous keys plus this block's keys |
| DecoderSections.BatteryBmsBlock | custom_components/ingeteam_modbus/__init__.py:277-282 | the writes of internal battery voltage and the BMS registers: afterwards `data` holds exactly its previous keys plus this block's keys |
| DecoderSections.PvStringsBlock | custom_components/ingeteam_modbus/__init__.py:285-292 | the writes of PV strings, external PV and EV charger: afterwards `data` holds exactly its previous keys plus this block's keys |
| DecoderSections.PvTotalsBlock | custom_components/ingeteam_modbus/__init__.py:293-294 | the writes of the two PV totals, read back from `data`: afterwards `data` holds exactly its previous keys plus this block's keys |
| DecoderSections.InverterOutputBlock | custom_components/ingeteam_modbus/__init__.py:297-303 | the writes of inverter output and active-power reduction: afterwards `data` holds exactly its previous keys plus this block's keys |
| DecoderSections.CriticalLoadsBlock | custom_components/ingeteam_modbus/__init__.py:304-309 | the writes of critical loads and total load power: afterwards `data` holds exactly its previous keys plus this block's keys |
| DecoderSections.DcAndTemperaturesBlock | custom_components/ingeteam_modbus/__init__.py:310-316 | the writes of DC bus, isolation resistances, temperatures and residual current: afterwards `data` holds exactly its previous keys plus this block's keys |
| DecoderSections.DigitalIoBlock | custom_components/ingeteam_modbus/__init__.py:317-321 | the writes of digital outputs and inputs: afterwards `data` holds exactly its previous keys plus this block's keys |
| DecoderSections.InternalMeterBlock | custom_components/ingeteam_modbus/__init__.py:324-329 | the writes of internal meter: afterwards `data` holds exactly its previous keys plus this block's keys |
| DecoderSections.ExternalMeterBlock | custom_components/ingeteam_modbus/__init__.py:330-335 | the writes of external meter: afterwards `data` holds exactly its previous keys plus this block's keys |
| DecoderSections.StatusBlockOverlays | custom_components/ingeteam_modbus/__init__.py:246-255 | the Status block sets exactly its own keys to the full snapshot's values and leaves every other entry of `data` as it was |
| DecoderSections.BatteryFlowBlockOverlays | custom_components/ingeteam_modbus/__init__.py:258-262 | the BatteryFlow block sets exactly its own keys to the full snapshot's values and leaves every other entry of `data` as it was |
| DecoderSections.BatteryChargeBlockOverlays | custom_components/ingeteam_modbus/__init__.py:263-266 | the BatteryCharge block sets exactly its own keys to the full snapshot's values and leaves every other entry of `data` as it was |
| DecoderSections.BatteryLimitsBlockOverlays | custom_components/ingeteam_modbus/__init__.py:267-276 | the BatteryLimits block sets exactly its own keys to the full snapshot's values and leaves every other entry of `data` as it was |
| DecoderSections.BatteryBmsBlockOverlays | custom_components/ingeteam_modbus/__init__.py:277-282 | the BatteryBms block sets exactly its own keys to the full snapshot's values and leaves every other entry of `data` as it was |
| DecoderSections.PvStringsBlockOverlays | custom_components/ingeteam_modbus/__init__.py:285-292 | the PvStrings block sets exactly its own keys to the full snapshot's values and leaves every other entry of `data` as it was |
| DecoderSections.PvTotalsBlockOverlays | custom_components/ingeteam_modbus/__init__.py:293-294 | the PvTotals block sets exactly its own keys to the full snapshot's values and leaves every other entry of `data` as it was |
| DecoderSections.InverterOutputBlockOverlays | custom_components/ingeteam_modbus/__init__.py:297-303 | the InverterOutput block sets exactly its own keys to the full snapshot's values and leaves every other entry of `data` as it was |
| DecoderSections.CriticalLoadsBlockOverlays | custom_components/ingeteam_modbus/__init__.py:304-309 | the CriticalLoads block sets exactly its own keys to the full snapshot's values and leaves every other entry of `data` as it was |
| DecoderSections.DcAndTemperaturesBlockOverlays | custom_components/ingeteam_modbus/__init__.py:310-316 | the DcAndTemperatures block sets exactly its own keys to the full snapshot's values and leaves every other entry of `data` as it was |
| DecoderSections.DigitalIoBlockOverlays | custom_components/ingeteam_modbus/__init__.py:317-321 | the DigitalIo block sets exactly its own keys to the full snapshot's values and leaves every other entry of `data` as it was |
| DecoderSections.InternalMeterBlockOverlays | custom_components/ingeteam_modbus/__init__.py:324-329 | the InternalMeter block sets exactly its own keys to the full snapshot's values and leaves every other entry of `data` as it was |
| DecoderSections.ExternalMeterBlockOverlays | custom_components/ingeteam_modbus/__init__.py:330-335 | the ExternalMeter block sets exactly its own keys to the full snapshot's values and leaves every other entry of `data` as it was |
| DecoderSections.PvStringsBlockPowers | custom_components/ingeteam_modbus/__init__.py:287-294 | after the PV strings block, `pv1_power`, `pv2_power` and `external_pv_power` hold their decoded values, which the totals then read |
| DecoderSections.OverlaysCompose | custom_components/ingeteam_modbus/__init__.py:244-335 | two blocks run one after the other set the union of their keys and leave the rest alone |
| DecoderSections.InSomeBlock | custom_components/ingeteam_modbus/__init__.py:244-335 | every key is written by some block of the decoder |
| DecoderSections.AllBlocks | custom_components/ingeteam_modbus/__init__.py:244-335 | all 70 writes, block by block, in the source's order: together they overwrite every key of every block with its decoded value and keep the rest of `data` |
| DecoderSections.AllBlocksReplaceSnapshot | custom_components/ingeteam_modbus/__init__.py:244-335 | running every block in the decoder's order, over any previous `data`, yields exactly the decoded snapshot |
| ModbusHub.ClientTimeout | custom_components/ingeteam_modbus/__init__.py:118 | `max(3, scan_interval - 1)`: at least 3, at least `scan_interval - 1`, and equal to one of them |
| ModbusHub.TimeoutBeforeNextTick | custom_components/ingeteam_modbus/__init__.py:118 | the timeout is shorter than the scan interval exactly when the interval exceeds 3; for the default interval of 10 it is 9 |
| ModbusHub.CountAppend | custom_components/ingeteam_modbus/__init__.py:131-157 | occurrences of a call in a trace add up over concatenation |
| ModbusHub.Notifications | custom_components/ingeteam_modbus/__init__.py:156-157 | one callback call per subscriber, in list order |
| ModbusHub.NotificationsTouchNothingElse | custom_components/ingeteam_modbus/__init__.py:156-157 | notifying the subscribers makes no client or timer call |
| ModbusHub.CountUnchanged | custom_components/ingeteam_modbus/__init__.py:150-157 | appending calls other than `e` leaves the number of `e` calls in the trace unchanged |
| ModbusHub.ReconnectTrace | custom_components/ingeteam_modbus/__init__.py:182-188 | the calls `_check_and_reconnect` makes: the socket check first, a connect exactly when the socket is closed, and no close or timer call |
| ModbusHub.UpdateTrace | custom_components/ingeteam_modbus/__init__.py:159-170 | the calls `_update_modbus_data` makes: the socket check first, the reconnect second when the socket is closed, and the read of 81 registers from address 0 exactly when the client is connected; no close or timer call |
| ModbusHub.Complete | custom_components/ingeteam_modbus/__init__.py:231-242 | the response `read_modbus_data` accepts; a read that raises or an error response is never accepted |
| ModbusHub.UpdateSucceeds | custom_components/ingeteam_modbus/__init__.py:159-170 | whether `_update_modbus_data` returns True: never when the reconnect fails, never when the read raises or returns an error, and only for a complete response |
| ModbusHub.IndexOf | custom_components/ingeteam_modbus/__init__.py:144 | the position of the first occurrence of a subscribed callback |
| ModbusHub.RemoveFirst | custom_components/ingeteam_modbus/__init__.py:144 | `list.remove(x)` drops the first `x` and keeps the rest in order |
| ModbusHub.RemoveFirstMultiset | custom_components/ingeteam_modbus/__init__.py:144 | `list.remove(x)` removes exactly one `x` and keeps every other element |
| ModbusHub.IngeteamModbusHub.constructor | custom_components/ingeteam_modbus/__init__.py:115-129 | a new hub keeps its configuration, has client timeout `max(3, scan_interval - 1)`, no subscribers, no timer and empty `data` |
| ModbusHub.IngeteamModbusHub.Connect | custom_components/ingeteam_modbus/__init__.py:190-198 | `connect` makes one client connect call and returns its result |
| ModbusHub.IngeteamModbusHub.Close | custom_components/ingeteam_modbus/__init__.py:177-180 | `close` makes one client close call |
| ModbusHub.IngeteamModbusHub.CheckAndReconnect | custom_components/ingeteam_modbus/__init__.py:182-188 | true without connecting when the socket is open; otherwise one connect call, whose result it returns |
| ModbusHub.IngeteamModbusHub.ReadInput | custom_components/ingeteam_modbus/__init__.py:200-203 | one register read request with the given unit, address and count, returning the client's response |
| ModbusHub.IngeteamModbusHub.WriteRegisters | custom_components/ingeteam_modbus/__init__.py:244-335 | the 70 in-place writes, in order, leave `data` equal to the decoded snapshot, whatever it held before |
| ModbusHub.IngeteamModbusHub.WriteStatus | custom_components/ingeteam_modbus/__init__.py:246-255 | in-place writes of inverter status and lifetime: afterwards `data` is the previous `data` with exactly these keys set to their decoded values |
| ModbusHub.IngeteamModbusHub.WriteBatteryFlow | custom_components/ingeteam_modbus/__init__.py:258-262 | in-place writes of battery voltage, current and the power split: afterwards `data` is the previous `data` with exactly these keys set to their decoded values |
| ModbusHub.IngeteamModbusHub.WriteBatteryCharge | custom_components/ingeteam_modbus/__init__.py:263-266 | in-place writes of battery state of charge and health and the charging and discharging voltages: afterwards `data` is the previous `data` with exactly these keys set to their decoded values |
| ModbusHub.IngeteamModbusHub.WriteBatteryLimits | custom_components/ingeteam_modbus/__init__.py:267-276 | in-place writes of battery current limits, status, temperature, alarm and discharge limitation: afterwards `data` is the previous `data` with exactly these keys set to their decoded values |
| ModbusHub.IngeteamModbusHub.WriteBatteryBms | custom_components/ingeteam_modbus/__init__.py:277-282 | in-place writes of internal battery voltage and the BMS registers: afterwards `data` is the previous `data` with exactly these keys set to their decoded values |
| ModbusHub.IngeteamModbusHub.WritePvStrings | custom_components/ingeteam_modbus/__init__.py:285-292 | in-place writes of PV strings, external PV and EV charger: afterwards `data` is the previous `data` with exactly these keys set to their decoded values |
| ModbusHub.IngeteamModbusHub.WritePvTotals | custom_components/ingeteam_modbus/__init__.py:293-294 | in-place writes of the two PV totals, read back from `data`: afterwards `data` is the previous `data` with exactly these keys set to their decoded values |
| ModbusHub.IngeteamModbusHub.WriteInverterOutput | custom_components/ingeteam_modbus/__init__.py:297-303 | in-place writes of inverter output and active-power reduction: afterwards `data` is the previous `data` with exactly these keys set to their decoded values |
| ModbusHub.IngeteamModbusHub.WriteCriticalLoads | custom_components/ingeteam_modbus/__init__.py:304-309 | in-place writes of critical loads and total load power: afterwards `data` is the previous `data` with exactly these keys set to their decoded values |
| ModbusHub.IngeteamModbusHub.WriteDcAndTemperatures | custom_components/ingeteam_modbus/__init__.py:310-316 | in-place writes of DC bus, isolation resistances, temperatures and residual current: afterwards `data` is the previous `data` with exactly these keys set to their decoded values |
| ModbusHub.IngeteamModbusHub.WriteDigitalIo | custom_components/ingeteam_modbus/__init__.py:317-321 | in-place writes of digital outputs and inputs: afterwards `data` is the previous `data` with exactly these keys set to their decoded values |
| ModbusHub.IngeteamModbusHub.WriteInternalMeter | custom_components/ingeteam_modbus/__init__.py:324-329 | in-place writes of internal meter: afterwards `data` is the previous `data` with exactly these keys set to their decoded values |
| ModbusHub.IngeteamModbusHub.WriteExternalMeter | custom_components/ingeteam_modbus/__init__.py:330-335 | in-place writes of external meter: afterwards `data` is the previous `data` with exactly these keys set to their decoded values |
| ModbusHub.IngeteamModbusHub.ReadModbusData | custom_components/ingeteam_modbus/__init__.py:230-337 | one read of 81 registers from address 0; false with `data` unchanged on an error response or fewer than 81 registers; otherwise true with `data` the decoded snapshot; `raised` when the read raised |
| ModbusHub.IngeteamModbusHub.UpdateModbusData | custom_components/ingeteam_modbus/__init__.py:159-170 | false without reading when reconnect fails, false when the read raises (the exception does not propagate), otherwise the read's result; `data` changes only on success |
| ModbusHub.IngeteamModbusHub.AddSensor | custom_components/ingeteam_modbus/__init__.py:131-139 | the callback is always appended; only the first subscriber connects and starts the timer; polling is then active and `Valid` is kept |
| ModbusHub.IngeteamModbusHub.RemoveSensor | custom_components/ingeteam_modbus/__init__.py:141-148 | the first occurrence of the callback is removed; only removing the last one cancels the timer and closes the client; an absent callback changes nothing (the source raises); `Valid` is kept |
| ModbusHub.IngeteamModbusHub.NotifySensors | custom_components/ingeteam_modbus/__init__.py:156-157 | every subscriber is called exactly once, in list order |
| ModbusHub.IngeteamModbusHub.RefreshModbusData | custom_components/ingeteam_modbus/__init__.py:150-157 | no subscribers: nothing happens; otherwise one update; the subscribers are called in order exactly when it succeeded, and `data` changes only then; `Valid` is kept |
| ModbusHub.SubscribeTwiceAndLeave | custom_components/ingeteam_modbus/__init__.py:131-148 | two subscriptions joining and leaving, even of the same callback twice, make exactly one connect, one timer start, one timer cancel and one close |
| ModbusHub.IntOr | custom_components/ingeteam_modbus/__init__.py:293-294 | `data.get(k, 0)` for an integer entry: 0 when the key is missing and the stored integer otherwise |
| SnapshotProperties.BatteryPowerSplit | custom_components/ingeteam_modbus/__init__.py:260-262 | `battery_discharging_power` and `battery_charging_power` are both non-negative, at most one is non-zero, and their difference is the signed raw power |
| SnapshotProperties.GridPowerSplit | custom_components/ingeteam_modbus/__init__.py:332-334 | the same for `em_active_power` and `em_active_power_returned` |
| SnapshotProperties.PvTotalsAddUp | custom_components/ingeteam_modbus/__init__.py:287-294 | `pv_internal_total_power` is `pv1_power + pv2_power` and `pv_total_power` is that plus `external_pv_power` |
| SnapshotProperties.LabelFieldsNeverFail | custom_components/ingeteam_modbus/__init__.py:253-302 | `status`, `battery_status`, `battery_discharge_limitation_reason` and `ap_reduction_reason` are the table's label for a code in the table's range and `Unknown (<code>)` for any other code |
| SnapshotProperties.InverterStatusNoFallbackLabel | custom_components/ingeteam_modbus/const.py:97-109 | no `INVERTER_STATUS` label has the shape of the fallback label |
| SnapshotProperties.BatteryStatusNoFallbackLabel | custom_components/ingeteam_modbus/const.py:111-123 | no `BATTERY_STATUS` label has the shape of the fallback label |
| SnapshotProperties.BatteryLimitationReasonsNoFallbackLabel | custom_components/ingeteam_modbus/const.py:137-151 | no `BATTERY_LIMITATION_REASONS` label has the shape of the fallback label |
| SnapshotProperties.ApReductionReasonsNoFallbackLabel | custom_components/ingeteam_modbus/const.py:153-171 | no `AP_REDUCTION_REASONS` label has the shape of the fallback label |
| SnapshotProperties.LabelRevealsCode | custom_components/ingeteam_modbus/__init__.py:253-302 | with such a table, a label field has the fallback's shape exactly when its code is past the table, and then the fallback names the code |
| SnapshotProperties.LabelFieldsRevealUnknownCodes | custom_components/ingeteam_modbus/__init__.py:253-302 | `status`, `battery_status`, `battery_discharge_limitation_reason` and `ap_reduction_reason` each show whether their code was known, and which code an unknown one was |
| SnapshotProperties.DigitalIoStates | custom_components/ingeteam_modbus/__init__.py:317-321 | each digital input and output is "Off" for 0, "On" for 1 and "Unknown" otherwise |
| SnapshotProperties.CountersAreU32 | custom_components/ingeteam_modbus/__init__.py:246-251 | `total_operation_time` and `alarm_code` are low-word-first 32-bit values below 2^32 |
| SnapshotProperties.ScaledReadings | custom_components/ingeteam_modbus/__init__.py:258-299 | battery voltage, battery current and power factor are exactly the raw (signed where the source decodes it) register over 10, 100 and 1000; the power factor lies in [-32.768, 32.767] |
| SnapshotProperties.NotConfiguredBatteryKeepsReadings | custom_components/ingeteam_modbus/__init__.py:257-282 | with battery status code 7 ("No Configured") the battery readings still hold their decoded register values |
| SnapshotProperties.FieldReadsOnly | custom_components/ingeteam_modbus/__init__.py:244-335 | each measurement depends only on its own registers |
| SnapshotProperties.ExtraRegistersIgnored | custom_components/ingeteam_modbus/__init__.py:238-242 | a response of more than 81 registers decodes exactly as its first 81 |

## Left out

- The pymodbus client and the socket (`ModbusTcpClient`, `connect`, `is_socket_open`, `read_input_registers`, `close`) are foreign network calls. Their results are parameters, and the calls are recorded as trace events.
- The lock around each client call and the executor hand-off in `async_refresh_modbus_data` are concurrency. Each method runs to completion, so an unsubscribe that comes between the update and the notification loop is not modelled.
- Home Assistant setup and unload (`async_setup`, `async_setup_entry`, `async_unload_entry`, the schemas, `async_track_time_interval`) is host wiring. Starting the timer is the `TimerStart` event, and a tick is a call of `RefreshModbusData`.
- `sensor.py`, the entity layer, is not part of this model.
- Floating-point rounding: the scaled values are exact rationals.
- Logging is not modelled.
- The `name` property, and the `read_meter` and `read_battery` flags, are stored but not used by the decoder, as in the source.
- ModbusHub.IngeteamModbusHub.CheckAndReconnect: an exception raised by `is_socket_open` or `connect` is not modelled. It would propagate out of `_update_modbus_data`, because it is raised outside its `try`.
- ModbusHub.IngeteamModbusHub.UpdateModbusData: `ModbusException` and other exceptions are one outcome, `Raised`. Both are logged and reported as False.
- ModbusHub.IngeteamModbusHub.ReadModbusData: the only exception modelled is one from the read itself. The registers are 16-bit words and every index is in range after the guard (the ensures of `Snapshot.Layout`), so the decoding cannot raise.
- ModbusHub.IngeteamModbusHub.ReadModbusData: in the model, `data` only ever holds the 70 decoder keys. So a successful read leaves `data` equal to the decoded snapshot, as it does in the source, where nothing else writes `data`.
- RegisterCodec.DecodeSigned: it is modelled on 16-bit words only. pymodbus never hands the decoder other values.
- Snapshot.Key.Name: the model does not prove that the 70 dictionary key strings are pairwise distinct: comparing every pair of string literals is beyond the verifier's resource budget. The measurements are keyed by the `Key` datatype, which makes them distinct by construction.
- ModbusHub.IntOr: `data.get(key, 0)` returns whatever entry is present; the model's `data` holds `Value`s, so `IntOr` also gives 0 for an entry that is not an integer, where the source would add whatever is stored. Neither the missing key nor a non-integer entry can occur, because the PV powers are written as integers just before. The `self.data["pv_internal_total_power"]` subscript at `__init__.py:294` is modelled as a subscript, whose presence (the source's `KeyError` case) the verifier proves.
