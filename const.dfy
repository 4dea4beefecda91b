/** The integration's defaults and the device's code tables: finite maps
    from a register's integer code to its human-readable label. */
module IngeteamConst {

  const DefaultName: string := "ingeteam"
  const DefaultScanInterval: int := 10
  const DefaultPort: int := 502
  const DefaultModbusAddress: int := 1
  const DefaultReadMeter: bool := false
  const DefaultReadBattery: bool := false

  /** Number of input registers read in one request, starting at address 0. */
  const RegisterCount: nat := 81

  const BooleanStatus: map<int, string> := map[
    0 := "Off",
    1 := "On"
  ]

  const InverterStatus: map<int, string> := map[
    0 := "Inverter Stopped",
    1 := "Starting",
    2 := "Off-grid",
    3 := "On-grid",
    4 := "On-grid (Standby Battery)",
    5 := "Waiting to connect to Grid",
    6 := "Critical Loads Bypassed to Grid",
    7 := "Emergency Charge from PV",
    8 := "Emergency Charge from Grid",
    9 := "Inverter Locked waiting for Reset",
    10 := "Error Mode"
  ]

  const BatteryStatus: map<int, string> := map[
    0 := "Standby",
    1 := "Discharging",
    2 := "Constant Current Charging",
    3 := "Constant Voltage Charging",
    4 := "Floating",
    5 := "Equalizing",
    6 := "Error Communication with BMS",
    7 := "No Configured",
    8 := "Capacity Calibration (Step 1)",
    9 := "Capacity Calibration (Step 2)",
    10 := "Standby Manual"
  ]

  const BatteryBmsAlarms: map<int, string> := map[
    0 := "High Current Charge",
    1 := "High Voltage",
    2 := "Low Voltage",
    3 := "High Temperatura",
    4 := "Low Temperatura",
    5 := "BMS Internal",
    6 := "Cell Imbalance",
    7 := "High Current Discharge",
    8 := "System BMS Error"
  ]

  const BatteryLimitationReasons: map<int, string> := map[
    0 := "No limitation",
    1 := "Heat Sink Temperature",
    2 := "PT100 Temperature",
    3 := "Low Bus Voltage Protection",
    4 := "Battery Settings",
    5 := "BMS Communication",
    6 := "SOC Max Configured",
    7 := "SOC Min Configured",
    8 := "Maximum Battery Power",
    9 := "Modbus command",
    10 := "Digital Input 2",
    11 := "Digital Input 3",
    12 := "PV Charging scheduling"
  ]

  const ApReductionReasons: map<int, string> := map[
    0 := "No limitation",
    1 := "Communication",
    2 := "PCB Temperature",
    3 := "Heat Sink Temperature",
    4 := "Pac vs Fac Algorithm",
    5 := "Soft Start",
    6 := "Charge Power Configured",
    7 := "PV Surplus injected to the Loads",
    8 := "Pac vs Vac Algorithm",
    9 := "Battery Power Limited",
    10 := "AC Grid Power Limited",
    11 := "Self-Consumption Mode",
    12 := "High Bus Voltage Protection",
    13 := "LVRT or HVRT Process",
    14 := "Nominal AC Current",
    15 := "Grid Consumption Protection",
    16 := "PV Surplus Injected to the Grid"
  ]

  /** The codes 0..n, the key set of every table above. */
  function CodesUpTo(n: nat): (s: set<int>)
    ensures forall c :: c in s <==> 0 <= c <= n
  {
    if n == 0 then {0} else CodesUpTo(n - 1) + {n}
  }

  lemma DefaultsArePositive()
    ensures DefaultModbusAddress == 1 && DefaultScanInterval == 10 && DefaultPort == 502
    ensures DefaultModbusAddress > 0 && DefaultScanInterval > 0 && DefaultPort > 0
  {
  }

  lemma BooleanStatusKeys()
    ensures BooleanStatus.Keys == CodesUpTo(1)
  {
  }

  lemma BooleanStatusLabels()
    ensures BooleanStatus[0] == "Off" && BooleanStatus[1] == "On"
  {
  }

  lemma InverterStatusKeys()
    ensures InverterStatus.Keys == CodesUpTo(10)
  {
  }

  lemma BatteryStatusKeys()
    ensures BatteryStatus.Keys == CodesUpTo(10)
  {
  }

  lemma BatteryStatusNotConfigured()
    ensures BatteryStatus[7] == "No Configured"
  {
  }

  lemma BatteryBmsAlarmsKeys()
    ensures BatteryBmsAlarms.Keys == CodesUpTo(8)
  {
  }

  lemma BatteryLimitationReasonsKeys()
    ensures BatteryLimitationReasons.Keys == CodesUpTo(12)
  {
  }

  lemma ApReductionReasonsKeys()
    ensures ApReductionReasons.Keys == CodesUpTo(16)
  {
  }

  lemma NoLimitationIsCodeZero()
    ensures BatteryLimitationReasons[0] == "No limitation"
    ensures ApReductionReasons[0] == "No limitation"
  {
  }
}
