/** The example publisher component: `generate_message` builds the record that is
    published on the IPC topic every ten seconds. Its random choices, the
    floating-point sensor readings (already formatted) and the timestamp are
    parameters. */
module Publisher {
  import opened Wrappers
  import opened Strings
  import opened JsonValues
  import JobPage

  const Topic := "runscreen/topic"
  /** Seconds between two publications, and the IPC response timeout. */
  const PublishRate := 10
  const Timeout := 100

  /** The lists the component passes to `generate_message`. */
  const QualityControl := ["Passed", "Action Needed"]
  const ToolStatus := [JStr("running"), JStr("stopped")]
  const Messages := [
    JObj([Member("Job continues", JObj([
      Member("Site Environment", JStr("OK")),
      Member("Recommended Action", JStr("None"))]))]),
    JObj([Member("Restart the job", JObj([
      Member("Site Environment", JStr("Output is higher than threshold")),
      Member("Recommended Action", JStr("Monitor power output"))]))])
  ]

  const RecordKeys := ["timestamp", "Operating Parameters", "Sensor Data"]
  const OperatingKeys := ["quality_control", "tool_status", "message"]
  const SensorKeys := ["power_curve", "lv_activepower", "wind_speed", "wind_direction"]

  /** The random draws and readings of one call: the index `random.choice` picks
      from the quality-control values, the power curve `randint(300, 400)`, the
      three rounded uniform readings as `"{}".format` prints them, and
      `str(datetime.now())`. */
  datatype Draws = Draws(pick: nat, power: int, lvActivePower: string, windSpeed: string,
                         windDirection: string, timestamp: string)

  predicate ValidDraws(qualityControl: seq<string>, d: Draws) {
    (qualityControl != [] ==> d.pick < |qualityControl|) && 300 <= d.power <= 400
  }

  /** The index of the message a quality-control value selects. */
  function MessageIndex(qcVal: string): nat {
    if qcVal == "Passed" then 0 else 1
  }

  /** The `operating_parameters` dictionary for the drawn value, the first tool
      status and the selected message. */
  function OperatingParameters(qcVal: string, toolStatus: Json, message: Json): (ops: seq<Member>)
    ensures Keys(ops) == OperatingKeys
    ensures Get(ops, "quality_control") == Some(JStr(qcVal))
    ensures Get(ops, "tool_status") == Some(toolStatus)
    ensures Get(ops, "message") == Some(message)
  {
    var ops := [Member("quality_control", JStr(qcVal)), Member("tool_status", toolStatus),
                Member("message", message)];
    assert Get(ops, "quality_control") == Some(JStr(qcVal)) by { GetFirst(ops, 0); }
    assert Get(ops, "tool_status") == Some(toolStatus) by { GetFirst(ops, 1); }
    assert Get(ops, "message") == Some(message) by { GetFirst(ops, 2); }
    ops
  }

  /** The `sensor_data` dictionary. */
  function SensorData(d: Draws): (sensors: seq<Member>)
    requires 300 <= d.power <= 400
    ensures Keys(sensors) == SensorKeys
    ensures Get(sensors, "power_curve") == Some(JStr(NatToString(d.power)))
    ensures Get(sensors, "lv_activepower") == Some(JStr(d.lvActivePower))
    ensures Get(sensors, "wind_speed") == Some(JStr(d.windSpeed))
    ensures Get(sensors, "wind_direction") == Some(JStr(d.windDirection))
  {
    var sensors := [Member("power_curve", JStr(NatToString(d.power))),
                    Member("lv_activepower", JStr(d.lvActivePower)),
                    Member("wind_speed", JStr(d.windSpeed)),
                    Member("wind_direction", JStr(d.windDirection))];
    assert Get(sensors, "power_curve") == Some(JStr(NatToString(d.power))) by { GetFirst(sensors, 0); }
    assert Get(sensors, "lv_activepower") == Some(JStr(d.lvActivePower)) by { GetFirst(sensors, 1); }
    assert Get(sensors, "wind_speed") == Some(JStr(d.windSpeed)) by { GetFirst(sensors, 2); }
    assert Get(sensors, "wind_direction") == Some(JStr(d.windDirection)) by { GetFirst(sensors, 3); }
    sensors
  }

  /** The `message` dictionary returned. */
  function RecordOf(timestamp: string, ops: seq<Member>, sensors: seq<Member>): (members: seq<Member>)
    ensures Keys(members) == RecordKeys
    ensures Get(members, "timestamp") == Some(JStr(timestamp))
    ensures Get(members, "Operating Parameters") == Some(JObj(ops))
    ensures Get(members, "Sensor Data") == Some(JObj(sensors))
  {
    var members := [Member("timestamp", JStr(timestamp)), Member("Operating Parameters", JObj(ops)),
                    Member("Sensor Data", JObj(sensors))];
    assert Get(members, "timestamp") == Some(JStr(timestamp)) by { GetFirst(members, 0); }
    assert Get(members, "Operating Parameters") == Some(JObj(ops)) by { GetFirst(members, 1); }
    assert Get(members, "Sensor Data") == Some(JObj(sensors)) by { GetFirst(members, 2); }
    members
  }

  /** `generate_message(quality_control, tool_status, msg)`. `None` is the
      IndexError raised by `random.choice` on an empty list, by `tool_status[0]`,
      or by `msg[0]` / `msg[1]` when the selected message is missing. */
  function GenerateMessage(qualityControl: seq<string>, toolStatus: seq<Json>, msg: seq<Json>, d: Draws)
    : (r: Option<Json>)
    requires ValidDraws(qualityControl, d)
    ensures r.None? <==>
      qualityControl == [] || toolStatus == [] || |msg| <= MessageIndex(qualityControl[d.pick])
    ensures r.Some? ==> r.value.JObj? && Keys(r.value.members) == RecordKeys
    ensures r.Some? ==>
      var qcVal := qualityControl[d.pick];
      && Get(r.value.members, "timestamp") == Some(JStr(d.timestamp))
      && Get(r.value.members, "Operating Parameters").Some?
      && var ops := Get(r.value.members, "Operating Parameters").value;
      && ops.JObj? && Keys(ops.members) == OperatingKeys
      && Get(ops.members, "quality_control") == Some(JStr(qcVal))
      && Get(ops.members, "tool_status") == Some(toolStatus[0])
      && Get(ops.members, "message") == Some(msg[MessageIndex(qcVal)])
    ensures r.Some? ==>
      && Get(r.value.members, "Sensor Data").Some?
      && var sensors := Get(r.value.members, "Sensor Data").value;
      && sensors.JObj? && Keys(sensors.members) == SensorKeys
      && Get(sensors.members, "power_curve") == Some(JStr(NatToString(d.power)))
  {
    if qualityControl == [] then None
    else
      var qcVal := qualityControl[d.pick];
      if toolStatus == [] || |msg| <= MessageIndex(qcVal) then None
      else
        var ops := OperatingParameters(qcVal, toolStatus[0], msg[MessageIndex(qcVal)]);
        Some(JObj(RecordOf(d.timestamp, ops, SensorData(d))))
  }

  /** The power curve is a three-digit decimal string denoting a value in
      [300, 400]. */
  lemma PowerCurveDigits(power: int)
    requires 300 <= power <= 400
    ensures |NatToString(power)| == 3 && IsDigits(NatToString(power))
    ensures 300 <= DigitsValue(NatToString(power)) <= 400
  {
    NatToStringLength(power, 2);
  }

  /** With the component's own lists a record is always produced; its message is
      the "Job continues" one exactly when the draw is "Passed", and the tool
      status is always "running". */
  lemma ComponentRecord(d: Draws)
    requires ValidDraws(QualityControl, d)
    ensures GenerateMessage(QualityControl, ToolStatus, Messages, d).Some?
    ensures var ops := Get(GenerateMessage(QualityControl, ToolStatus, Messages, d).value.members,
                           "Operating Parameters").value;
      && Get(ops.members, "tool_status") == Some(JStr("running"))
      && (Get(ops.members, "message") == Some(Messages[0]) <==> d.pick == 0)
  {
    assert QualityControl[0] == "Passed" && QualityControl[1] != "Passed";
    assert Messages[0] != Messages[1] by {
      assert Messages[0].members[0].key != Messages[1].members[0].key;
    }
  }

  /** What the job page shows of a published record: its `resurveykey` is
      "Job continues", and the status green, exactly when the draw is "Passed".
      The record is taken as it was built; its transport (Python's `str`, the
      normalisation and `JSON.parse`) is not part of this lemma. */
  lemma PublishedRecordColour(d: Draws)
    requires ValidDraws(QualityControl, d)
    ensures var r := GenerateMessage(QualityControl, ToolStatus, Messages, d).value;
      && JobPage.ResurveyKey(r).Some?
      && (JobPage.StatusColour(JobPage.ResurveyKey(r).value) == JobPage.Green <==> d.pick == 0)
  {
    ComponentRecord(d);
    var r := GenerateMessage(QualityControl, ToolStatus, Messages, d).value;
    var ops := Get(r.members, "Operating Parameters").value;
    var m := Messages[MessageIndex(QualityControl[d.pick])];
    assert Get(ops.members, "message") == Some(m);
    JobPage.ResurveyKeyOfRecord(r.members, ops.members, m.members);
    assert d.pick == 0 <==> m.members[0].key == JobPage.JobContinues;
  }
}
