/**
 * The sensor alerting job of vermi-backend/monitor.py: the `THRESHOLDS`
 * table, the classifier `get_notification`, and the loop of
 * `check_and_notify` that turns the latest sensor readings into rows of
 * the `notifications` table.  Readings and limits are exact decimals
 * (`real`); the text a number is printed as is carried beside it.
 */
module Monitor {
  import opened Base

  /** A `(low, high)` entry of `THRESHOLDS`, with the way Python prints each limit. */
  datatype Threshold = Threshold(low: real, high: real, lowText: string, highText: string)

  /** `THRESHOLDS`, keyed by sensor id. */
  const Thresholds: map<int, Threshold> := map[
    1 := Threshold(2121.0, 3303.0, "2121", "3303"),    // CO2
    4 := Threshold(818.0, 964.0, "818", "964"),        // CH4
    8 := Threshold(28.0, 29.0, "28", "29"),            // soil temperature
    9 := Threshold(47.0, 80.0, "47", "80"),            // soil moisture
    10 := Threshold(4.7, 6.0, "4.7", "6"),             // soil pH
    11 := Threshold(1298.0, 1958.0, "1298", "1958"),   // soil EC
    12 := Threshold(298.0, 372.0, "298", "372"),       // soil nitrogen
    13 := Threshold(519.0, 901.0, "519", "901"),       // soil phosphorus
    14 := Threshold(10.0, 50.0, "10", "50")            // soil potassium
  ]

  /** Every limit pair is ordered, so no reading is both too low and too high. */
  lemma ThresholdsOrdered()
    ensures forall id :: id in Thresholds ==> Thresholds[id].low <= Thresholds[id].high
    ensures Thresholds.Keys == {1, 4, 8, 9, 10, 11, 12, 13, 14}
  {
  }

  /** The dict `get_notification` returns. */
  datatype Notification = Notification(kind: string, category: string, header: string, message: string)

  /** `get_notification(sensor_name, devicename, value, threshold)` */
  function GetNotification(sensorName: string, deviceName: string, value: real, valueText: string, t: Threshold)
    : (r: Option<Notification>)
    ensures r.None? <==> t.low <= value <= t.high
    ensures r.Some? ==> r.value.kind == "Compost" && r.value.category == deviceName
    ensures value < t.low ==>
              r.value.header == sensorName + " is too low!"
              && r.value.message == "Current " + sensorName + " level is " + valueText
                                    + ", below recommended minimum " + t.lowText + "."
    ensures t.low <= value && value > t.high ==>
              r.value.header == sensorName + " is too high!"
              && r.value.message == "Current " + sensorName + " level is " + valueText
                                    + ", above recommended maximum " + t.highText + "."
  {
    if value < t.low then
      Some(Notification("Compost", deviceName, sensorName + " is too low!",
                        "Current " + sensorName + " level is " + valueText + ", below recommended minimum " + t.lowText + "."))
    else if value > t.high then
      Some(Notification("Compost", deviceName, sensorName + " is too high!",
                        "Current " + sensorName + " level is " + valueText + ", above recommended maximum " + t.highText + "."))
    else None
  }

  /** With an ordered pair, a reading above `high` is never also below `low`. */
  lemma TooHighIsNotTooLow(sensorName: string, deviceName: string, value: real, valueText: string, t: Threshold)
    requires t.low <= t.high && value > t.high
    ensures GetNotification(sensorName, deviceName, value, valueText, t).value.header == sensorName + " is too high!"
  {
  }

  /** One row of the sensor query `(devicename, locationid, locationname, sensorid, sensor, value, timestamp)`. */
  datatype Reading = Reading(
    deviceName: string, locationId: int, locationName: string, sensorId: int, sensorName: string,
    value: real, valueText: string, timestamp: string)

  /** An `INSERT INTO notifications` of the loop. */
  datatype NotificationRow = NotificationRow(timestamp: string, note: Notification, locationId: int)

  /** The notification a reading raises, if any: none for a sensor without thresholds. */
  function NoteFor(r: Reading): (note: Option<Notification>)
    ensures note.Some? <==> Raises(r)
    ensures note.Some? ==> note.value.kind == "Compost" && note.value.category == r.deviceName
  {
    if r.sensorId in Thresholds then GetNotification(r.sensorName, r.deviceName, r.value, r.valueText, Thresholds[r.sensorId])
    else None
  }

  /** Whether a reading raises a notification: a known sensor out of its range. */
  predicate Raises(r: Reading) {
    r.sensorId in Thresholds && !(Thresholds[r.sensorId].low <= r.value <= Thresholds[r.sensorId].high)
  }

  /** The rows the loop inserts for `readings`, in order. */
  function Inserts(readings: seq<Reading>): seq<NotificationRow> {
    if readings == [] then []
    else
      var r := readings[|readings| - 1];
      var note := NoteFor(r);
      Inserts(readings[..|readings| - 1]) + (if note.Some? then [NotificationRow(r.timestamp, note.value, r.locationId)] else [])
  }

  /** Row `row` was made from reading `i`: same timestamp and location, a `Compost` note for its device. */
  ghost predicate MadeFrom(row: NotificationRow, readings: seq<Reading>, i: int) {
    0 <= i < |readings| && Raises(readings[i])
    && row.timestamp == readings[i].timestamp && row.locationId == readings[i].locationId
    && row.note.kind == "Compost" && row.note.category == readings[i].deviceName
  }

  /** The positions of the raising readings, in order. */
  function Raising(readings: seq<Reading>): (idx: seq<nat>)
    ensures forall k :: 0 <= k < |idx| ==> idx[k] < |readings|
  {
    if readings == [] then []
    else
      Raising(readings[..|readings| - 1]) + (if Raises(readings[|readings| - 1]) then [|readings| - 1] else [])
  }

  /** The k-th insert was made from the k-th raising reading, so inserts keep the readings' order. */
  lemma {:induction false} InsertsFromRaising(readings: seq<Reading>)
    ensures |Inserts(readings)| == |Raising(readings)|
    ensures forall k :: 0 <= k < |Inserts(readings)| ==> MadeFrom(Inserts(readings)[k], readings, Raising(readings)[k])
  {
    if readings != [] {
      var init := readings[..|readings| - 1];
      InsertsFromRaising(init);
      var last := readings[|readings| - 1];
      var all := Inserts(readings);
      assert all == Inserts(init) + (if NoteFor(last).Some? then [NotificationRow(last.timestamp, NoteFor(last).value, last.locationId)] else []);
      forall k | 0 <= k < |all| ensures MadeFrom(all[k], readings, Raising(readings)[k]) {
        if k < |Inserts(init)| {
          var i := Raising(init)[k];
          assert Raising(readings)[k] == i;
          assert readings[i] == init[i];
        }
      }
    }
  }

  /** Raising positions strictly increase. */
  lemma {:induction false} RaisingIncreasing(readings: seq<Reading>)
    ensures forall j, k :: 0 <= j < k < |Raising(readings)| ==> Raising(readings)[j] < Raising(readings)[k]
  {
    if readings != [] {
      RaisingIncreasing(readings[..|readings| - 1]);
    }
  }

  /** Readings of sensors without thresholds never add an insert. */
  lemma {:induction false} UnknownSensorsIgnored(readings: seq<Reading>, r: Reading)
    requires r.sensorId !in Thresholds
    ensures Inserts(readings + [r]) == Inserts(readings)
  {
    assert (readings + [r])[..|readings|] == readings;
  }

  /**
   * The `for row in rows` loop of `check_and_notify` after both connections
   * are open.  `failingInsert` is the index of the first `execute` that
   * raises, if one does; the exception skips the `commit`, so nothing the
   * job executed is kept.
   */
  method NotifyRows(readings: seq<Reading>, failingInsert: Option<nat>) returns (executed: seq<NotificationRow>, committed: bool)
    ensures failingInsert.None? || failingInsert.value >= |Inserts(readings)| ==>
              executed == Inserts(readings) && committed
    ensures failingInsert.Some? && failingInsert.value < |Inserts(readings)| ==>
              executed == Inserts(readings)[..failingInsert.value + 1] && !committed
  {
    executed := [];
    var i := 0;
    while i < |readings|
      invariant 0 <= i <= |readings|
      invariant executed == Inserts(readings[..i])
      invariant failingInsert.Some? ==> |executed| <= failingInsert.value
    {
      assert readings[..i + 1][..i] == readings[..i];
      var r := readings[i];
      if r.sensorId in Thresholds {
        var note := GetNotification(r.sensorName, r.deviceName, r.value, r.valueText, Thresholds[r.sensorId]);
        if note.Some? {
          executed := executed + [NotificationRow(r.timestamp, note.value, r.locationId)];
          if failingInsert.Some? && |executed| == failingInsert.value + 1 {
            InsertsPrefix(readings, i + 1);
            return executed, false;
          }
        }
      }
      i := i + 1;
    }
    assert readings[..|readings|] == readings;
    committed := true;
  }

  /** The inserts of a prefix of the readings are a prefix of all inserts. */
  lemma {:induction false} InsertsPrefix(readings: seq<Reading>, n: nat)
    requires n <= |readings|
    ensures Inserts(readings[..n]) <= Inserts(readings)
    decreases |readings| - n
  {
    if n < |readings| {
      InsertsPrefix(readings, n + 1);
      assert readings[..n + 1][..n] == readings[..n];
    } else {
      assert readings[..n] == readings;
    }
  }

  /**
   * `check_and_notify`: read the latest readings, open the user database,
   * insert the notifications and commit.  A failure to read or to connect
   * raises before any insert; the `except` only logs.
   */
  method CheckAndNotify(fetched: Result<seq<Reading>>, userDb: Result<()>, failingInsert: Option<nat>)
    returns (executed: seq<NotificationRow>, committed: bool)
    ensures fetched.Err? || userDb.Err? ==> executed == [] && !committed
    ensures fetched.Ok? && userDb.Ok? && (failingInsert.None? || failingInsert.value >= |Inserts(fetched.value)|) ==>
              executed == Inserts(fetched.value) && committed
    ensures fetched.Ok? && userDb.Ok? && failingInsert.Some? && failingInsert.value < |Inserts(fetched.value)| ==>
              executed == Inserts(fetched.value)[..failingInsert.value + 1] && !committed
  {
    if fetched.Err? || userDb.Err? {
      return [], false;
    }
    executed, committed := NotifyRows(fetched.value, failingInsert);
  }
}
