/**
 The non-presentation state of `ESP32MQTTMonitor`: the connection flag, the
 inbound queue filled by the network callback and drained by the timer, the
 five rolling history buffers, the CSV logging switch with the name and rows
 of the current log file, and the messages handed to the MQTT client.
 */
module Dashboard {
  import opened Wrappers
  import opened WireCodec
  import opened History
  import opened Ingest

  /** The topic the device publishes telemetry on; subscribed after a successful connect. */
  const SensorTopic: string := "tharusha/esp32/sensors"
  /** The topic relay commands are published on. */
  const CommandTopic: string := "tharusha/esp32/commands"

  /** The name of a new log file, given the `%Y%m%d_%H%M%S` text of the moment logging starts. */
  function LogFileName(stamp: string): string
  {
    "MQTT_Log_" + stamp + ".csv"
  }

  /** The drain invariant survives handling one more entry: what the history
      and the log held after `done`, extended by what `item` contributes, is
      what they hold after `done + [item]`. */
  lemma DrainProgress(acc0: seq<Reading>, rows0: seq<Row>, logging: bool, items: seq<QueueItem>,
                      n: nat, parse: NumParser, env: nat -> Env,
                      accMid: seq<Reading>, rowsMid: seq<Row>)
    requires n < |items|
    requires accMid == acc0 + Readings(items[..n], parse, env)
    requires rowsMid == rows0 + (if logging then LoggedRows(items[..n], parse, env) else [])
    ensures accMid + ItemReadings(items[n], parse, env(n)) == acc0 + Readings(items[..n + 1], parse, env)
    ensures rowsMid + (if logging then ItemRows(items[n], parse, env(n)) else [])
            == rows0 + (if logging then LoggedRows(items[..n + 1], parse, env) else [])
  {
    DrainStep(items[..n], items[n], parse, env);
    assert items[..n] + [items[n]] == items[..n + 1];
    Regroup(acc0, Readings(items[..n], parse, env), ItemReadings(items[n], parse, env(n)));
    if logging {
      Regroup(rows0, LoggedRows(items[..n], parse, env), ItemRows(items[n], parse, env(n)));
    }
  }

  /** Log files started at different moments get different names: the stamp
      can be read back from the name. */
  lemma LogFileNameInjective(a: string, b: string)
    ensures LogFileName(a) == LogFileName(b) <==> a == b
  {
    if LogFileName(a) == LogFileName(b) {
      var n := LogFileName(a);
      assert a == n[9..|n| - 4] == b;
    }
  }

  class Monitor {
    /** Python's `float()`, applied to the numeric tokens of a frame. */
    const parse: NumParser

    var connected: bool
    var isLogging: bool
    /** `gui_queue`: unbounded, first in, first out. */
    var queue: seq<QueueItem>
    var timeData: seq<Num>
    var voltageData: seq<Num>
    var currentData: seq<Num>
    var powerData: seq<Num>
    var temperatureData: seq<Num>
    /** `csv_file`: the name of the current (or last) log file. */
    var csvFile: string
    /** The rows of the log file most recently created, header first. */
    var logRows: seq<Row>

    /** Every reading accepted so far, oldest first. */
    ghost var accepted: seq<Reading>
    /** The topics passed to the MQTT client's `subscribe`, in order. */
    ghost var subscriptions: seq<string>
    /** The (topic, payload) pairs passed to the MQTT client's `publish`, in order. */
    ghost var published: seq<(string, string)>

    /** Each history buffer is the window of its metric over every accepted reading. */
    ghost predicate HistoryValid()
      reads this
    {
      Buffers(timeData, voltageData, currentData, powerData, temperatureData) == HistoryOf(accepted)
    }

    /** The history invariant, and an active log file starts with the header row. */
    ghost predicate Valid()
      reads this
    {
      HistoryValid() && (isLogging ==> |logRows| >= 1 && logRows[0] == Header)
    }

    constructor (parse: NumParser)
      ensures Valid() && this.parse == parse
      ensures !connected && !isLogging && queue == [] && csvFile == "" && logRows == []
      ensures accepted == [] && timeData == [] && voltageData == [] && currentData == []
      ensures powerData == [] && temperatureData == []
      ensures subscriptions == [] && published == []
    {
      this.parse := parse;
      connected, isLogging := false, false;
      queue := [];
      timeData, voltageData, currentData, powerData, temperatureData := [], [], [], [], [];
      csvFile, logRows := "", [];
      accepted, subscriptions, published := [], [], [];
    }

    /** The history buffers have one length, at most `MaxDataPoints`, and hold
        the last `min(n, MaxDataPoints)` accepted readings in arrival order:
        position `k` of every buffer comes from the same reading. */
    lemma HistoryAligned()
      requires Valid()
      ensures |timeData| == |voltageData| == |currentData| == |powerData| == |temperatureData|
      ensures |timeData| == |Window(accepted)| <= MaxDataPoints
      ensures |timeData| == if |accepted| <= MaxDataPoints then |accepted| else MaxDataPoints
      ensures forall k :: 0 <= k < |timeData| ==>
                var r := Window(accepted)[k];
                && timeData[k] == r.elapsed && voltageData[k] == r.frame.voltage
                && currentData[k] == r.frame.current && powerData[k] == r.frame.power
                && temperatureData[k] == r.frame.temperature
    {
      WindowAligned(accepted, Time);
      WindowAligned(accepted, Voltage);
      WindowAligned(accepted, Current);
      WindowAligned(accepted, Power);
      WindowAligned(accepted, Temperature);
    }

    /** The newest value of every buffer comes from the newest accepted reading. */
    lemma LatestReading()
      requires Valid() && |accepted| > 0
      ensures var r := accepted[|accepted| - 1];
              && |timeData| > 0 && timeData[|timeData| - 1] == r.elapsed
              && |voltageData| > 0 && voltageData[|voltageData| - 1] == r.frame.voltage
              && |currentData| > 0 && currentData[|currentData| - 1] == r.frame.current
              && |powerData| > 0 && powerData[|powerData| - 1] == r.frame.power
              && |temperatureData| > 0 && temperatureData[|temperatureData| - 1] == r.frame.temperature
    {
      HistoryAligned();
      var w := Window(accepted);
      assert w[|w| - 1] == accepted[|accepted| - 1];
    }

    /** `on_connect`: result code 0 sets the flag and subscribes to the sensor
        topic; any other code changes nothing but the diagnostic console. */
    method OnConnect(rc: int)
      modifies this`connected, this`subscriptions
      ensures rc == 0 ==> connected && subscriptions == old(subscriptions) + [SensorTopic]
      ensures rc != 0 ==> connected == old(connected) && subscriptions == old(subscriptions)
    {
      if rc == 0 {
        connected := true;
        subscriptions := subscriptions + [SensorTopic];
      }
    }

    /** `on_disconnect`: clears the flag whatever the result code. */
    method OnDisconnect(rc: int)
      modifies this`connected
      ensures !connected
    {
      connected := false;
    }

    /** `on_message`: enqueue the payload for the consumer and return. */
    method OnMessage(payload: string)
      modifies this`queue
      ensures queue == old(queue) + [QueueItem(DataTag, payload)]
    {
      queue := queue + [QueueItem(DataTag, payload)];
    }

    /** `send_cmd`: publish the command on the command topic only while
        connected; otherwise nothing is published (a warning box is shown). */
    method SendCmd(cmd: string)
      modifies this`published
      ensures connected ==> published == old(published) + [(CommandTopic, cmd)]
      ensures !connected ==> published == old(published)
    {
      if connected {
        published := published + [(CommandTopic, cmd)];
      }
    }

    /** `toggle_logging`. Starting names a new file after `stamp`, creates it
        holding only the header row and sets the flag; if the file cannot be
        created the name has already changed but the flag stays clear, nothing
        is written and `ok` is false. Stopping only clears the flag. */
    method ToggleLogging(stamp: string, createOk: bool) returns (ok: bool)
      requires Valid()
      modifies this`isLogging, this`csvFile, this`logRows
      ensures Valid()
      ensures old(isLogging) ==> ok && !isLogging && csvFile == old(csvFile) && logRows == old(logRows)
      ensures !old(isLogging) ==> csvFile == LogFileName(stamp) && ok == createOk && isLogging == createOk
      ensures !old(isLogging) && createOk ==> logRows == [Header]
      ensures !old(isLogging) && !createOk ==> logRows == old(logRows)
    {
      if !isLogging {
        csvFile := LogFileName(stamp);
        if createOk {
          logRows := [Header];
          isLogging := true;
          ok := true;
        } else {
          ok := false;
        }
      } else {
        isLogging := false;
        ok := true;
      }
    }

    /** `process_data`: a payload that decodes adds one reading to every history
        buffer and, while logging and if the write succeeds, one row to the log
        file. The history is extended before the file is written, so a failed
        write leaves the history grown and the log unchanged. A payload that
        does not decode changes nothing. */
    method ProcessData(data: string, e: Env)
      requires Valid()
      modifies this`timeData, this`voltageData, this`currentData, this`powerData,
               this`temperatureData, this`logRows, this`accepted
      ensures Valid()
      ensures accepted == old(accepted) + NewReadings(data, parse, e)
      ensures logRows == old(logRows) + (if isLogging then NewRows(data, parse, e) else [])
      ensures Decode(data, parse).None? ==>
                && timeData == old(timeData) && voltageData == old(voltageData)
                && currentData == old(currentData) && powerData == old(powerData)
                && temperatureData == old(temperatureData) && logRows == old(logRows)
    {
      match Decode(data, parse)
      case Some(frame) =>
        RecordReading(Reading(e.elapsed, frame));
        if isLogging && e.writeOk {
          logRows := logRows + [LogRow(e.stamp, frame)];
        }
        // a failed open or write is swallowed by the catch-all handler
      case None =>
    }

    /** The five deque appends of `process_data`: every buffer gains the
        reading's value, evicting its oldest value when full. */
    method RecordReading(r: Reading)
      requires HistoryValid()
      modifies this`timeData, this`voltageData, this`currentData, this`powerData,
               this`temperatureData, this`accepted
      ensures HistoryValid()
      ensures accepted == old(accepted) + [r]
    {
      HistoryStep(accepted, r);
      timeData := Append(timeData, r.elapsed);
      voltageData := Append(voltageData, r.frame.voltage);
      currentData := Append(currentData, r.frame.current);
      powerData := Append(powerData, r.frame.power);
      temperatureData := Append(temperatureData, r.frame.temperature);
      accepted := accepted + [r];
    }

    /** One iteration of `check_gui_queue`: a `data` entry goes to
        `ProcessData`, any other entry is dropped. */
    method Dispatch(item: QueueItem, e: Env)
      requires Valid()
      modifies this`timeData, this`voltageData, this`currentData, this`powerData,
               this`temperatureData, this`logRows, this`accepted
      ensures Valid()
      ensures accepted == old(accepted) + ItemReadings(item, parse, e)
      ensures logRows == old(logRows) + (if isLogging then ItemRows(item, parse, e) else [])
    {
      if item.tag == DataTag {
        ProcessData(item.payload, e);
      }
    }

    /** `check_gui_queue`: drain the whole queue, oldest entry first, handing
        every `data` entry to `ProcessData`; entry `k` is handled under the
        observations `env(k)`. Afterwards the queue is empty and the history
        and the log have grown exactly as `Readings` and `LoggedRows` say. */
    method CheckGuiQueue(env: nat -> Env)
      requires Valid()
      modifies this`queue, this`timeData, this`voltageData, this`currentData, this`powerData,
               this`temperatureData, this`logRows, this`accepted
      ensures Valid()
      ensures queue == []
      ensures accepted == old(accepted) + Readings(old(queue), parse, env)
      ensures logRows == old(logRows) + (if isLogging then LoggedRows(old(queue), parse, env) else [])
    {
      ghost var items, acc0, rows0 := queue, accepted, logRows;
      var n: nat := 0;
      while queue != []
        invariant Valid()
        invariant n <= |items| && queue == items[n..]
        invariant accepted == acc0 + Readings(items[..n], parse, env)
        invariant logRows == rows0 + (if isLogging then LoggedRows(items[..n], parse, env) else [])
        decreases |queue|
      {
        var item := queue[0];
        queue := queue[1..];
        ghost var accMid, rowsMid := accepted, logRows;
        Dispatch(item, env(n));
        DrainProgress(acc0, rows0, isLogging, items, n, parse, env, accMid, rowsMid);
        n := n + 1;
      }
      assert items[..n] == items;
    }
  }
}
