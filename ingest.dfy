/**
 What the consumer side of `ESP32MQTTMonitor` does with the payloads it
 dequeues, as values: which readings reach the history and which rows reach
 the CSV log. The class in module Dashboard is proved to follow these functions.
 */
module Ingest {
  import opened Wrappers
  import opened WireCodec
  import opened History

  /** One CSV cell: text, or a number written by the CSV writer. */
  datatype Cell = Text(text: string) | Number(value: Num)

  type Row = seq<Cell>

  /** The header row written when a log file is created. */
  const Header: Row := [Text("Timestamp"), Text("Voltage"), Text("Current"), Text("Power"),
                        Text("Temp"), Text("Relay"), Text("Status")]

  /** The tag `on_message` gives every payload it enqueues. */
  const DataTag: string := "data"

  /** An entry of the inbound queue: a tag and a decoded payload. */
  datatype QueueItem = QueueItem(tag: string, payload: string)

  /** What the consumer observes when it handles one payload: the session time
      (`time.time() - session_start_time`), the wall-clock text written in
      the log row, and whether opening and writing the log file succeeds. */
  datatype Env = Env(elapsed: Num, stamp: string, writeOk: bool)

  /** The six cells of a row that come from the frame, in header order. */
  function FrameCells(f: Frame): Row
  {
    [Number(f.voltage), Number(f.current), Number(f.power), Number(f.temperature),
     Text(f.relay), Text(f.safety)]
  }

  /** The row `process_data` writes for an accepted frame. */
  function LogRow(stamp: string, f: Frame): Row
  {
    [Text(stamp)] + FrameCells(f)
  }

  /** The cell a row carries under the header column named `column`, looked up
      by name: the timestamp, the four measurements, the relay and the safety
      token. `None` for a name that is not a column of the log. */
  function CellFor(column: string, stamp: string, f: Frame): Option<Cell>
  {
    if column == "Timestamp" then Some(Text(stamp))
    else if column == "Voltage" then Some(Number(f.voltage))
    else if column == "Current" then Some(Number(f.current))
    else if column == "Power" then Some(Number(f.power))
    else if column == "Temp" then Some(Number(f.temperature))
    else if column == "Relay" then Some(Text(f.relay))
    else if column == "Status" then Some(Text(f.safety))
    else None
  }

  /** Every cell of a log row sits under the header column of its name: the
      row written by `process_data` agrees with the header `toggle_logging`
      writes, column by column. */
  lemma LogRowMatchesHeader(stamp: string, f: Frame)
    ensures |LogRow(stamp, f)| == |Header|
    ensures forall k :: 0 <= k < |Header| ==>
              Header[k].Text? && CellFor(Header[k].text, stamp, f) == Some(LogRow(stamp, f)[k])
  {
    var row := LogRow(stamp, f);
    assert row == [Text(stamp), Number(f.voltage), Number(f.current), Number(f.power),
                   Number(f.temperature), Text(f.relay), Text(f.safety)];
  }

  /** The readings `process_data` adds to the history for one payload: one
      if the payload decodes, none otherwise. */
  function NewReadings(payload: string, parse: NumParser, e: Env): seq<Reading>
  {
    match Decode(payload, parse)
    case Some(f) => [Reading(e.elapsed, f)]
    case None => []
  }

  /** The rows `process_data` appends to an open log file for one payload: one
      if the payload decodes and the file can be opened and written. */
  function NewRows(payload: string, parse: NumParser, e: Env): seq<Row>
  {
    match Decode(payload, parse)
    case Some(f) => if e.writeOk then [LogRow(e.stamp, f)] else []
    case None => []
  }

  /** What one queue entry adds to the history: only `data` entries are
      handed to `process_data`. */
  function ItemReadings(item: QueueItem, parse: NumParser, e: Env): seq<Reading>
  {
    if item.tag == DataTag then NewReadings(item.payload, parse, e) else []
  }

  /** What one queue entry adds to an open log file. */
  function ItemRows(item: QueueItem, parse: NumParser, e: Env): seq<Row>
  {
    if item.tag == DataTag then NewRows(item.payload, parse, e) else []
  }

  /** The readings a drain of `items` appends to the history; entry `k` is
      handled under the observations `env(k)`. */
  function Readings(items: seq<QueueItem>, parse: NumParser, env: nat -> Env): seq<Reading>
    decreases |items|
  {
    if items == [] then []
    else
      var n := |items| - 1;
      Readings(items[..n], parse, env) + ItemReadings(items[n], parse, env(n))
  }

  /** The rows a drain of `items` appends to an open log file. */
  function LoggedRows(items: seq<QueueItem>, parse: NumParser, env: nat -> Env): seq<Row>
    decreases |items|
  {
    if items == [] then []
    else
      var n := |items| - 1;
      LoggedRows(items[..n], parse, env) + ItemRows(items[n], parse, env(n))
  }

  /** One payload: it adds a reading exactly when it decodes, and a row exactly
      when it decodes and the write succeeds. A failed write therefore leaves
      the history one reading longer and the log unchanged. */
  lemma PayloadEffect(payload: string, parse: NumParser, e: Env)
    ensures |NewReadings(payload, parse, e)| == (if Decode(payload, parse).Some? then 1 else 0)
    ensures |NewRows(payload, parse, e)| == (if Decode(payload, parse).Some? && e.writeOk then 1 else 0)
    ensures Decode(payload, parse).Some? ==>
              NewReadings(payload, parse, e)[0] == Reading(e.elapsed, Decode(payload, parse).value)
    ensures Decode(payload, parse).Some? && e.writeOk ==>
              NewRows(payload, parse, e)[0] == LogRow(e.stamp, Decode(payload, parse).value)
  {
  }

  /** Handling one more entry of the queue extends the readings and the rows
      by what that entry alone contributes. */
  lemma DrainStep(done: seq<QueueItem>, item: QueueItem, parse: NumParser, env: nat -> Env)
    ensures Readings(done + [item], parse, env) == Readings(done, parse, env) + ItemReadings(item, parse, env(|done|))
    ensures LoggedRows(done + [item], parse, env) == LoggedRows(done, parse, env) + ItemRows(item, parse, env(|done|))
  {
    assert (done + [item])[..|done|] == done;
  }

  /** The observations of a drain that starts `d` entries later. */
  function Shift(env: nat -> Env, d: nat): nat -> Env
  {
    (k: nat) => env(d + k)
  }

  /** Concatenation regroups freely. */
  lemma Regroup<T>(a: seq<T>, b: seq<T>, c: seq<T>)
    ensures (a + b) + c == a + (b + c)
  {
  }

  /** Cutting the last entry off the second of two queues. */
  lemma CutLast(q1: seq<QueueItem>, q2: seq<QueueItem>)
    requires q2 != []
    ensures q2 == q2[..|q2| - 1] + [q2[|q2| - 1]]
    ensures q1 + q2 == (q1 + q2[..|q2| - 1]) + [q2[|q2| - 1]]
  {
    assert q2 == q2[..|q2| - 1] + [q2[|q2| - 1]];
  }

  /** Two successive drains, of `q1` and then of `q2`, accept the readings and
      write the rows one drain of `q1 + q2` would, in the same order: it does
      not matter at which timer tick the queue was cut. */
  lemma {:induction false} DrainComposes(q1: seq<QueueItem>, q2: seq<QueueItem>, parse: NumParser, env: nat -> Env)
    ensures Readings(q1 + q2, parse, env) == Readings(q1, parse, env) + Readings(q2, parse, Shift(env, |q1|))
    ensures LoggedRows(q1 + q2, parse, env) == LoggedRows(q1, parse, env) + LoggedRows(q2, parse, Shift(env, |q1|))
    decreases |q2|
  {
    if q2 == [] {
      assert q1 + q2 == q1;
    } else {
      var front, last := q2[..|q2| - 1], q2[|q2| - 1];
      CutLast(q1, q2);
      DrainComposes(q1, front, parse, env);
      ComposeStep(q1, front, last, parse, env);
    }
  }

  /** The induction step of `DrainComposes`: one more entry at the end of the second queue. */
  lemma ComposeStep(q1: seq<QueueItem>, front: seq<QueueItem>, last: QueueItem, parse: NumParser, env: nat -> Env)
    requires Readings(q1 + front, parse, env) == Readings(q1, parse, env) + Readings(front, parse, Shift(env, |q1|))
    requires LoggedRows(q1 + front, parse, env) == LoggedRows(q1, parse, env) + LoggedRows(front, parse, Shift(env, |q1|))
    ensures Readings((q1 + front) + [last], parse, env)
            == Readings(q1, parse, env) + Readings(front + [last], parse, Shift(env, |q1|))
    ensures LoggedRows((q1 + front) + [last], parse, env)
            == LoggedRows(q1, parse, env) + LoggedRows(front + [last], parse, Shift(env, |q1|))
  {
    var shifted := Shift(env, |q1|);
    assert shifted(|front|) == env(|q1 + front|);
    DrainStep(q1 + front, last, parse, env);
    DrainStep(front, last, parse, shifted);
    Regroup(Readings(q1, parse, env), Readings(front, parse, shifted), ItemReadings(last, parse, shifted(|front|)));
    Regroup(LoggedRows(q1, parse, env), LoggedRows(front, parse, shifted), ItemRows(last, parse, shifted(|front|)));
  }

  /** When every entry is a `data` entry that decodes, the drain accepts every
      payload exactly once and in queue order. */
  lemma {:induction false} DrainInOrder(items: seq<QueueItem>, parse: NumParser, env: nat -> Env)
    requires forall k :: 0 <= k < |items| ==>
               items[k].tag == DataTag && Decode(items[k].payload, parse).Some?
    ensures |Readings(items, parse, env)| == |items|
    ensures forall k :: 0 <= k < |items| ==>
              Readings(items, parse, env)[k] == Reading(env(k).elapsed, Decode(items[k].payload, parse).value)
    decreases |items|
  {
    if items != [] {
      var n := |items| - 1;
      var prefix := items[..n];
      DrainInOrder(prefix, parse, env);
      var whole := Readings(items, parse, env);
      var before := Readings(prefix, parse, env);
      var e := env(n);
      var f := Decode(items[n].payload, parse);
      assert whole == before + [Reading(e.elapsed, f.value)];
      forall k | 0 <= k < |items|
        ensures whole[k] == Reading(env(k).elapsed, Decode(items[k].payload, parse).value)
      {
        if k < n {
          assert whole[k] == before[k] && prefix[k] == items[k];
        }
      }
    }
  }

  /** Entries that are not accepted (wrong tag, too few fields, a number that
      does not parse) add nothing to the history and nothing to the log. */
  lemma {:induction false} RejectedLeaveNoTrace(items: seq<QueueItem>, parse: NumParser, env: nat -> Env)
    requires forall k :: 0 <= k < |items| ==>
               items[k].tag != DataTag || Decode(items[k].payload, parse).None?
    ensures Readings(items, parse, env) == []
    ensures LoggedRows(items, parse, env) == []
    decreases |items|
  {
    if items != [] {
      var n := |items| - 1;
      RejectedLeaveNoTrace(items[..n], parse, env);
    }
  }

  /** While every write succeeds, the log receives one row per reading the
      history receives, in the same order and with the same frame. */
  lemma {:induction false} LogMirrorsHistory(items: seq<QueueItem>, parse: NumParser, env: nat -> Env)
    requires forall k: nat :: env(k).writeOk
    ensures |LoggedRows(items, parse, env)| == |Readings(items, parse, env)|
    ensures forall k :: 0 <= k < |Readings(items, parse, env)| ==>
              |LoggedRows(items, parse, env)[k]| == |Header| &&
              LoggedRows(items, parse, env)[k][1..] == FrameCells(Readings(items, parse, env)[k].frame)
    decreases |items|
  {
    if items != [] {
      var n := |items| - 1;
      LogMirrorsHistory(items[..n], parse, env);
    }
  }
}
