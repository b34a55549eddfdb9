# ESP32 MQTT monitor — a Dafny model of its data path

The dashboard (`Dashboard_App.py`) subscribes over MQTT to the telemetry an
ESP32 board publishes and keeps the recent readings for plotting. It can log
every reading to a CSV file and can publish relay commands back to the board.
This project models the part of `ESP32MQTTMonitor` that does not draw
anything:

- **the wire frame** (module `WireCodec`): a payload such as
  `V,230.5,A,1.20,P,276.6,T,35.2,R,ON,S,NORMAL` is cut at every comma, exactly
  as Python's `str.split(',')` does. It needs at least twelve tokens. Tokens
  1, 3, 5 and 7 are parsed as numbers (voltage, current, power, temperature).
  The program takes token 10 as the relay and token 11 as the safety status,
  verbatim. In the documented layout, tokens 0, 2, 4, 6, 8 and 10 are labels
  and token 9 is the relay value. So the relay the program shows and logs is
  the label `S`, and the relay value itself is ignored (see "## Findings").
  The model decodes as the program does.
- **the rolling history** (module `History`): five parallel `deque(maxlen=100)`
  buffers (time, voltage, current, power, temperature). A full buffer evicts
  its oldest value.
- **what one drain does, as values** (module `Ingest`):
  - which readings reach the history, and which rows reach the log;
  - the timer's `check_gui_queue` drains the queue that `on_message` fills, first in first out.
- **the monitor object** (module `Dashboard`, class `Monitor`):
  - the connection flag set by `on_connect` and cleared by `on_disconnect`;
  - `send_cmd`'s gate on that flag;
  - the logging switch `toggle_logging` and the current log file's name and rows;
  - the queue, `process_data`, `check_gui_queue` and the five buffers, all updated in place.

The class keeps a ghost list of every reading accepted so far. Its invariant
`Valid()` says that each buffer is the last 100 values of its metric over
that list. Every method that touches the buffers keeps the invariant.
`OnConnect`, `OnDisconnect`, `OnMessage` and `SendCmd` cannot touch the
buffers, by their `modifies` clauses. So after any sequence of operations the
buffers are aligned and hold the newest `min(n, 100)` readings.

Python's `float()` is a parameter of the monitor, `parse: string -> Option<Num>`, with `Num` abstract.
The elapsed session time, the wall-clock text of a log row and whether the
log file can be written are passed in as an `Env` for each handled payload.
The MQTT client's `subscribe` and `publish` are recorded in ghost lists.

## Model

| member | source | states |
|---|---|---|
| WireCodec.Split | Dashboard_App.py:151 | `str.split(',')`: one token more than there are separators, and no token contains the separator |
| WireCodec.JoinSplit | Dashboard_App.py:151 | joining the tokens of any payload with commas gives the payload back, so no character is dropped or trimmed |
| WireCodec.SplitJoin | Dashboard_App.py:151 | splitting comma-free tokens joined by commas gives exactly those tokens back, empty tokens included |
| WireCodec.Decode | Dashboard_App.py:151-152 | a payload with fewer than eleven commas (fewer than twelve fields) never yields a frame |
| WireCodec.DecodeWireFrame | Dashboard_App.py:150-155 | a twelve-or-more-token frame decodes exactly when tokens 1, 3, 5, 7 all parse, to those four numbers and tokens 10 and 11 verbatim |
| WireCodec.DecodeIgnoresLabels | Dashboard_App.py:154-155 | only tokens 1, 3, 5, 7, 10 and 11 affect the decoded frame: the labels at 0, 2, 4, 6, 8, the relay value at 9 and tokens past 11 do not |
| WireCodec.SampleRelayAsWritten | Dashboard_App.py:150-155 | the documented sample frame decodes to relay `S` and safety `NORMAL`, whatever relay value it reports |
| WireCodec.RelayValueIgnored | Dashboard_App.py:155 | sample frames that differ only in the relay value decode alike |
| WireCodec.OnOffIgnored | Dashboard_App.py:155 | the sample frame decodes the same whether it reports `ON` or `OFF` |
| WireCodec.DecodeIntendedWireFrame | Dashboard_App.py:150-155 | the corrected decoder accepts exactly the frames `Decode` accepts and yields the same frame, except that the relay is token 9 |
| WireCodec.SampleRelayIntended | Dashboard_App.py:150 | the corrected decoder reads the sample frame's relay as the value it reports, with safety `NORMAL` |
| WireCodec.SampleOnRelay | Dashboard_App.py:150-160 | the sample frame reporting `ON` decodes to relay `S` as written and to `ON` with the correction |
| WireCodec.GarbageRejected | Dashboard_App.py:151-152 | `"garbage"` decodes to nothing whatever the number parser accepts |
| History.Append | Dashboard_App.py:37-41 | a `deque(maxlen=100)` append: the length grows by one up to 100 and then stays at 100, and the new value is last |
| History.AppendWindow | Dashboard_App.py:37-41 | appending to the last 100 values gives the last 100 values of the longer sequence, oldest evicted first |
| History.WindowAligned | Dashboard_App.py:163-164 | each buffer holds `min(n, 100)` values, and position `k` of a buffer is its metric of the `k`-th retained reading |
| History.OverflowEvictsOldest | Dashboard_App.py:36-41 | after 105 readings a buffer holds exactly readings 6 to 105 |
| History.HistoryStep | Dashboard_App.py:163-164 | the five appends of one reading take the buffers of the readings so far to the buffers of those readings plus the new one |
| Ingest.LogRowMatchesHeader | Dashboard_App.py:169 | the row written for a frame has one cell per header column (line 178), and the cell at each position is the one that column's name asks for: the stamp under `Timestamp`, voltage under `Voltage`, …, the safety token under `Status` |
| Ingest.PayloadEffect | Dashboard_App.py:162-169 | (the case split of the definitions, spelled out) a payload adds one reading exactly when it decodes; it adds one row exactly when it decodes and the write succeeds; the reading carries the decoded frame |
| Ingest.DrainStep | Dashboard_App.py:144-146 | (the defining equation of a drain, spelled out) handling one more queue entry extends the readings and the rows by that entry's own contribution |
| Ingest.DrainComposes | Dashboard_App.py:143-147 | two successive drains (two timer ticks), of `q1` and then of `q2`, accept the same readings and write the same log rows, in the same order, as one drain of `q1 + q2` |
| Ingest.DrainInOrder | Dashboard_App.py:143-146 | when every entry is decodable data, entry `k` becomes reading `k`: every payload once, in queue order |
| Ingest.RejectedLeaveNoTrace | Dashboard_App.py:146-154 | entries with another tag, too few fields or an unparsable number add no reading and no row |
| Ingest.LogMirrorsHistory | Dashboard_App.py:162-169 | while writes succeed, the `k`-th row a drain writes has seven cells and carries the frame of the `k`-th reading it accepts |
| Dashboard.LogFileNameInjective | Dashboard_App.py:176 | log files started under different stamps get different names, and equal stamps give equal names |
| Dashboard.DrainProgress | Dashboard_App.py:144-146 | the drain loop's invariant survives one iteration, with logging on or off |
| Dashboard.Monitor.constructor | Dashboard_App.py:30-44 | a new monitor is disconnected and not logging, with an empty queue, empty buffers and an empty log file name |
| Dashboard.Monitor.HistoryAligned | Dashboard_App.py:163-164 | the five buffers have one length, `min(n, 100)` for `n` accepted readings, and position `k` of every buffer comes from the same reading |
| Dashboard.Monitor.LatestReading | Dashboard_App.py:163-164 | the newest value of every buffer comes from the newest accepted reading |
| Dashboard.Monitor.OnConnect | Dashboard_App.py:117-124 | result code 0 sets `connected` and subscribes once to the sensor topic; any other code changes neither |
| Dashboard.Monitor.OnDisconnect | Dashboard_App.py:126-129 | `connected` is false afterwards, whatever the result code |
| Dashboard.Monitor.OnMessage | Dashboard_App.py:131-133 | the payload is appended to the queue, tagged `data`, and nothing else changes |
| Dashboard.Monitor.SendCmd | Dashboard_App.py:135-140 | `(command topic, cmd)` is published exactly when connected; otherwise nothing is published |
| Dashboard.Monitor.ToggleLogging | Dashboard_App.py:174-185 | start: names the file after the stamp, the file holds only the header row, the flag is set; if creation fails the name has changed but the flag stays clear; stop: clears the flag and keeps the file |
| Dashboard.Monitor.ProcessData | Dashboard_App.py:149-171 | a decodable payload adds one reading to the history, and one row to the log while logging and if the write succeeds; any other payload changes no buffer and no row; the invariant is kept |
| Dashboard.Monitor.RecordReading | Dashboard_App.py:162-164 | the five deque appends keep every buffer equal to the window of its metric over the accepted readings |
| Dashboard.Monitor.Dispatch | Dashboard_App.py:146 | a `data` entry goes to `ProcessData`; any other entry changes nothing |
| Dashboard.Monitor.CheckGuiQueue | Dashboard_App.py:143-147 | the queue ends empty; the history and log grow by exactly what each entry contributes, in queue order; logging stopped means no rows |

## Left out

- Tkinter presentation is not modelled: the window, label text and colours set by `process_data`, the console `log`, the warning box of `send_cmd`, and the button captions.
- The Matplotlib charts of `setup_animation` are not modelled; they only read the buffers.
- The paho-mqtt client is not modelled: `setup_mqtt`, `connect`, `loop_start`, and the broker's delivery. `subscribe` and `publish` are recorded in ghost lists, with no failure modelled.
- The network thread and the Tk timer run concurrently in the program; here `OnMessage` and `CheckGuiQueue` are ordinary sequential methods. The 50 ms re-arming through `root.after` is not modelled.
- Floating point is not modelled. `float()` is the abstract parser `parse`, which also covers its acceptance of `nan`, `inf` and surrounding blanks. Numbers are never computed with.
- The clock (`time.time()`, `datetime.now()`) and its formatting are parameters: the elapsed time and the row stamp per payload, and the file-name stamp.
- File I/O is not modelled: opening, CSV quoting, number formatting and the earlier log files left on disk. Only the name and rows of the current log file are kept. A failed open or write is the `writeOk` and `createOk` flags.
- `on_message`'s UTF-8 decoding is not modelled; the payload arrives as text, so a payload that is not valid UTF-8 is not covered.
- The `running` flag is not modelled; nothing in the class reads it.
- Dashboard.Monitor.ToggleLogging: when the file cannot be created, `open` raises out of `toggle_logging`. The model returns `ok == false` with the new name already stored, and does not model the exception itself.
- Dashboard.Monitor.CheckGuiQueue: entry `k` of the drain sees `env(k)`, so the clock, stamp and write outcome are fixed per entry in advance rather than read during the drain.
- The program has none of the following, and the model adds none:
  - a CONNECTING state;
  - a malformed-frame counter;
  - a relay UNKNOWN mapping (relay and safety tokens are kept verbatim);
  - a bounded or drop-oldest inbound queue;
  - a guard against starting a log that is already running (the button simply toggles).
- The sample frame is stated as the comma-join of its twelve tokens (`WireCodec.SampleFrame`), not as one string literal, whose decoding is too costly for the verifier. The join of those tokens is `V,230.5,A,1.20,P,276.6,T,35.2,R,ON,S,NORMAL`.

## Findings

| source | as written | input that shows it | evidently intended | confidence | as-written member | corrected member |
|---|---|---|---|---|---|---|
| Dashboard_App.py:155 | `rel = parts[10]`: the relay is read from token 10, which in the documented frame layout of line 150 is the label `S` | `V,230.5,A,1.20,P,276.6,T,35.2,R,ON,S,NORMAL` decodes to relay `S`; the same frame with `OFF` decodes identically, so the relay colour test `rel=="ON"` at line 160 never holds and the log's Relay column always reads `S` | `rel = parts[9]`, the token after the `R` label | high (not executed) | WireCodec.SampleRelayAsWritten | WireCodec.SampleRelayIntended |

`WireCodec.Decode`, and with it the `Monitor` class, decodes as the program does, so the model shows the program's actual behaviour. `WireCodec.DecodeIntended` is the corrected decoder. `WireCodec.DecodeIntendedWireFrame` proves that it differs from `Decode` only in the relay. `WireCodec.SampleOnRelay` shows both outcomes on the sample frame.
