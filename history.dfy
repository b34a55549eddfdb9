/**
 The rolling history of `ESP32MQTTMonitor`: five `deque(maxlen=100)` buffers
 (elapsed time, voltage, current, power, temperature) that gain one value per
 accepted frame, the oldest value leaving when a buffer is full.
 */
module History {
  import opened WireCodec

  /** `max_data_points`: the `maxlen` of every history deque. */
  const MaxDataPoints: nat := 100

  /** One accepted frame together with the session time at which it was accepted. */
  datatype Reading = Reading(elapsed: Num, frame: Frame)

  /** The five quantities a history buffer holds. */
  datatype Metric = Time | Voltage | Current | Power | Temperature

  function ValueOf(r: Reading, m: Metric): Num
  {
    match m
    case Time => r.elapsed
    case Voltage => r.frame.voltage
    case Current => r.frame.current
    case Power => r.frame.power
    case Temperature => r.frame.temperature
  }

  /** One metric of every reading, in arrival order. */
  function Column(rs: seq<Reading>, m: Metric): seq<Num>
  {
    seq(|rs|, k requires 0 <= k < |rs| => ValueOf(rs[k], m))
  }

  /** A column has one entry per reading, and entry `k` is reading `k`'s value. */
  lemma ColumnAt(rs: seq<Reading>, m: Metric)
    ensures |Column(rs, m)| == |rs|
    ensures forall k :: 0 <= k < |rs| ==> Column(rs, m)[k] == ValueOf(rs[k], m)
  {
  }

  /** The last `min(|s|, MaxDataPoints)` elements of `s`, in order. */
  function Window<T>(s: seq<T>): seq<T>
  {
    if |s| <= MaxDataPoints then s else s[|s| - MaxDataPoints..]
  }

  /** `deque.append` on a deque whose `maxlen` is `MaxDataPoints`: when the
      deque is full, the leftmost element is discarded. The result grows by
      one up to the capacity and then stays there, and it ends with `x`. */
  function Append<T>(buf: seq<T>, x: T): (r: seq<T>)
    requires |buf| <= MaxDataPoints
    ensures |r| == if |buf| < MaxDataPoints then |buf| + 1 else MaxDataPoints
    ensures r[|r| - 1] == x
  {
    if |buf| < MaxDataPoints then buf + [x] else buf[1..] + [x]
  }

  /** Appending to the window of the values so far gives the window of the
      values so far plus the new one: a buffer fed value by value holds the
      last `MaxDataPoints` values, oldest evicted first. */
  lemma {:induction false} AppendWindow<T>(s: seq<T>, x: T)
    ensures |Window(s)| <= MaxDataPoints
    ensures Append(Window(s), x) == Window(s + [x])
  {
    var t := s + [x];
    if |s| < MaxDataPoints {
    } else if |s| == MaxDataPoints {
      assert Window(t) == t[1..];
      assert t[1..] == s[1..] + [x];
    } else {
      assert Window(s)[1..] + [x] == t[|t| - MaxDataPoints..];
    }
  }

  /** A column gains exactly the new reading's value. */
  lemma ColumnSnoc(rs: seq<Reading>, r: Reading, m: Metric)
    ensures Column(rs + [r], m) == Column(rs, m) + [ValueOf(r, m)]
  {
    assert (rs + [r])[..|rs|] == rs;
  }

  /** The five buffers are parallel: each has `min(n, MaxDataPoints)` entries
      for `n` readings, and position `k` of every buffer comes from the same reading. */
  lemma WindowAligned(rs: seq<Reading>, m: Metric)
    ensures |Window(Column(rs, m))| == |Window(rs)|
    ensures |Window(rs)| == if |rs| <= MaxDataPoints then |rs| else MaxDataPoints
    ensures forall k :: 0 <= k < |Window(rs)| ==> Window(Column(rs, m))[k] == ValueOf(Window(rs)[k], m)
  {
    ColumnAt(rs, m);
  }

  /** Feeding `MaxDataPoints + 5` readings leaves exactly the last `MaxDataPoints`
      of them, the first five evicted. */
  lemma OverflowEvictsOldest(rs: seq<Reading>, m: Metric)
    requires |rs| == MaxDataPoints + 5
    ensures Window(Column(rs, m)) == Column(rs[5..], m)
  {
    ColumnAt(rs, m);
    ColumnAt(rs[5..], m);
    assert Window(Column(rs, m)) == Column(rs, m)[5..];
  }

  /** One accepted reading moves every buffer from the window of the old
      readings to the window of the old readings plus the new one. */
  lemma AppendReading(rs: seq<Reading>, r: Reading, m: Metric)
    ensures |Window(Column(rs, m))| <= MaxDataPoints
    ensures Append(Window(Column(rs, m)), ValueOf(r, m)) == Window(Column(rs + [r], m))
  {
    AppendWindow(Column(rs, m), ValueOf(r, m));
    ColumnSnoc(rs, r, m);
  }

  /** The five history deques, side by side. */
  datatype Buffers = Buffers(time: seq<Num>, voltage: seq<Num>, current: seq<Num>,
                             power: seq<Num>, temperature: seq<Num>)

  /** The buffers after the readings `rs` have been appended one by one to
      empty deques. */
  function HistoryOf(rs: seq<Reading>): Buffers
  {
    Buffers(Window(Column(rs, Time)), Window(Column(rs, Voltage)), Window(Column(rs, Current)),
            Window(Column(rs, Power)), Window(Column(rs, Temperature)))
  }

  /** Appending one reading's five values to the five deques, as `process_data`
      does, gives the buffers of the readings so far plus that reading. */
  lemma HistoryStep(rs: seq<Reading>, r: Reading)
    ensures var h := HistoryOf(rs);
            && |h.time| <= MaxDataPoints && |h.voltage| <= MaxDataPoints
            && |h.current| <= MaxDataPoints && |h.power| <= MaxDataPoints
            && |h.temperature| <= MaxDataPoints
            && HistoryOf(rs + [r])
               == Buffers(Append(h.time, r.elapsed), Append(h.voltage, r.frame.voltage),
                          Append(h.current, r.frame.current), Append(h.power, r.frame.power),
                          Append(h.temperature, r.frame.temperature))
  {
    AppendReading(rs, r, Time);
    AppendReading(rs, r, Voltage);
    AppendReading(rs, r, Current);
    AppendReading(rs, r, Power);
    AppendReading(rs, r, Temperature);
  }
}
