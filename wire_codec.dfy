/**
 The device's comma-separated telemetry frame, as `process_data` reads it
 (`V,230.5,A,1.20,P,276.6,T,35.2,R,ON,S,NORMAL`): the payload is cut at every
 comma, exactly as Python's `str.split(',')` does (no trimming, empty tokens
 kept), and the fields are taken by position: 1, 3, 5, 7 as numbers, 10 as
 the relay and 11 as the safety status. In that layout tokens 0, 2, 4, 6, 8
 and 10 are labels and token 9 carries the relay value, so the program takes
 the label `S` as the relay and never looks at the relay value; `DecodeIntended`
 reads token 9 instead.
 */
module WireCodec {
  import opened Wrappers

  /** A number as Python's `float()` produces it. Its arithmetic is never used. */
  type Num(==)

  /** Python's `float()` on one token: `None` where it would raise. */
  type NumParser = string -> Option<Num>

  const Separator: char := ','
  /** A frame with fewer tokens than this is ignored. */
  const MinFields: nat := 12
  const VoltageField: nat := 1
  const CurrentField: nat := 3
  const PowerField: nat := 5
  const TemperatureField: nat := 7
  /** The token `process_data` reads as the relay: in the documented layout, the label `S`. */
  const RelayField: nat := 10
  /** The token that carries the relay value in the documented layout. */
  const IntendedRelayField: nat := 9
  const SafetyField: nat := 11

  /** One decoded frame; relay and safety are the tokens exactly as received. */
  datatype Frame = Frame(voltage: Num, current: Num, power: Num, temperature: Num,
                         relay: string, safety: string)

  /** Number of occurrences of `c` in `s`. */
  function Occurrences(s: string, c: char): nat
  {
    if s == [] then 0 else (if s[0] == c then 1 else 0) + Occurrences(s[1..], c)
  }

  /** Python's `sep.join(parts)`. */
  function Join(parts: seq<string>, sep: char): string
  {
    if |parts| == 0 then ""
    else if |parts| == 1 then parts[0]
    else parts[0] + [sep] + Join(parts[1..], sep)
  }

  /** Python's `s.split(sep)` for a one-character separator: one token more
      than there are separators, and no token holds the separator. */
  function Split(s: string, sep: char): (parts: seq<string>)
    ensures |parts| == Occurrences(s, sep) + 1
    ensures forall k :: 0 <= k < |parts| ==> sep !in parts[k]
    decreases |s|
  {
    if s == [] then [""]
    else
      var rest := Split(s[1..], sep);
      if s[0] == sep then [""] + rest
      else [[s[0]] + rest[0]] + rest[1..]
  }

  /** Round trip: joining the tokens of `s` with the separator gives `s` back. */
  lemma {:induction false} JoinSplit(s: string, sep: char)
    ensures Join(Split(s, sep), sep) == s
    decreases |s|
  {
    if s != [] {
      var rest := Split(s[1..], sep);
      JoinSplit(s[1..], sep);
      assert s == [s[0]] + s[1..];
      if s[0] != sep {
        var parts := [[s[0]] + rest[0]] + rest[1..];
        assert parts[1..] == rest[1..];
        if |rest| > 1 {
          assert Join(rest, sep) == rest[0] + [sep] + Join(rest[1..], sep);
        }
      }
    }
  }

  /** The positional reading of `process_data`: at least twelve tokens and the
      four numeric positions all parse; the relay is taken from token `relayAt`. */
  function FromFields(parts: seq<string>, parse: NumParser, relayAt: nat): Option<Frame>
    requires relayAt < MinFields
  {
    if |parts| < MinFields then None
    else
      match (parse(parts[VoltageField]), parse(parts[CurrentField]),
             parse(parts[PowerField]), parse(parts[TemperatureField]))
      case (Some(v), Some(i), Some(p), Some(t)) =>
        Some(Frame(v, i, p, t, parts[relayAt], parts[SafetyField]))
      case _ => None
  }

  /** Decode one payload as the program does, relay from token 10. A payload
      with fewer than eleven commas never yields a frame. */
  function Decode(payload: string, parse: NumParser): (r: Option<Frame>)
    ensures r.Some? ==> Occurrences(payload, Separator) >= MinFields - 1
  {
    FromFields(Split(payload, Separator), parse, RelayField)
  }

  /** Decode one payload with the relay taken from token 9, where the documented
      layout puts the relay value. Everything else is as in `Decode`. */
  function DecodeIntended(payload: string, parse: NumParser): (r: Option<Frame>)
    ensures r.Some? ==> Occurrences(payload, Separator) >= MinFields - 1
  {
    FromFields(Split(payload, Separator), parse, IntendedRelayField)
  }

  /** Splitting a separator-free word gives that word alone. */
  lemma {:induction false} SplitWord(w: string, sep: char)
    requires sep !in w
    ensures Split(w, sep) == [w]
    decreases |w|
  {
    if w != [] {
      SplitWord(w[1..], sep);
      assert [w[0]] + w[1..] == w;
    }
  }

  /** Splitting `w + sep + rest` where `w` holds no separator gives `w` followed
      by the tokens of `rest`. */
  lemma {:induction false} SplitAfterWord(w: string, sep: char, rest: string)
    requires sep !in w
    ensures Split(w + [sep] + rest, sep) == [w] + Split(rest, sep)
    decreases |w|
  {
    var s := w + [sep] + rest;
    if w == [] {
      assert s[1..] == rest;
    } else {
      assert s[1..] == w[1..] + [sep] + rest;
      SplitAfterWord(w[1..], sep, rest);
      assert [w[0]] + w[1..] == w;
    }
  }

  /** Round trip: joining separator-free tokens and splitting again gives the tokens back. */
  lemma {:induction false} SplitJoin(parts: seq<string>, sep: char)
    requires |parts| >= 1
    requires forall k :: 0 <= k < |parts| ==> sep !in parts[k]
    ensures Split(Join(parts, sep), sep) == parts
    decreases |parts|
  {
    if |parts| == 1 {
      SplitWord(parts[0], sep);
    } else {
      SplitJoin(parts[1..], sep);
      SplitAfterWord(parts[0], sep, Join(parts[1..], sep));
      assert [parts[0]] + parts[1..] == parts;
    }
  }

  /** A frame on the wire: tokens without commas, joined by commas, at least
      twelve of them. It decodes to the parsed tokens at positions 1, 3, 5, 7
      and the verbatim tokens at 10 and 11 when all four positions parse, and to
      nothing otherwise. */
  lemma DecodeWireFrame(parts: seq<string>, parse: NumParser)
    requires |parts| >= MinFields
    requires forall k :: 0 <= k < |parts| ==> Separator !in parts[k]
    ensures var r := Decode(Join(parts, Separator), parse);
            r.Some? <==> (parse(parts[1]).Some? && parse(parts[3]).Some? &&
                          parse(parts[5]).Some? && parse(parts[7]).Some?)
    ensures var r := Decode(Join(parts, Separator), parse);
            r.Some? ==> r.value == Frame(parse(parts[1]).value, parse(parts[3]).value,
                                         parse(parts[5]).value, parse(parts[7]).value,
                                         parts[10], parts[11])
  {
    SplitJoin(parts, Separator);
  }

  /** Only tokens 1, 3, 5, 7, 10 and 11 matter: the labels at 0, 2, 4, 6 and 8,
      the relay value at 9 and every token after 11 have no effect on what a
      frame decodes to. */
  lemma DecodeIgnoresLabels(p: seq<string>, q: seq<string>, parse: NumParser)
    requires |p| >= MinFields && |q| >= MinFields
    requires forall k :: 0 <= k < |p| ==> Separator !in p[k]
    requires forall k :: 0 <= k < |q| ==> Separator !in q[k]
    requires p[1] == q[1] && p[3] == q[3] && p[5] == q[5] && p[7] == q[7]
    requires p[10] == q[10] && p[11] == q[11]
    ensures Decode(Join(p, Separator), parse) == Decode(Join(q, Separator), parse)
  {
    SplitJoin(p, Separator);
    SplitJoin(q, Separator);
  }

  /** A payload without eleven commas, such as `garbage`, decodes to nothing,
      whatever the number parser accepts. */
  lemma GarbageRejected(parse: NumParser)
    ensures Decode("garbage", parse) == None
  {
    SplitWord("garbage", Separator);
  }

  /** The sample frame of the documented layout, as the comma-join of its twelve tokens. */
  function SampleFrame(relay: string): seq<string>
  {
    ["V", "230.5", "A", "1.20", "P", "276.6", "T", "35.2", "R", relay, "S", "NORMAL"]
  }

  /** As written: the sample frame decodes to the relay `S` (the label that
      follows the relay value) whatever relay value it reports, so the relay
      shown and logged is never `ON` or `OFF`. */
  lemma SampleRelayAsWritten(parse: NumParser, relay: string)
    requires parse("230.5").Some? && parse("1.20").Some? && parse("276.6").Some? && parse("35.2").Some?
    requires Separator !in relay
    ensures var r := Decode(Join(SampleFrame(relay), Separator), parse);
            r.Some? && r.value.relay == "S" && r.value.safety == "NORMAL"
  {
    SplitJoin(SampleFrame(relay), Separator);
  }

  /** As written: the relay value the device sends makes no difference; frames
      reporting different relay values (`ON`, `OFF`) decode alike. */
  lemma RelayValueIgnored(parse: NumParser, a: string, b: string)
    requires Separator !in a && Separator !in b
    ensures Decode(Join(SampleFrame(a), Separator), parse)
            == Decode(Join(SampleFrame(b), Separator), parse)
  {
    SplitJoin(SampleFrame(a), Separator);
    SplitJoin(SampleFrame(b), Separator);
  }

  /** The two relay values the device reports, on the sample frame. */
  lemma OnOffIgnored(parse: NumParser)
    ensures Decode(Join(SampleFrame("ON"), Separator), parse)
            == Decode(Join(SampleFrame("OFF"), Separator), parse)
  {
    RelayValueIgnored(parse, "ON", "OFF");
  }

  /** Corrected: with the relay read from token 9, a wire frame decodes to the
      relay value it carries, and to the same numbers and safety status as `Decode`. */
  lemma DecodeIntendedWireFrame(parts: seq<string>, parse: NumParser)
    requires |parts| >= MinFields
    requires forall k :: 0 <= k < |parts| ==> Separator !in parts[k]
    ensures var r := DecodeIntended(Join(parts, Separator), parse);
            var w := Decode(Join(parts, Separator), parse);
            && r.Some? == w.Some?
            && (r.Some? ==> r.value == w.value.(relay := parts[IntendedRelayField]))
  {
    SplitJoin(parts, Separator);
  }

  /** Corrected: the sample frame decodes to the relay value it reports. */
  lemma SampleRelayIntended(parse: NumParser, relay: string)
    requires parse("230.5").Some? && parse("1.20").Some? && parse("276.6").Some? && parse("35.2").Some?
    requires Separator !in relay
    ensures var r := DecodeIntended(Join(SampleFrame(relay), Separator), parse);
            r.Some? && r.value.relay == relay && r.value.safety == "NORMAL"
  {
    SplitJoin(SampleFrame(relay), Separator);
  }

  /** The sample frame reporting `ON`: the program decodes it to the relay `S`,
      the corrected decoder to `ON`. */
  lemma SampleOnRelay(parse: NumParser)
    requires parse("230.5").Some? && parse("1.20").Some? && parse("276.6").Some? && parse("35.2").Some?
    ensures Decode(Join(SampleFrame("ON"), Separator), parse).Some?
    ensures Decode(Join(SampleFrame("ON"), Separator), parse).value.relay == "S"
    ensures DecodeIntended(Join(SampleFrame("ON"), Separator), parse).Some?
    ensures DecodeIntended(Join(SampleFrame("ON"), Separator), parse).value.relay == "ON"
  {
    SampleRelayAsWritten(parse, "ON");
    SampleRelayIntended(parse, "ON");
  }
}
