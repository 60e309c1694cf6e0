/**
 * The Kettle_Demo sketch: a space-separated websocket protocol (MUG, WIFI,
 * KETTLE, THERMISTOR and the LED colour table), a four-slot thermistor
 * sample buffer whose fifth tick runs the calculator, and a sixty-slot log
 * of calculated readings. The calculator's floating-point arithmetic is a
 * function parameter; replies, broadcasts and serial output are recorded.
 */
module KettleDemo {
  import opened Protocol

  /** The last triple written by handleRGB. */
  datatype Rgb = Rgb(red: int, green: int, blue: int)

  const MAX_COUNTER: nat := 4
  const KETTLE_RANGE_MAX: nat := 60

  /** Arduino's String of a boolean: it is printed as the integer 1 or 0. */
  function BoolText(b: bool): (r: string)
    ensures |r| == 1
    ensures r == "1" <==> b
  {
    if b then "1" else "0"
  }

  /**
   * doTheThingWith's LED table: the colour written and the reply sent. Exactly
   * the five recognised parameters have an entry; RANGE and OFF both turn the
   * LED off, and every reply is an `LED,` text.
   */
  function LedTable(param: string): (r: Option<(Rgb, string)>)
    ensures r.Some? <==> param in {"RANGE", "RED", "GREEN", "BLUE", "OFF"}
    ensures param in {"RANGE", "OFF"} ==> r.Some? && r.value.0 == Rgb(0, 0, 0)
    ensures r.Some? ==> |r.value.1| > 4 && r.value.1[..4] == "LED,"
  {
    if param == "RANGE" then Some((Rgb(0, 0, 0), "LED,RANGE"))
    else if param == "RED" then Some((Rgb(255, 0, 0), "LED,BLUE"))
    else if param == "GREEN" then Some((Rgb(0, 255, 0), "LED,VIOLET"))
    else if param == "BLUE" then Some((Rgb(0, 0, 255), "LED,ORANGE"))
    else if param == "OFF" then Some((Rgb(0, 0, 0), "LED,OFF"))
    else None
  }

  /** The state the protocol reads and writes. */
  datatype Demo = Demo(
    mugDetect: bool,
    kettleState: bool,
    led: Rgb,
    samplingAttached: bool,
    networksDetected: string,
    replies: seq<Reply>,
    serial: seq<string>)

  /** setup(): the boot-time scan is kept for WIFI; both flags start false. */
  function Boot(scan: seq<string>): (r: Demo)
    ensures !r.mugDetect && !r.kettleState && !r.samplingAttached
    ensures r.replies == [] && r.serial == [] && r.networksDetected == Join(scan)
  {
    Demo(false, false, Rgb(0, 0, 0), false, Join(scan), [], [])
  }

  /** doTheThing: MUG, WIFI, KETTLE, THERMISTOR; anything else is printed. */
  function PropertyStep(d: Demo, property: string, client: nat): (r: Demo)
    ensures r.mugDetect == d.mugDetect && r.led == d.led && r.networksDetected == d.networksDetected
    ensures r.kettleState != d.kettleState <==> property == "KETTLE"
    ensures r.samplingAttached == (d.samplingAttached || property == "THERMISTOR")
    ensures d.replies <= r.replies && d.serial <= r.serial
    ensures |r.replies| + |r.serial| == |d.replies| + |d.serial| + (if property == "THERMISTOR" then 0 else 1)
  {
    if property == "MUG" then
      d.(replies := d.replies + [Reply(client, "MUG," + BoolText(d.mugDetect))])
    else if property == "WIFI" then
      d.(replies := d.replies + [Reply(client, "NETWORKS," + d.networksDetected)])
    else if property == "KETTLE" then
      d.(kettleState := !d.kettleState,
         replies := d.replies + [Reply(client, "KETTLE," + BoolText(!d.kettleState))])
    else if property == "THERMISTOR" then
      d.(samplingAttached := true)
    else
      d.(serial := d.serial + [property + " "])
  }

  /** doTheThingWith: only LED is recognised, through the table. */
  function PropertyWithStep(d: Demo, property: string, param: string, client: nat): (r: Demo)
    ensures r.mugDetect == d.mugDetect && r.kettleState == d.kettleState
    ensures r.samplingAttached == d.samplingAttached && r.networksDetected == d.networksDetected
    ensures r.replies != d.replies <==> property == "LED" && LedTable(param).Some?
    ensures r.led != d.led ==> property == "LED" && LedTable(param).Some?
    ensures d.replies <= r.replies && d.serial <= r.serial
    ensures |r.replies| + |r.serial| == |d.replies| + |d.serial| + 1
  {
    if property == "LED" then
      match LedTable(param)
      case Some((rgb, text)) => d.(led := rgb, replies := d.replies + [Reply(client, text)])
      case None => d.(serial := d.serial + [param])
    else
      d.(serial := d.serial + [property + " | " + param + " "])
  }

  /** A text frame: split at the first space, then one of the two dispatchers. */
  function TextStep(d: Demo, payload: string, client: nat): (r: Demo)
    ensures r.mugDetect == d.mugDetect && r.networksDetected == d.networksDetected
    ensures d.replies <= r.replies && d.serial <= r.serial
    ensures |r.replies| + |r.serial| <= |d.replies| + |d.serial| + 1
  {
    match Parse(payload, ' ')
    case Property(p) => PropertyStep(d, p, client)
    case PropertyWith(p, q) => PropertyWithStep(d, p, q, client)
  }

  /** KETTLE flips the flag and reports the new value; a second KETTLE restores it. */
  lemma KettleToggle(d: Demo, client: nat)
    ensures var d1 := TextStep(d, "KETTLE", client);
      && d1.kettleState == !d.kettleState
      && d1.replies == d.replies + [Reply(client, "KETTLE," + BoolText(d1.kettleState))]
      && TextStep(d1, "KETTLE", client).kettleState == d.kettleState
      && TextStep(d1, "KETTLE", client).led == d.led
  {
    assert ' ' !in "KETTLE";
  }

  /** MUG only reports the mug flag. */
  lemma MugReport(d: Demo, client: nat)
    ensures TextStep(d, "MUG", client) == d.(replies := d.replies + [Reply(client, "MUG," + BoolText(d.mugDetect))])
  {
    assert ' ' !in "MUG";
  }

  /** `LED P`: a table entry sets the colour and replies, any other parameter is only printed. */
  lemma LedCommand(d: Demo, param: string, client: nat)
    ensures var d' := TextStep(d, "LED " + param, client);
      && (LedTable(param).Some? ==>
            d' == d.(led := LedTable(param).value.0,
                     replies := d.replies + [Reply(client, LedTable(param).value.1)]))
      && (LedTable(param).None? ==> d' == d.(serial := d.serial + [param]))
  {
    assert "LED " + param == Render(PropertyWith("LED", param), ' ');
    ParseRender(PropertyWith("LED", param), ' ');
  }

  /** THERMISTOR attaches the sampling ticker and changes nothing else. */
  lemma ThermistorCommand(d: Demo, client: nat)
    ensures TextStep(d, "THERMISTOR", client) == d.(samplingAttached := true)
  {
    assert ' ' !in "THERMISTOR";
    assert Parse("THERMISTOR", ' ') == Property("THERMISTOR");
    assert "THERMISTOR"[0] == 'T';
    assert "THERMISTOR" != "MUG" && "THERMISTOR" != "WIFI" && "THERMISTOR" != "KETTLE";
  }

  /** Unrecognised commands only print: flags, LED, sampling and replies are unchanged. */
  lemma UnrecognisedCommand(d: Demo, payload: string, client: nat)
    requires Parse(payload, ' ').Property? ==> Parse(payload, ' ').name !in {"MUG", "WIFI", "KETTLE", "THERMISTOR"}
    requires Parse(payload, ' ').PropertyWith? ==> Parse(payload, ' ').name != "LED"
    ensures var d' := TextStep(d, payload, client);
      d' == d.(serial := d'.serial) && |d'.serial| == |d.serial| + 1
  {
  }

  // ----- thermistor sample buffer -----

  /** samples[] with counter. */
  datatype Sampler = Sampler(samples: seq<int>, counter: nat)

  ghost predicate SamplerOk(s: Sampler)
  {
    |s.samples| == MAX_COUNTER && s.counter <= MAX_COUNTER
  }

  /** sampleCollector: store below four, otherwise (after the calculator) zero the buffer without storing. */
  function Collect(s: Sampler, raw: int): (r: Sampler)
    requires SamplerOk(s)
    ensures SamplerOk(r)
    ensures r.counter == (s.counter + 1) % (MAX_COUNTER + 1)
    ensures s.counter < MAX_COUNTER ==> r.samples[s.counter] == raw
    ensures s.counter < MAX_COUNTER ==>
      forall i :: 0 <= i < MAX_COUNTER && i != s.counter ==> r.samples[i] == s.samples[i]
    ensures s.counter == MAX_COUNTER ==> forall i :: 0 <= i < MAX_COUNTER ==> r.samples[i] == 0
  {
    if s.counter < MAX_COUNTER then Sampler(s.samples[s.counter := raw], s.counter + 1)
    else Sampler([0, 0, 0, 0], 0)
  }

  function CollectAll(s: Sampler, raws: seq<int>): (r: Sampler)
    requires SamplerOk(s)
    ensures SamplerOk(r)
    ensures r.counter == (s.counter + |raws|) % (MAX_COUNTER + 1)
    decreases |raws|
  {
    if raws == [] then s else CollectAll(Collect(s, raws[0]), raws[1..])
  }

  /** Samples are stored in arrival order after the ones already held, while there is room. */
  lemma {:induction false} CollectFills(s: Sampler, raws: seq<int>)
    requires SamplerOk(s) && s.counter + |raws| <= MAX_COUNTER
    ensures CollectAll(s, raws)
         == Sampler(s.samples[..s.counter] + raws + s.samples[s.counter + |raws|..], s.counter + |raws|)
    decreases |raws|
  {
    if raws != [] {
      var s1 := Collect(s, raws[0]);
      assert s1.samples[..s1.counter] == s.samples[..s.counter] + [raws[0]];
      CollectFills(s1, raws[1..]);
      assert s1.samples[s1.counter + |raws[1..]|..] == s.samples[s.counter + |raws|..];
      assert s.samples[..s.counter] + [raws[0]] + raws[1..] == s.samples[..s.counter] + raws;
    } else {
      assert s.samples == s.samples[..s.counter] + s.samples[s.counter..];
    }
  }

  /**
   * One cycle from an empty counter: four samples fill the buffer in order,
   * and the fifth call drops its own sample, zeroes the buffer and starts
   * over (what the calculator is given then is stated by SampleCollector).
   */
  lemma CollectCycle(s: Sampler, r0: int, r1: int, r2: int, r3: int, r4: int)
    requires SamplerOk(s) && s.counter == 0
    ensures CollectAll(s, [r0, r1, r2, r3]) == Sampler([r0, r1, r2, r3], 4)
    ensures Collect(CollectAll(s, [r0, r1, r2, r3]), r4) == Sampler([0, 0, 0, 0], 0)
  {
    CollectFills(s, [r0, r1, r2, r3]);
    assert s.samples[..0] + [r0, r1, r2, r3] + s.samples[4..] == [r0, r1, r2, r3];
  }

  // ----- reading log -----

  /** kettleRangeArray with countKettle and whether the sampling ticker is attached. */
  datatype RangeLog = RangeLog(entries: seq<int>, count: nat, attached: bool)

  ghost predicate RangeLogOk(l: RangeLog)
  {
    |l.entries| == KETTLE_RANGE_MAX && l.count <= KETTLE_RANGE_MAX
  }

  /** The end of therminstorCalculator: store below sixty, otherwise detach the ticker and reset. */
  function Record(l: RangeLog, reading: int): (r: RangeLog)
    requires RangeLogOk(l)
    ensures RangeLogOk(r)
    ensures r.count == (l.count + 1) % (KETTLE_RANGE_MAX + 1)
    ensures r.attached == (l.attached && l.count < KETTLE_RANGE_MAX)
    ensures l.count < KETTLE_RANGE_MAX ==> r.entries[l.count] == reading
    ensures forall i :: 0 <= i < KETTLE_RANGE_MAX && i != l.count ==> r.entries[i] == l.entries[i]
  {
    if l.count >= KETTLE_RANGE_MAX then l.(attached := false, count := 0)
    else l.(entries := l.entries[l.count := reading], count := l.count + 1)
  }

  function RecordAll(l: RangeLog, readings: seq<int>): (r: RangeLog)
    requires RangeLogOk(l)
    ensures RangeLogOk(r)
    ensures r.count == (l.count + |readings|) % (KETTLE_RANGE_MAX + 1)
    ensures r.attached ==> l.attached
    decreases |readings|
  {
    if readings == [] then l else RecordAll(Record(l, readings[0]), readings[1..])
  }

  /** While there is room, readings land at consecutive indices in order and the ticker stays as it was. */
  lemma {:induction false} RecordFills(l: RangeLog, readings: seq<int>)
    requires RangeLogOk(l) && l.count + |readings| <= KETTLE_RANGE_MAX
    ensures var r := RecordAll(l, readings);
      && r.count == l.count + |readings|
      && r.entries == l.entries[..l.count] + readings + l.entries[l.count + |readings|..]
      && r.attached == l.attached
    decreases |readings|
  {
    if readings != [] {
      var l1 := Record(l, readings[0]);
      assert l1.entries[..l1.count] == l.entries[..l.count] + [readings[0]];
      RecordFills(l1, readings[1..]);
      assert l1.entries[l1.count + |readings[1..]|..] == l.entries[l.count + |readings|..];
      assert l.entries[..l.count] + [readings[0]] + readings[1..] == l.entries[..l.count] + readings;
    } else {
      assert l.entries == l.entries[..l.count] + l.entries[l.count..];
    }
  }

  /** Sixty readings fill the log exactly; the sixty-first is dropped, detaches the ticker and resets the count. */
  lemma RecordFullLog(l: RangeLog, readings: seq<int>, extra: int)
    requires RangeLogOk(l) && l.count == 0 && |readings| == KETTLE_RANGE_MAX
    ensures RecordAll(l, readings).entries == readings
    ensures var full := RecordAll(l, readings);
      Record(full, extra) == RangeLog(readings, 0, false)
  {
    RecordFills(l, readings);
    assert l.entries[..0] + readings + l.entries[60..] == readings;
  }

  /** The sketch's globals, updated in place by the protocol and the sampling ticker. */
  class Sketch {
    var mugDetect: bool
    var kettleState: bool
    var led: Rgb
    var samplingAttached: bool
    var networksDetected: string
    var replies: seq<Reply>
    var serial: seq<string>
    var broadcasts: seq<int>

    var counter: nat
    var samples: array<int>
    var countKettle: nat
    var kettleRangeArray: array<int>

    ghost predicate Valid()
      reads this
    {
      && samples.Length == MAX_COUNTER
      && kettleRangeArray.Length == KETTLE_RANGE_MAX
      && samples != kettleRangeArray
      && counter <= MAX_COUNTER
      && countKettle <= KETTLE_RANGE_MAX
    }

    function Snapshot(): Demo
      reads this
    {
      Demo(mugDetect, kettleState, led, samplingAttached, networksDetected, replies, serial)
    }

    function SamplerOf(): Sampler
      reads this, samples
    {
      Sampler(samples[..], counter)
    }

    function LogOf(): RangeLog
      reads this, kettleRangeArray
    {
      RangeLog(kettleRangeArray[..], countKettle, samplingAttached)
    }

    /** setup() with the scan list; both buffers start zeroed. */
    constructor Setup(scan: seq<string>)
      ensures Valid() && fresh(samples) && fresh(kettleRangeArray)
      ensures Snapshot() == Boot(scan) && broadcasts == []
      ensures SamplerOf() == Sampler([0, 0, 0, 0], 0)
      ensures LogOf() == RangeLog(seq(KETTLE_RANGE_MAX, _ => 0), 0, false)
    {
      mugDetect, kettleState, led, samplingAttached := false, false, Rgb(0, 0, 0), false;
      replies, serial, broadcasts := [], [], [];
      counter, countKettle := 0, 0;
      samples := new int[MAX_COUNTER](_ => 0);
      kettleRangeArray := new int[KETTLE_RANGE_MAX](_ => 0);
      new;
      networksDetected := WifiScan(scan);
    }

    /** One period of the sampling ticker: sampleCollector runs only while the ticker is attached. */
    method SamplingTick(raw: int, calculator: seq<int> -> int)
      requires Valid()
      modifies this, samples, kettleRangeArray
      ensures Valid() && samples == old(samples) && kettleRangeArray == old(kettleRangeArray)
      ensures old(samplingAttached) ==>
        && SamplerOf() == Collect(old(SamplerOf()), raw)
        && (old(counter) < MAX_COUNTER ==> LogOf() == old(LogOf()) && broadcasts == old(broadcasts))
        && (old(counter) >= MAX_COUNTER ==>
              && LogOf() == Record(old(LogOf()), calculator(old(samples[..])))
              && broadcasts == old(broadcasts) + [calculator(old(samples[..]))])
        && Snapshot() == old(Snapshot()).(samplingAttached := samplingAttached)
      ensures !old(samplingAttached) ==>
        && SamplerOf() == old(SamplerOf()) && LogOf() == old(LogOf())
        && broadcasts == old(broadcasts) && Snapshot() == old(Snapshot())
    {
      if samplingAttached { SampleCollector(raw, calculator); }
    }

    /** sampleCollector: `calculator` stands for the calculator's arithmetic on the four samples. */
    method SampleCollector(raw: int, calculator: seq<int> -> int)
      requires Valid()
      modifies this, samples, kettleRangeArray
      ensures Valid() && samples == old(samples) && kettleRangeArray == old(kettleRangeArray)
      ensures SamplerOf() == Collect(old(SamplerOf()), raw)
      ensures old(counter) < MAX_COUNTER ==> LogOf() == old(LogOf()) && broadcasts == old(broadcasts)
      ensures old(counter) >= MAX_COUNTER ==>
        && LogOf() == Record(old(LogOf()), calculator(old(samples[..])))
        && broadcasts == old(broadcasts) + [calculator(old(samples[..]))]
      ensures Snapshot() == old(Snapshot()).(samplingAttached := samplingAttached)
    {
      if counter < MAX_COUNTER {
        samples[counter] := raw;
        counter := counter + 1;
      } else {
        ThermistorCalculator(calculator);
        forall i | 0 <= i < samples.Length {
          samples[i] := 0;
        }
        assert samples[..] == [0, 0, 0, 0];
        counter := 0;
      }
    }

    /** therminstorCalculator: broadcast the reading and store it in the log while there is room. */
    method ThermistorCalculator(calculator: seq<int> -> int)
      requires Valid()
      modifies this, kettleRangeArray
      ensures Valid() && kettleRangeArray == old(kettleRangeArray) && samples == old(samples)
      ensures counter == old(counter)
      ensures LogOf() == Record(old(LogOf()), calculator(samples[..]))
      ensures broadcasts == old(broadcasts) + [calculator(samples[..])]
      ensures Snapshot() == old(Snapshot()).(samplingAttached := samplingAttached)
    {
      var reading := calculator(samples[..]);
      broadcasts := broadcasts + [reading];
      if countKettle >= KETTLE_RANGE_MAX {
        samplingAttached := false;
        countKettle := 0;
      } else {
        kettleRangeArray[countKettle] := reading;
        countKettle := countKettle + 1;
      }
    }

    /** kettleRange: attach the sampling ticker. */
    method KettleRange()
      modifies this
      ensures Snapshot() == old(Snapshot()).(samplingAttached := true)
      ensures counter == old(counter) && countKettle == old(countKettle) && broadcasts == old(broadcasts)
      ensures samples == old(samples) && kettleRangeArray == old(kettleRangeArray)
    {
      samplingAttached := true;
    }

    /** A WStype_TEXT event: payloadConvert on the receive buffer, split at the first space. */
    method OnText(client: nat, payload: string)
      modifies this
      ensures Snapshot() == TextStep(old(Snapshot()), payload, client)
      ensures counter == old(counter) && countKettle == old(countKettle) && broadcasts == old(broadcasts)
      ensures samples == old(samples) && kettleRangeArray == old(kettleRangeArray)
    {
      var buffer := new char[|payload|](i requires 0 <= i < |payload| => payload[i]);
      assert buffer[..] == payload;
      var cmd := PayloadConvert(buffer, ' ');
      match cmd
      case Property(p) => DoTheThing(p, client);
      case PropertyWith(p, q) => DoTheThingWith(p, q, client);
    }

    method DoTheThing(property: string, client: nat)
      modifies this
      ensures Snapshot() == PropertyStep(old(Snapshot()), property, client)
      ensures counter == old(counter) && countKettle == old(countKettle) && broadcasts == old(broadcasts)
      ensures samples == old(samples) && kettleRangeArray == old(kettleRangeArray)
    {
      if property == "MUG" {
        replies := replies + [Reply(client, "MUG," + BoolText(mugDetect))];
      } else if property == "WIFI" {
        replies := replies + [Reply(client, "NETWORKS," + networksDetected)];
      } else if property == "KETTLE" {
        kettleState := !kettleState;
        replies := replies + [Reply(client, "KETTLE," + BoolText(kettleState))];
      } else if property == "THERMISTOR" {
        KettleRange();
      } else {
        serial := serial + [property + " "];
      }
    }

    method DoTheThingWith(property: string, param: string, client: nat)
      modifies this
      ensures Snapshot() == PropertyWithStep(old(Snapshot()), property, param, client)
      ensures counter == old(counter) && countKettle == old(countKettle) && broadcasts == old(broadcasts)
      ensures samples == old(samples) && kettleRangeArray == old(kettleRangeArray)
    {
      if property == "LED" {
        if param == "RANGE" {
          HandleRgb(0, 0, 0);
          replies := replies + [Reply(client, "LED,RANGE")];
        } else if param == "RED" {
          HandleRgb(255, 0, 0);
          replies := replies + [Reply(client, "LED,BLUE")];
        } else if param == "GREEN" {
          HandleRgb(0, 255, 0);
          replies := replies + [Reply(client, "LED,VIOLET")];
        } else if param == "BLUE" {
          HandleRgb(0, 0, 255);
          replies := replies + [Reply(client, "LED,ORANGE")];
        } else if param == "OFF" {
          HandleRgb(0, 0, 0);
          replies := replies + [Reply(client, "LED,OFF")];
        } else {
          serial := serial + [param];
        }
      } else {
        serial := serial + [property + " | " + param + " "];
      }
    }

    method HandleRgb(r: int, g: int, b: int)
      modifies this
      ensures Snapshot() == old(Snapshot()).(led := Rgb(r, g, b))
      ensures counter == old(counter) && countKettle == old(countKettle) && broadcasts == old(broadcasts)
      ensures samples == old(samples) && kettleRangeArray == old(kettleRangeArray)
    {
      led := Rgb(r, g, b);
    }
  }
}
