/**
 * read_values: one reading from the BME280 climate sensor and the PMS5003
 * particulate sensor, with the PMS5003's reset-and-retry-once policy.
 *
 * Both devices are opaque. Each is a small object that records every call made
 * on it and answers through a fixed function of that call history, so a
 * device may fail on one call and succeed on the next, or behave differently
 * after a reset.
 */
module Sensors {
  import opened Outcomes
  import opened Readings

  /** What read_values asks the BME280 for, in the order it asks. */
  datatype Quantity = Temperature | Pressure | Humidity

  /**
   * The BME280. A query yields the value already formatted as the upload
   * wants it, or None when the driver raises.
   */
  class Bme280 {
    const respond: (seq<Quantity>, Quantity) -> Option<string>
    var log: seq<Quantity>

    constructor (respond: (seq<Quantity>, Quantity) -> Option<string>)
      ensures this.respond == respond && log == []
    {
      this.respond := respond;
      log := [];
    }

    method Get(q: Quantity) returns (v: Option<string>)
      modifies this
      ensures log == old(log) + [q]
      ensures v == respond(old(log), q)
    {
      v := respond(log, q);
      log := log + [q];
    }
  }

  /** The exceptions a PMS5003 read can raise. */
  datatype PmsError = ReadTimeout | ChecksumMismatch | OtherPmsError

  /** The two values read_values takes from a frame: PM2.5 and PM10, as strings. */
  datatype PmsFrame = PmsFrame(pm25: string, pm10: string)

  datatype PmsCall = ReadFrame | ResetDevice

  /** The PMS5003: read returns a frame or raises; reset reinitialises the device. */
  class Pms5003 {
    const respond: seq<PmsCall> -> Result<PmsFrame, PmsError>
    var log: seq<PmsCall>

    constructor (respond: seq<PmsCall> -> Result<PmsFrame, PmsError>)
      ensures this.respond == respond && log == []
    {
      this.respond := respond;
      log := [];
    }

    method Read() returns (r: Result<PmsFrame, PmsError>)
      modifies this
      ensures log == old(log) + [ReadFrame]
      ensures r == respond(old(log))
    {
      r := respond(log);
      log := log + [ReadFrame];
    }

    method Reset()
      modifies this
      ensures log == old(log) + [ResetDevice]
    {
      log := log + [ResetDevice];
    }
  }

  /** The two faults read_values recovers from by resetting the device. */
  predicate Recoverable(e: PmsError)
  {
    e == ReadTimeout || e == ChecksumMismatch
  }

  /** The calls made on the PMS5003 and what came of them. */
  datatype PmsRun = PmsRun(calls: seq<PmsCall>, result: Result<PmsFrame, PmsError>)

  /**
   * The particulate half of read_values, started on a device whose history is
   * h. A ReadTimeout or ChecksumMismatch on the first read is followed by
   * exactly one reset and one more read; any other fault, and any fault of
   * the second read, is the outcome. Either way the outcome is the answer to
   * the last read made.
   */
  function ReadParticulate(respond: seq<PmsCall> -> Result<PmsFrame, PmsError>, h: seq<PmsCall>): (run: PmsRun)
    ensures run.calls == [ReadFrame] || run.calls == [ReadFrame, ResetDevice, ReadFrame]
    ensures ResetDevice in run.calls <==> respond(h).Err? && Recoverable(respond(h).error)
    ensures run.result == respond(h + run.calls[..|run.calls| - 1])
  {
    var first := respond(h);
    if first.Err? && Recoverable(first.error) then
      assert [ReadFrame, ResetDevice, ReadFrame][..2] == [ReadFrame, ResetDevice];
      PmsRun([ReadFrame, ResetDevice, ReadFrame], respond(h + [ReadFrame, ResetDevice]))
    else
      assert h + [ReadFrame][..0] == h;
      PmsRun([ReadFrame], first)
  }

  /** Why read_values raised: the BME280 failed, or the PMS5003 failed for good. */
  datatype Fault = ClimateFault | ParticulateFault(error: PmsError)

  /** The calls read_values makes on both devices and what it returns or raises. */
  datatype Collection = Collection(climateCalls: seq<Quantity>, pmsCalls: seq<PmsCall>, result: Result<Reading, Fault>)

  /** The keys of a complete reading, in the order read_values inserts them. */
  const ReadingKeys: seq<string> := ["temperature", "pressure", "humidity", "P2", "P1"]

  /** The BME280 queries of read_values, in the order it makes them. */
  const ClimateQueries: seq<Quantity> := [Temperature, Pressure, Humidity]

  /** The climate half of read_values (lines 45-49): the calls made on the BME280 and the dict so far. */
  datatype ClimateRun = ClimateRun(calls: seq<Quantity>, values: Option<Reading>)

  /**
   * Temperature, pressure and humidity are asked for in that order; the first
   * query that raises ends read_values.
   */
  function ReadClimate(bme: (seq<Quantity>, Quantity) -> Option<string>, bh: seq<Quantity>): (run: ClimateRun)
    ensures run.values.Some? <==> run.calls == [Temperature, Pressure, Humidity] && bme(bh + [Temperature, Pressure], Humidity).Some?
    ensures run.values.Some? ==> Keys(run.values.value) == ReadingKeys[..3]
    ensures 1 <= |run.calls| <= 3 && run.calls == ClimateQueries[..|run.calls|]
    ensures forall i :: 0 <= i < |run.calls| - 1 ==> bme(bh + run.calls[..i], run.calls[i]).Some?
    ensures run.values.None? <==> bme(bh + run.calls[..|run.calls| - 1], run.calls[|run.calls| - 1]).None?
    ensures run.values.Some? ==>
      |run.values.value| == 3 &&
      forall i :: 0 <= i < 3 ==> run.values.value[i] == (ReadingKeys[i], bme(bh + run.calls[..i], run.calls[i]).value)
  {
    assert ClimateQueries[..0] == [Temperature][..0] == [] && bh + [] == bh;
    assert ClimateQueries[..1] == [Temperature] && ClimateQueries[..2] == [Temperature, Pressure];
    assert [Temperature, Pressure][..1] == [Temperature];
    var t := bme(bh, Temperature);
    if t.None? then ClimateRun([Temperature], None)
    else
      var p := bme(bh + [Temperature], Pressure);
      if p.None? then ClimateRun([Temperature, Pressure], None)
      else
        var hum := bme(bh + [Temperature, Pressure], Humidity);
        if hum.None? then ClimateRun([Temperature, Pressure, Humidity], None)
        else ClimateRun([Temperature, Pressure, Humidity],
                        Some([("temperature", t.value), ("pressure", p.value), ("humidity", hum.value)]))
  }

  /** read_values on a BME280 with history bh and a PMS5003 with history ph. */
  function Collect(bme: (seq<Quantity>, Quantity) -> Option<string>, bh: seq<Quantity>,
                   pms: seq<PmsCall> -> Result<PmsFrame, PmsError>, ph: seq<PmsCall>): (c: Collection)
    ensures 1 <= |c.climateCalls| <= 3 && c.climateCalls == ClimateQueries[..|c.climateCalls|]
    ensures c.pmsCalls == [] || c.pmsCalls == [ReadFrame] || c.pmsCalls == [ReadFrame, ResetDevice, ReadFrame]
  {
    var climate := ReadClimate(bme, bh);
    if climate.values.None? then Collection(climate.calls, [], Err(ClimateFault))
    else
      var run := ReadParticulate(pms, ph);
      var result := match run.result
        case Ok(f) => Ok(climate.values.value + [("P2", f.pm25), ("P1", f.pm10)])
        case Err(e) => Err(ParticulateFault(e));
      Collection(climate.calls, run.calls, result)
  }

  /**
   * A successful reading has exactly the five keys, P2 before P1, with the
   * particulate values of the last frame read. The three climate values are
   * all in hand before the PMS5003 is touched, so a BME280 failure leaves it
   * alone; a particulate failure is the answer to the last read made.
   */
  lemma CollectOutcome(bme: (seq<Quantity>, Quantity) -> Option<string>, bh: seq<Quantity>,
                       pms: seq<PmsCall> -> Result<PmsFrame, PmsError>, ph: seq<PmsCall>)
    ensures var c := Collect(bme, bh, pms, ph);
      && (c.result.Ok? ==> Keys(c.result.value) == ReadingKeys && DistinctKeys(c.result.value))
      && (c.pmsCalls == [] <==> c.result == Err(ClimateFault))
      && (c.pmsCalls != [] ==> c.climateCalls == [Temperature, Pressure, Humidity])
      && (c.pmsCalls != [] ==> c.pmsCalls == ReadParticulate(pms, ph).calls)
      && (c.pmsCalls != [] <==>
            bme(bh, Temperature).Some? && bme(bh + [Temperature], Pressure).Some? &&
            bme(bh + [Temperature, Pressure], Humidity).Some?)
      && (c.result.Ok? ==>
            bme(bh, Temperature).Some? && bme(bh + [Temperature], Pressure).Some? &&
            bme(bh + [Temperature, Pressure], Humidity).Some? &&
            c.result.value[..3] == [("temperature", bme(bh, Temperature).value),
                                    ("pressure", bme(bh + [Temperature], Pressure).value),
                                    ("humidity", bme(bh + [Temperature, Pressure], Humidity).value)])
      && (c.result.Ok? ==>
            var frame := pms(ph + c.pmsCalls[..|c.pmsCalls| - 1]);
            frame.Ok? && c.result.value[3..] == [("P2", frame.value.pm25), ("P1", frame.value.pm10)])
      && (c.result.Err? && c.result.error.ParticulateFault? ==>
            pms(ph + c.pmsCalls[..|c.pmsCalls| - 1]) == Err(c.result.error.error))
  {
    var c := Collect(bme, bh, pms, ph);
    if c.result.Ok? {
      assert Keys(c.result.value) == ReadingKeys;
    }
  }

  /** Lines 45-49: the three BME280 queries, each stored in the dict as it arrives. */
  method ReadClimateValues(bme: Bme280) returns (values: Option<Reading>)
    modifies bme
    ensures var run := ReadClimate(bme.respond, old(bme.log));
      bme.log == old(bme.log) + run.calls && values == run.values
  {
    ghost var bh := bme.log;
    var reading: Reading := [];
    var t := bme.Get(Temperature);
    if t.None? { return None; }
    reading := Put(reading, "temperature", t.value);
    assert reading == [("temperature", t.value)];
    var p := bme.Get(Pressure);
    if p.None? { return None; }
    reading := Put(reading, "pressure", p.value);
    assert reading == [("temperature", t.value), ("pressure", p.value)];
    assert bme.log == bh + [Temperature, Pressure];
    var hum := bme.Get(Humidity);
    if hum.None? { return None; }
    reading := Put(reading, "humidity", hum.value);
    assert reading == [("temperature", t.value), ("pressure", p.value), ("humidity", hum.value)];
    return Some(reading);
  }

  /** Lines 50-59: read the PMS5003, and on a timeout or checksum fault reset it and read once more. */
  method ReadParticulateFrame(pms: Pms5003) returns (frame: Result<PmsFrame, PmsError>)
    modifies pms
    ensures var run := ReadParticulate(pms.respond, old(pms.log));
      pms.log == old(pms.log) + run.calls && frame == run.result
  {
    ghost var ph := pms.log;
    frame := pms.Read();
    if frame.Err? && Recoverable(frame.error) {
      pms.Reset();
      assert pms.log == ph + [ReadFrame, ResetDevice];
      frame := pms.Read();
    }
  }

  /**
   * read_values itself: fills a fresh dict key by key, and makes on each
   * device exactly the calls Collect describes.
   */
  method ReadValues(bme: Bme280, pms: Pms5003) returns (r: Result<Reading, Fault>)
    modifies bme, pms
    ensures var c := Collect(bme.respond, old(bme.log), pms.respond, old(pms.log));
      bme.log == old(bme.log) + c.climateCalls && pms.log == old(pms.log) + c.pmsCalls && r == c.result
  {
    ghost var ph := pms.log;
    assert ph + [] == ph;
    var climate := ReadClimateValues(bme);
    if climate.None? { return Err(ClimateFault); }
    var values := climate.value;
    var frame := ReadParticulateFrame(pms);
    if frame.Err? { return Err(ParticulateFault(frame.error)); }
    assert Keys(values) == ["temperature", "pressure", "humidity"];
    values := Put(values, "P2", frame.value.pm25);
    assert Keys(values) == ["temperature", "pressure", "humidity", "P2"];
    values := Put(values, "P1", frame.value.pm10);
    assert values == climate.value + [("P2", frame.value.pm25), ("P1", frame.value.pm10)];
    return Ok(values);
  }

  /** A PMS5003 that fails its checksum once and then delivers: one reset, and the values of the second frame. */
  lemma ChecksumOnceThenFrame(frame: PmsFrame)
    ensures var respond := (h: seq<PmsCall>) => if h == [] then Err(ChecksumMismatch) else Ok(frame);
      ReadParticulate(respond, []) == PmsRun([ReadFrame, ResetDevice, ReadFrame], Ok(frame))
  {
  }

  /** A PMS5003 that times out twice: the second timeout is what read_values raises. */
  lemma TimeoutTwice()
    ensures var respond := (h: seq<PmsCall>) => Err(ReadTimeout);
      ReadParticulate(respond, []) == PmsRun([ReadFrame, ResetDevice, ReadFrame], Err(ReadTimeout))
  {
  }

  /** Any other fault is raised at once, with no reset. */
  lemma OtherFaultNoReset(h: seq<PmsCall>)
    ensures var respond := (h: seq<PmsCall>) => Err(OtherPmsError);
      ReadParticulate(respond, h) == PmsRun([ReadFrame], Err(OtherPmsError))
  {
  }
}
