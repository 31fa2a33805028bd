# luftdaten.py, modelled in Dafny

`luftdaten.py` runs on a Raspberry Pi with an Enviro+ board. It reads
temperature, pressure and humidity from a BME280 and particulate matter
(PM2.5 and PM10) from a PMS5003, and uploads the readings to sensor.community.
This project models its decision logic and proves what it promises:

- **read_values** (`sensors.dfy`, module `Sensors`). The two sensors are
  objects that record every call made on them. Each answers through a fixed
  function of that call history, so a device may fail once and then succeed.
  The BME280 is queried for temperature, pressure and humidity, in that order,
  and the values go into a dict as they arrive. Then the PMS5003 is read. A
  `ReadTimeoutError` or `ChecksumMismatchError` triggers exactly one `reset`
  and one more read; any other fault, and any fault of the second read, is
  raised. A complete reading has the keys `temperature`, `pressure`,
  `humidity`, `P2`, `P1`, in that order.
- **Partition and payloads** (`reading.dfy`, module `Readings`). A reading is a
  Python dict, modelled as a sequence of (key, value) pairs with distinct
  keys. Python's `values[key] = value` is `Put`. Keys starting with `"P"` go
  to the particulate sub-dict and all other keys to the climate sub-dict. Each
  sub-dict becomes a list of `{value_type, value}` records.
- **send_to_luftdaten** (`upload.dfy`, module `Upload`). Two requests are
  always posted, in a fixed order: the particulate one with `X-PIN: 1`, then
  the climate one with `X-PIN: 11`. The network is an object that records the
  requests sent to it. Each post either gets a response or no response,
  because a transport exception was caught. The function returns true iff
  both posts got a response and both responses are `ok`.
- **get_serial_number and the device id** (`identity.dfy`, module
  `Identity`). Python's `str.split(":")` and `str.strip()` are modelled
  exactly. The first line whose first six characters are `Serial` decides the
  serial number. The id is `"raspi-"` followed by that serial number.
- **The main loop** (`scheduler.dfy`, module `Scheduler`). One pass is a step
  over the globals `update_time` and `time_since_update`, given whether
  `read_values` raised and the two clock readings the pass takes. A pass
  dispatches only when more than 145 seconds have passed since
  `update_time`. Before uploading, it sets `update_time` to the current time,
  so a failed upload still waits a full interval. The `Collector` class runs
  one pass, or a finite run of passes, against the device and network
  objects.

`outcomes.dfy` holds the `Option` and `Result` types.

## Model

| member | source | states |
|---|---|---|
| Readings.Put | luftdaten.py:47-49 | assigning a key the dict does not hold appends the pair at the end |
| Readings.PutLookup | luftdaten.py:47-59 | after `values[key] = value`, looking up key gives value, and every other key reads as before |
| Readings.PutKeys | luftdaten.py:47-59 | reassigning a key keeps the key order; a new key goes last |
| Readings.PutKeepsDistinctKeys | luftdaten.py:47-59 | assignment never gives a dict a second copy of a key |
| Readings.Select | luftdaten.py:80-81 | the filtered sub-dict is no longer than the reading and every field it keeps is on the requested side of the "P" test |
| Readings.SelectMembers | luftdaten.py:80-81 | a field is in the particulate sub-dict iff it is in the reading and its key starts with "P", and in the climate sub-dict iff it is in the reading and its key does not |
| Readings.PartitionByKey | luftdaten.py:80-81 | for every key, the particulate sub-dict gives the reading's value if the key starts with "P" and nothing otherwise, and the climate sub-dict the reverse: the two are disjoint and their union is the reading |
| Readings.PartitionKeepsOrder | luftdaten.py:80-81 | the reading is an interleaving of the two sub-dicts, so both keep insertion order, and their multisets add up to the reading's |
| Readings.SelectKeepsDistinctKeys | luftdaten.py:80-81 | each sub-dict of a dict has distinct keys |
| Readings.Payload | luftdaten.py:83-84 | one record per field, in order, with value_type the key and value the value |
| Readings.PayloadRoundTrip | luftdaten.py:83-84 | the fields can be read back from a payload unchanged: no field is lost, reordered or altered |
| Readings.PayloadRecordsMatchReading | luftdaten.py:80-84 | every particulate record has a "P" key, every climate record a key that is not, and each carries the value the reading holds for its key |
| Readings.ExamplePartition | luftdaten.py:80-84 | a five-field reading gives the three climate records and the two particulate records, each in the reading's order |
| Sensors.Bme280.Get | luftdaten.py:45-49 | a BME280 query is logged and answered from the device's call history |
| Sensors.Pms5003.Read | luftdaten.py:51 | a PMS5003 read is logged and answered from the device's call history |
| Sensors.Pms5003.Reset | luftdaten.py:56 | a reset is logged after the earlier calls |
| Sensors.ReadParticulate | luftdaten.py:50-59 | the calls are one read, or read, reset, read; a reset happens iff the first read failed with ReadTimeout or ChecksumMismatch; the outcome is the last read's answer |
| Sensors.ReadClimate | luftdaten.py:44-49 | the queries made are temperature, pressure, humidity cut off after the first one that raised: every query before the last was answered, and values exist iff the last was answered too; then the dict holds temperature, pressure, humidity in that order, each with its query's answer |
| Sensors.Collect | luftdaten.py:43-60 | the BME280 sees a non-empty prefix of temperature, pressure, humidity; the PMS5003 sees nothing, one read, or read, reset, read |
| Sensors.CollectOutcome | luftdaten.py:43-60 | a successful reading has exactly the keys temperature, pressure, humidity, P2, P1, in that order, with the three BME280 answers and the last frame's PM values; the PMS5003 is touched iff all three BME280 queries were answered; a particulate fault is the last read's fault |
| Sensors.ReadClimateValues | luftdaten.py:44-49 | the BME280 receives exactly the queries ReadClimate describes, and the dict filled key by key is ReadClimate's |
| Sensors.ReadParticulateFrame | luftdaten.py:50-59 | the PMS5003 receives exactly the calls ReadParticulate describes, and the result is its outcome |
| Sensors.ReadValues | luftdaten.py:43-60 | both devices receive exactly the calls Collect describes, and the result is Collect's reading or fault |
| Sensors.ChecksumOnceThenFrame | luftdaten.py:50-59 | a checksum fault followed by a good frame gives one reset and the second frame's values |
| Sensors.TimeoutTwice | luftdaten.py:54-59 | a second timeout after the reset is raised |
| Sensors.OtherFaultNoReset | luftdaten.py:50-54 | any other fault is raised at once, with no reset |
| Upload.BuildRequest | luftdaten.py:90-103 | a request goes to the sensor.community endpoint with a 5 second timeout, software version "enviro-plus 0.0.1" and exactly the given records as sensordatavalues |
| Upload.BuildRequestCarries | luftdaten.py:89-103 | a request goes to the sensor.community endpoint with a 5 second timeout, software version "enviro-plus 0.0.1", the given X-PIN and X-Sensor, the JSON and no-cache headers, and exactly the given fields in order |
| Upload.RequestsOfDispatch | luftdaten.py:89-125 | the particulate request carries X-PIN "1" and the "P" fields, the climate request X-PIN "11" and the other fields, and both carry X-Sensor = id |
| Upload.ResponseOf | luftdaten.py:89-110 | a post yields a response iff no transport exception was caught, and then it is the response the server gave |
| Upload.UploadSucceeded | luftdaten.py:133-140 | true iff both responses exist and both are ok; false whenever either is missing |
| Upload.Network.Post | luftdaten.py:90-103 | a post is logged and answered from the requests sent before |
| Upload.SendToLuftdaten | luftdaten.py:79-140 | the network receives the particulate request and then the climate request, always both; the result is UploadSucceeded of the two answers |
| Identity.Strip | luftdaten.py:68 | the result is a slice of the input with only whitespace cut from each end, and it neither starts nor ends with whitespace |
| Identity.StripIdempotent | luftdaten.py:68 | stripping twice is stripping once |
| Identity.Split | luftdaten.py:68 | at least one field; exactly one iff the separator does not occur; no field contains the separator |
| Identity.SplitJoin | luftdaten.py:68 | joining the fields with the separator gives the line back |
| Identity.JoinSplit | luftdaten.py:68 | splitting a join of separator-free fields gives the fields back |
| Identity.IsSerialLine | luftdaten.py:67 | the clamped slice `line[0:6]` equals "Serial" iff the line has at least six characters and begins with "Serial" |
| Identity.ParseSerialLine | luftdaten.py:68 | a serial line without ":" raises IndexError, and any line with one yields a serial (by definition Strip of Split's second field) |
| Identity.ParseSerialField | luftdaten.py:68 | the serial is the stripped text between the first ":" and the next ":" or the end of the line; what follows a second ":" is ignored |
| Identity.GetSerialNumber | luftdaten.py:64-68 | None iff no line starts with "Serial"; otherwise the parse of the first such line, later ones ignored |
| Identity.DeviceId | luftdaten.py:144 | an id exists iff a serial was found; it is "raspi-" followed by the serial, so never empty; a missing serial is a startup error |
| Scheduler.Dispatches | luftdaten.py:158-159 | a pass dispatches only with a reading and strictly more than 145 seconds after update_time; at exactly 145 seconds it does not |
| Scheduler.Step | luftdaten.py:156-165 | a dispatching pass sets update_time to the dispatch time; any other pass keeps it; a pass whose read_values raised changes nothing |
| Scheduler.Run | luftdaten.py:155-167 | a run of passes whose read_values all raised leaves the globals as they were |
| Scheduler.RunUpdateTime | luftdaten.py:155-165 | after any finite run, update_time is the last dispatch time, or the start time if there was none |
| Scheduler.DispatchesSpaced | luftdaten.py:158-161 | the first dispatch comes more than 145 seconds after the start, and consecutive dispatches are more than 145 seconds apart, whatever the upload outcomes |
| Scheduler.FaultsLeaveNoTrace | luftdaten.py:156-167 | dropping the passes whose read_values raised changes neither the final state nor the dispatch times |
| Scheduler.Collector.constructor | luftdaten.py:151-152 | the loop starts with time_since_update 0 and update_time the start time |
| Scheduler.Collector.Iterate | luftdaten.py:156-167 | the new globals are Step of the old ones; the devices get read_values' calls; a raised fault or a skipped reading sends nothing; a dispatch sends the two requests of the reading and reports UploadSucceeded of their answers |
| Scheduler.Collector.RunPasses | luftdaten.py:155-167 | after a finite run of passes: pass i got a reading iff its read_values returned one, and that read_values ran on the devices as the earlier passes left them; the devices have seen every pass's calls in order; the globals are Run over the passes; the network has seen the particulate and climate requests of each pass that dispatched, in order |
| Scheduler.PassSnoc | luftdaten.py:155-167 | one more pass appends its device calls and its requests after those of the earlier passes |
| Scheduler.RunSnoc | luftdaten.py:155-167 | running one more pass is one more Step of the loop state |

## Left out

- HTTPS itself: the endpoint URL is kept as data, but what the server does with
  a request, JSON encoding and the meaning of `ok` (status below 400) are
  not modelled. The network answers each post through an opaque function.
- Logging, including the failure reasons logged at line 137, and the other
  log lines (lines 18-34, 55, 105-131, 148-149, 160-167). They are side output
  only. `Response.reason` is kept as data.
- The BME280 and PMS5003 drivers, SMBus and the UART protocol (lines 8-15,
  36-39). Each device is an opaque object that answers from its call history.
- The `"{:.2f}"` formatting, the pressure ×100 scaling and `pm_ug_per_m3`
  (lines 47-53, 58-59). These are floating-point and formatting details. Each
  device answer is already the formatted string.
- Reading `/proc/cpuinfo` from disk. `get_serial_number` gets the file as a
  sequence of lines. The second call at line 148 is for logging only.
- `check_wifi` (lines 72-76). It runs `hostname -I`, and its result is only
  logged, so it gates nothing.
- `time.time()` and the endless `while True`. Times are inputs, and the loop
  is modelled by one pass or any finite run of passes.
- Sensors.Pms5003.Reset: never fails. In the source, an exception from
  `reset()` would propagate out of `read_values` like a second read failure.
- Upload.SendToLuftdaten: always returns. In the source, an exception other
  than a `requests` exception would propagate to the loop with `update_time`
  already moved.
- `Scheduler.DispatchesSpaced` assumes that the clock does not go backwards
  between lines 158 and 161. Wall-clock time can jump; the source does not
  guard against this.
- `except Exception` in the loop does not catch `KeyboardInterrupt`, which
  ends the program. Ending the program is outside the model.
- The code reads the clock twice, at line 158 for the gate and at line 161
  for the new `update_time`. The model takes both readings as inputs to each
  pass.
- `update_time` moves on every dispatch attempt, including ones whose upload
  fails.
- `read_values` inserts `P2` before `P1`. `ExamplePartition`'s reading lists
  `P1` first, so its particulate payload does too.
