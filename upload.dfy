/**
 * send_to_luftdaten: split a reading into the particulate and the climate
 * payload, post each to sensor.community, and report whether both posts got
 * an ok response.
 *
 * HTTP itself is opaque. A Network object records every request handed to it
 * and answers through a fixed function of the requests sent before, so a post
 * may fail at the transport level (requests raised and the source caught it)
 * or come back with a response whose ok flag says whether the status was a
 * success.
 */
module Upload {
  import opened Outcomes
  import opened Readings

  const Endpoint: string := "https://api.sensor.community/v1/push-sensor-data/"
  const SoftwareVersion: string := "enviro-plus 0.0.1"
  /** X-PIN of the particulate upload (PMS5003 readings). */
  const ParticulatePin: string := "1"
  /** X-PIN of the climate upload (BME280 readings). */
  const ClimatePin: string := "11"
  /** Seconds before requests gives up on a post. */
  const TimeoutSeconds: nat := 5

  /** The JSON body: {"software_version": ..., "sensordatavalues": [...]}. */
  datatype Body = Body(softwareVersion: string, sensorDataValues: seq<Record>)

  /** One requests.post call: URL, JSON body, headers in the source's order, timeout. */
  datatype Request = Request(url: string, body: Body, headers: seq<(string, string)>, timeout: nat)

  /** The three request exceptions the source catches, each logged and then dropped. */
  datatype TransportError = ConnectionError | Timeout | OtherRequestError

  /** What send_to_luftdaten looks at in a response: ok, and reason for the log line. */
  datatype Response = Response(ok: bool, reason: string)

  datatype PostOutcome = NoResponse(error: TransportError) | Responded(response: Response)

  /** The request the source builds for one payload, pin and device id. */
  function BuildRequest(payload: seq<Record>, pin: string, id: string): (r: Request)
    ensures r.url == Endpoint && r.timeout == TimeoutSeconds
    ensures r.body.softwareVersion == SoftwareVersion && r.body.sensorDataValues == payload
  {
    Request(Endpoint, Body(SoftwareVersion, payload),
            [("X-PIN", pin), ("X-Sensor", id), ("Content-Type", "application/json"), ("cache-control", "no-cache")],
            TimeoutSeconds)
  }

  function ParticulateRequest(values: Reading, id: string): Request
  {
    BuildRequest(Payload(ParticulateFields(values)), ParticulatePin, id)
  }

  function ClimateRequest(values: Reading, id: string): Request
  {
    BuildRequest(Payload(ClimateFields(values)), ClimatePin, id)
  }

  /** The value of a header, by name. */
  function Header(req: Request, name: string): Option<string>
  {
    HeaderIn(req.headers, name)
  }

  function HeaderIn(headers: seq<(string, string)>, name: string): Option<string>
  {
    if headers == [] then None
    else if headers[0].0 == name then Some(headers[0].1)
    else HeaderIn(headers[1..], name)
  }

  /**
   * A built request posts to the sensor.community endpoint with a five second
   * timeout, carries the pin, the device id and the JSON headers, and its body
   * holds exactly the given fields in order under the software version.
   */
  lemma BuildRequestCarries(fields: Reading, pin: string, id: string)
    ensures var req := BuildRequest(Payload(fields), pin, id);
      && req.url == Endpoint && req.timeout == 5
      && req.body.softwareVersion == "enviro-plus 0.0.1"
      && FieldsOf(req.body.sensorDataValues) == fields
      && Header(req, "X-PIN") == Some(pin)
      && Header(req, "X-Sensor") == Some(id)
      && Header(req, "Content-Type") == Some("application/json")
      && Header(req, "cache-control") == Some("no-cache")
  {
    PayloadRoundTrip(fields);
    var req := BuildRequest(Payload(fields), pin, id);
    assert "X-Sensor"[2] != "X-PIN"[2];
    assert "Content-Type"[0] != "X-PIN"[0] && "Content-Type"[0] != "X-Sensor"[0];
    assert "cache-control"[0] != "X-PIN"[0] && "cache-control"[0] != "X-Sensor"[0] && "cache-control"[0] != "Content-Type"[0];
    var hs := req.headers;
    assert HeaderIn(hs[3..], "cache-control") == Some("no-cache");
    assert HeaderIn(hs[2..], "Content-Type") == Some("application/json");
    assert HeaderIn(hs[2..], "cache-control") == Some("no-cache");
    assert HeaderIn(hs[1..], "X-Sensor") == Some(id);
    assert HeaderIn(hs[1..], "Content-Type") == Some("application/json");
    assert HeaderIn(hs[1..], "cache-control") == Some("no-cache");
  }

  /**
   * Of the two requests of one dispatch, the particulate one carries X-PIN "1"
   * and the "P" fields, the climate one X-PIN "11" and the other fields; both
   * carry the same X-Sensor id.
   */
  lemma RequestsOfDispatch(values: Reading, id: string)
    ensures var pm, climate := ParticulateRequest(values, id), ClimateRequest(values, id);
      && Header(pm, "X-PIN") == Some("1") && Header(climate, "X-PIN") == Some("11")
      && Header(pm, "X-Sensor") == Header(climate, "X-Sensor") == Some(id)
      && FieldsOf(pm.body.sensorDataValues) == ParticulateFields(values)
      && FieldsOf(climate.body.sensorDataValues) == ClimateFields(values)
  {
    BuildRequestCarries(ParticulateFields(values), ParticulatePin, id);
    BuildRequestCarries(ClimateFields(values), ClimatePin, id);
  }

  /**
   * The final test of send_to_luftdaten (lines 133-140): true exactly when
   * both posts came back and both responses are ok. A post that got no
   * response makes it false whatever the other one says.
   */
  function UploadSucceeded(pm: Option<Response>, climate: Option<Response>): (ok: bool)
    ensures ok <==> pm.Some? && climate.Some? && pm.value.ok && climate.value.ok
    ensures pm.None? || climate.None? ==> !ok
  {
    if pm.Some? && climate.Some? then pm.value.ok && climate.value.ok
    else false
  }

  /** resp = requests.post(...) inside try/except: the response, or None if the post raised. */
  function ResponseOf(o: PostOutcome): (r: Option<Response>)
    ensures r.Some? <==> o.Responded?
    ensures r.Some? ==> r.value == o.response
  {
    match o
    case NoResponse(_) => None
    case Responded(resp) => Some(resp)
  }

  /** The network as this program sees it. */
  class Network {
    const respond: (seq<Request>, Request) -> PostOutcome
    var sent: seq<Request>

    constructor (respond: (seq<Request>, Request) -> PostOutcome)
      ensures this.respond == respond && sent == []
    {
      this.respond := respond;
      sent := [];
    }

    method Post(req: Request) returns (o: PostOutcome)
      modifies this
      ensures sent == old(sent) + [req]
      ensures o == respond(old(sent), req)
    {
      o := respond(sent, req);
      sent := sent + [req];
    }
  }

  /**
   * send_to_luftdaten. Both posts are always made, the particulate one first,
   * whatever became of the first; the result is UploadSucceeded of the two
   * answers.
   */
  method SendToLuftdaten(values: Reading, id: string, net: Network) returns (ok: bool)
    modifies net
    ensures net.sent == old(net.sent) + [ParticulateRequest(values, id), ClimateRequest(values, id)]
    ensures ok == UploadSucceeded(
      ResponseOf(net.respond(old(net.sent), ParticulateRequest(values, id))),
      ResponseOf(net.respond(old(net.sent) + [ParticulateRequest(values, id)], ClimateRequest(values, id))))
  {
    var pmValues := ParticulateFields(values);
    var tempValues := ClimateFields(values);
    var pmValuesJson := Payload(pmValues);
    var tempValuesJson := Payload(tempValues);

    var respPm: Option<Response> := None;
    var respBmp: Option<Response> := None;

    var outcome := net.Post(BuildRequest(pmValuesJson, ParticulatePin, id));
    if outcome.Responded? {
      respPm := Some(outcome.response);
    }
    outcome := net.Post(BuildRequest(tempValuesJson, ClimatePin, id));
    if outcome.Responded? {
      respBmp := Some(outcome.response);
    }

    ok := UploadSucceeded(respPm, respBmp);
  }
}
