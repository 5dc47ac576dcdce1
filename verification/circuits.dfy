/** The circuit record builder of the v2 crawler: one circuit's upstream
    JSON turned into the stored circuit record, with defaults for missing
    fields, renamed keys and a fallback chain for the circuit name. */
module CircuitCrawler {
  import opened PyValue

  /** What the HTTP request gives: a status code and the `json()` of the
      body (`Raised` when the body is not JSON). A request that raises is
      `Raised` one level up. */
  datatype HttpReply = HttpReply(statusCode: int, body: Outcome<Value>)

  /** The `circuit_info` part of the record: the layout of the track. */
  datatype CircuitInfo = CircuitInfo(
    corners: Value,
    marshalLights: Value,
    marshalSectors: Value,
    rotation: Value,
    x: Value,
    y: Value)

  /** The stored circuit record. */
  datatype CircuitData = CircuitData(
    circuitId: Value,
    name: Value,
    location: Value,
    country: Value,
    countryCode: Value,
    circuitInfo: CircuitInfo)

  /** The name: the meeting name when it is truthy, else "<country> Grand
      Prix" for a truthy country name, else "Unknown Circuit". */
  function CircuitName(py: Builtins, meetingName: Value, countryName: Value): (name: Value)
    ensures Truthy(meetingName) ==> name == meetingName
    ensures !Truthy(meetingName) && countryName.Str? && countryName.s != "" ==>
              name == Str(countryName.s + " Grand Prix")
    ensures !Truthy(meetingName) && !Truthy(countryName) ==> name == Str("Unknown Circuit")
    ensures !Truthy(meetingName) ==> name.Str? && name.s != ""
  {
    if Truthy(meetingName) then meetingName
    else if Truthy(countryName) then Str(StrOf(py, countryName) + " Grand Prix")
    else Str("Unknown Circuit")
  }

  /** The record of one circuit's JSON; `Raised` when it is not a JSON
      object (`.get` of anything else raises). */
  function BuildCircuitData(py: Builtins, circuit: Value): (r: Outcome<CircuitData>)
    ensures r.Ok? <==> circuit.Dict?
    ensures r.Ok? ==> r.value.name == CircuitName(py, Get(circuit.fields, "meetingName", Null),
                                                  Get(circuit.fields, "countryName", Str("")))
    ensures r.Ok? ==> r.value.country == Get(circuit.fields, "countryName", Str(""))
  {
    if !circuit.Dict? then Raised
    else
      var c := circuit.fields;
      var info := CircuitInfo(
        Get(c, "corners", List([])),
        Get(c, "marshalLights", List([])),
        Get(c, "marshalSectors", List([])),
        Get(c, "rotation", Float(0.0)),
        Get(c, "x", Float(0.0)),
        Get(c, "y", Float(0.0)));
      var countryName := Get(c, "countryName", Str(""));
      Ok(CircuitData(
        Get(c, "circuitKey", Null),
        CircuitName(py, Get(c, "meetingName", Null), countryName),
        Get(c, "location", Str("")),
        countryName,
        Get(c, "countryIocCode", Str("")),
        info))
  }

  /** `get_circuit_info`: `None` for a non-200 reply and for every
      exception on the way (request, JSON decoding, record building). */
  function GetCircuitInfo(py: Builtins, reply: Outcome<HttpReply>): (r: Option<CircuitData>)
    ensures reply.Raised? ==> r.None?
    ensures reply.Ok? && reply.value.statusCode != 200 ==> r.None?
    ensures r.Some? <==> && reply.Ok? && reply.value.statusCode == 200 && reply.value.body.Ok?
                         && BuildCircuitData(py, reply.value.body.value).Ok?
  {
    if reply.Raised? || reply.value.statusCode != 200 then None
    else
      match reply.value.body
      case Raised => None
      case Ok(circuit) =>
        match BuildCircuitData(py, circuit)
        case Ok(data) => Some(data)
        case Raised => None
  }

  /** Missing fields take their defaults, and the camel-case upstream keys
      land in the renamed fields. */
  lemma CircuitFields(py: Builtins, c: map<string, Value>)
    ensures var d := BuildCircuitData(py, Dict(c)).value;
            && d.circuitId == Get(c, "circuitKey", Null)
            && d.countryCode == Get(c, "countryIocCode", Str(""))
            && d.circuitInfo.marshalLights == Get(c, "marshalLights", List([]))
            && d.circuitInfo.marshalSectors == Get(c, "marshalSectors", List([]))
            && d.country == Get(c, "countryName", Str(""))
            && ("corners" !in c ==> d.circuitInfo.corners == List([]))
            && ("marshalLights" !in c ==> d.circuitInfo.marshalLights == List([]))
            && ("marshalSectors" !in c ==> d.circuitInfo.marshalSectors == List([]))
            && ("rotation" !in c ==> d.circuitInfo.rotation == Float(0.0))
            && ("x" !in c ==> d.circuitInfo.x == Float(0.0))
            && ("y" !in c ==> d.circuitInfo.y == Float(0.0))
            && ("location" !in c ==> d.location == Str(""))
            && ("countryName" !in c ==> d.country == Str(""))
            && ("countryIocCode" !in c ==> d.countryCode == Str(""))
            && ("circuitKey" !in c ==> d.circuitId == Null)
            && ("meetingName" !in c && "countryName" !in c ==> d.name == Str("Unknown Circuit"))
  {
  }

  /** A 200 reply carrying a JSON object always gives a record. */
  lemma ObjectGivesRecord(py: Builtins, c: map<string, Value>)
    ensures GetCircuitInfo(py, Ok(HttpReply(200, Ok(Dict(c))))) == Some(BuildCircuitData(py, Dict(c)).value)
  {
  }
}
