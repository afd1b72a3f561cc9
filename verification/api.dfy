/**
 * The HTTP client of the integration (api.py). Every client call is modelled
 * by the `Outcome` of the Python call: it either returns a value or raises
 * one of the client's exceptions. The network exchange itself is a parameter
 * (`Network`), and so is the rendering of the endpoint templates, which live
 * in const.py (`Templates`).
 */
module Api {
  import opened Json

  /** The client's exception hierarchy: all three are PSACCApiError. */
  datatype ApiError =
    | ConnectionError(message: string)   // PSACCApiConnectionError
    | AuthError(message: string)         // PSACCApiAuthError, declared but never raised
    | GenericError(message: string)      // the base PSACCApiError

  /** What a Python call does: return a value, or raise a client error. */
  datatype Outcome<+T> = Returned(value: T) | Raised(error: ApiError)

  datatype Method = GET | POST

  /** The endpoint templates of const.py, with the arguments they are formatted with. */
  datatype Endpoint =
    | VehiclesPath
    | StatusPath(vin: string)
    | ChargeNowPath(vin: string, charge: string)
    | ChargeThresholdPath
    | ChargeHourPath
    | ClimateStartPath(vin: string, temperature: real)
    | ClimateStopPath(vin: string)
    | WakeupPath(vin: string)
    | HornPath(vin: string, count: int)
    | LightsPath(vin: string, count: int)
    | LockPath(vin: string)
    | UnlockPath(vin: string)

  /** The text of each formatted template; const.py is not part of this model. */
  type Templates = Endpoint -> string

  datatype HttpRequest = HttpRequest(verb: Method, url: string, body: Option<Json>)

  /** How one exchange with the server ended. A non-2xx status is raised by
      `raise_for_status` as a ClientError, so it is a `ClientFailure`. */
  datatype Transport =
    | Completed(response: Json)
    | TimedOut
    | ClientFailure(detail: string)
    | OtherFailure(detail: string)

  type Network = HttpRequest -> Transport

  datatype Client = Client(apiUrl: string)

  /** Python's `s.rstrip(ch)`: `s` without all trailing occurrences of `ch`. */
  function RStrip(s: string, ch: char): (r: string)
    ensures |r| <= |s| && r == s[..|r|]
    ensures r == [] || r[|r| - 1] != ch
    ensures forall j :: |r| <= j < |s| ==> s[j] == ch
  {
    if s != [] && s[|s| - 1] == ch then RStrip(s[..|s| - 1], ch) else s
  }

  /** `PSACCApiClient.__init__`: the base URL is stored without trailing slashes. */
  function NewClient(apiUrl: string): (c: Client)
    ensures c.apiUrl == [] || c.apiUrl[|c.apiUrl| - 1] != '/'
    ensures |c.apiUrl| <= |apiUrl| && apiUrl == c.apiUrl + apiUrl[|c.apiUrl|..]
    ensures forall j :: |c.apiUrl| <= j < |apiUrl| ==> apiUrl[j] == '/'
  {
    Client(RStrip(apiUrl, '/'))
  }

  /** The request `_request` issues: the stored base URL followed by the endpoint. */
  function Issue(c: Client, verb: Method, path: string, body: Option<Json>): (q: HttpRequest)
    ensures q.verb == verb && q.body == body
    ensures |q.url| == |c.apiUrl| + |path|
    ensures q.url[..|c.apiUrl|] == c.apiUrl && q.url[|c.apiUrl|..] == path
  {
    HttpRequest(verb, c.apiUrl + path, body)
  }

  /** The except-clauses of `_request`: how a transport result becomes an outcome. */
  function Classify(t: Transport): (r: Outcome<Json>)
    ensures r.Returned? <==> t.Completed?
    ensures r.Returned? ==> r.value == t.response
    ensures r.Raised? ==> !r.error.AuthError?
    ensures r.Raised? ==> (r.error.ConnectionError? <==> (t.TimedOut? || t.ClientFailure?))
    ensures r.Raised? ==> (r.error.GenericError? <==> t.OtherFailure?)
  {
    match t
    case Completed(response) => Returned(response)
    case TimedOut => Raised(ConnectionError("Timeout connecting to API"))
    case ClientFailure(detail) => Raised(ConnectionError("Error connecting to API: " + detail))
    case OtherFailure(detail) => Raised(GenericError("Unexpected error: " + detail))
  }

  /** `_request`: one exchange for the formatted endpoint, then classification. */
  function Request(c: Client, verb: Method, e: Endpoint, body: Option<Json>,
                   templates: Templates, net: Network): (r: Outcome<Json>)
    ensures r == Classify(net(Issue(c, verb, templates(e), body)))
  {
    Classify(net(HttpRequest(verb, c.apiUrl + templates(e), body)))
  }

  /** `get_vehicles` swallows every error: it always returns a list. */
  function GetVehicles(c: Client, templates: Templates, net: Network): (r: Outcome<seq<Json>>)
    ensures r.Returned?
    ensures var o := Request(c, GET, VehiclesPath, None, templates, net);
      r.value == if o.Returned? && o.value.Arr? then o.value.items else []
  {
    match Request(c, GET, VehiclesPath, None, templates, net)
    case Returned(response) =>
      if response.Arr? then Returned(response.items) else Returned([])
    case Raised(_) => Returned([])
  }

  /** `get_vehicle_status` propagates whatever `_request` raised. */
  function GetVehicleStatus(c: Client, vin: string, templates: Templates, net: Network): (r: Outcome<Json>)
    ensures var t := net(Issue(c, GET, templates(StatusPath(vin)), None));
      && (r.Returned? <==> t.Completed?)
      && (r.Returned? ==> r.value == t.response)
      && (r.Raised? ==> r.error == Classify(t).error)
  {
    Request(c, GET, StatusPath(vin), None, templates, net)
  }

  /** The mutating commands of the client, one constructor per method. */
  datatype Command =
    | StartCharge(vin: string)
    | StopCharge(vin: string)
    | SetChargeThreshold(vin: string, threshold: int)
    | SetChargeSchedule(vin: string, start: string, end: string)
    | StartClimate(vin: string, temperature: real)
    | StopClimate(vin: string)
    | WakeUp(vin: string)
    | Horn(vin: string, count: int)
    | FlashLights(vin: string, count: int)
    | LockDoors(vin: string)
    | UnlockDoors(vin: string)

  /** The endpoint each command posts to. */
  function CommandEndpoint(cmd: Command): (r: Endpoint)
    ensures r.ChargeThresholdPath? || r.ChargeHourPath? <==> cmd.SetChargeThreshold? || cmd.SetChargeSchedule?
    ensures !r.VehiclesPath? && !r.StatusPath?
    ensures !r.VehiclesPath? && !r.ChargeThresholdPath? && !r.ChargeHourPath? ==> r.vin == cmd.vin
    ensures r.ChargeNowPath? <==> cmd.StartCharge? || cmd.StopCharge?
    ensures r.ChargeNowPath? ==> (r.charge == "1" <==> cmd.StartCharge?) && r.charge in {"0", "1"}
    ensures cmd.SetChargeThreshold? ==> r.ChargeThresholdPath?
    ensures cmd.SetChargeSchedule? ==> r.ChargeHourPath?
    ensures cmd.StartClimate? ==> r == ClimateStartPath(cmd.vin, cmd.temperature)
    ensures cmd.StopClimate? ==> r.ClimateStopPath?
    ensures cmd.WakeUp? ==> r.WakeupPath?
    ensures cmd.Horn? ==> r == HornPath(cmd.vin, cmd.count)
    ensures cmd.FlashLights? ==> r == LightsPath(cmd.vin, cmd.count)
    ensures cmd.LockDoors? ==> r.LockPath?
    ensures cmd.UnlockDoors? ==> r.UnlockPath?
  {
    match cmd
    case StartCharge(vin) => ChargeNowPath(vin, "1")
    case StopCharge(vin) => ChargeNowPath(vin, "0")
    case SetChargeThreshold(_, _) => ChargeThresholdPath
    case SetChargeSchedule(_, _, _) => ChargeHourPath
    case StartClimate(vin, temperature) => ClimateStartPath(vin, temperature)
    case StopClimate(vin) => ClimateStopPath(vin)
    case WakeUp(vin) => WakeupPath(vin)
    case Horn(vin, count) => HornPath(vin, count)
    case FlashLights(vin, count) => LightsPath(vin, count)
    case LockDoors(vin) => LockPath(vin)
    case UnlockDoors(vin) => UnlockPath(vin)
  }

  /** The JSON body each command sends; only the threshold and schedule commands send one. */
  function CommandBody(cmd: Command): (body: Option<Json>)
    ensures body.Some? <==> cmd.SetChargeThreshold? || cmd.SetChargeSchedule?
    ensures body.Some? ==>
      body.value.Obj? && "vin" in body.value.fields && body.value.fields["vin"] == Str(cmd.vin)
    ensures cmd.SetChargeThreshold? ==>
      && body.value.fields.Keys == {"vin", "percentage"}
      && body.value.fields["percentage"] == Int(cmd.threshold)
    ensures cmd.SetChargeSchedule? ==>
      && body.value.fields.Keys == {"vin", "start", "end"}
      && body.value.fields["start"] == Str(cmd.start)
      && body.value.fields["end"] == Str(cmd.end)
  {
    match cmd
    case SetChargeThreshold(vin, threshold) =>
      Some(Obj(map["vin" := Str(vin), "percentage" := Int(threshold)]))
    case SetChargeSchedule(vin, start, end) =>
      Some(Obj(map["vin" := Str(vin), "start" := Str(start), "end" := Str(end)]))
    case _ => None
  }

  /** The endpoint and the body together identify the command: no two
      commands issue the same request. */
  lemma {:induction false} RequestDeterminesCommand(cmd1: Command, cmd2: Command)
    requires CommandEndpoint(cmd1) == CommandEndpoint(cmd2)
    requires CommandBody(cmd1) == CommandBody(cmd2)
    ensures cmd1 == cmd2
  {
    if cmd1.SetChargeThreshold? || cmd1.SetChargeSchedule? {
      assert CommandBody(cmd1).value.fields == CommandBody(cmd2).value.fields;
    }
  }

  /** A command method: POST, report True iff `_request` did not raise, never raise. */
  function Execute(c: Client, cmd: Command, templates: Templates, net: Network): (r: Outcome<bool>)
    ensures r.Returned?
    ensures r.value <==> net(Issue(c, POST, templates(CommandEndpoint(cmd)), CommandBody(cmd))).Completed?
  {
    match Request(c, POST, CommandEndpoint(cmd), CommandBody(cmd), templates, net)
    case Returned(_) => Returned(true)
    case Raised(_) => Returned(false)
  }

  /** `test_connection`: True unless `get_vehicles` raised, which it never does. */
  function TestConnection(c: Client, templates: Templates, net: Network): (r: Outcome<bool>)
    ensures r == Returned(true)
  {
    match GetVehicles(c, templates, net)
    case Returned(_) => Returned(true)
    case Raised(_) => Returned(false)
  }

  /** With the trailing slashes stripped, an endpoint that starts with `/`
      meets a non-empty base URL at exactly one slash. */
  lemma JoinHasOneSlash(apiUrl: string, path: string)
    requires path != [] && path[0] == '/'
    requires RStrip(apiUrl, '/') != []
    ensures var base := NewClient(apiUrl).apiUrl;
      var url := Issue(NewClient(apiUrl), GET, path, None).url;
      url[|base|] == '/' && url[|base| - 1] != '/'
  {
  }
}
