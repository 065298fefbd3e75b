/** The config flow (custom_components/repelbridge/config_flow.py): the
    connection probe of `validate_input`, the user step, and the zeroconf
    discovery and confirmation steps. */
module ConfigFlow {
  import opened Wrappers
  import Api

  /** What the probe `GET http://{host}/api/system/status` yields: a response
      with its status and body, an `aiohttp.ClientError`, or any other
      exception (a timeout among them). */
  datatype Probe = Response(status: int, body: JsonBody) | ClientFailure | OtherFailure

  /** A response body: a JSON object, seen through its keys, or a body whose
      JSON does not parse. A body with the wrong content type makes
      `response.json()` raise `aiohttp.ContentTypeError`, an
      `aiohttp.ClientError`, so that probe is a `ClientFailure`. */
  datatype JsonBody = JsonObject(keys: set<string>) | Undecodable

  /** What the body of `validate_input`'s `try` raises. */
  datatype Raised = CannotConnectRaised | InvalidHostRaised | ClientErrorRaised | OtherRaised

  /** The exceptions `validate_input` can end with, as the user step tells them apart. */
  datatype ValidationError = CannotConnect | InvalidHost | Unexpected

  /** `{"title": ..., "host": ...}`. */
  datatype Info = Info(title: string, host: string)

  /** The URL the probe fetches: the API's system-status request. */
  function ProbeUrl(host: string): (url: string)
    ensures url == Api.ToRequest(host, Api.GetSystemStatus).url
  {
    "http://" + host + "/api/system/status"
  }

  /** The exception the `try` block raises for a probe, if any: a non-200
      status raises CannotConnect, a body without `device_name` raises
      InvalidHost, and a failed request or an undecodable body lets its own
      exception through. */
  function TryBlock(probe: Probe): (r: Option<Raised>)
    ensures r.None? <==> probe.Response? && probe.status == 200 && probe.body.JsonObject?
                         && "device_name" in probe.body.keys
    ensures probe.Response? && probe.status != 200 ==> r == Some(CannotConnectRaised)
    ensures probe.Response? && probe.status == 200 && probe.body.JsonObject? && "device_name" !in probe.body.keys ==>
              r == Some(InvalidHostRaised)
    ensures probe.ClientFailure? <==> r == Some(ClientErrorRaised)
    ensures r == Some(OtherRaised) <==> probe.OtherFailure? || (probe.Response? && probe.status == 200 && probe.body.Undecodable?)
  {
    match probe
    case ClientFailure => Some(ClientErrorRaised)
    case OtherFailure => Some(OtherRaised)
    case Response(status, body) =>
      if status != 200 then Some(CannotConnectRaised)
      else if body.Undecodable? then Some(OtherRaised)
      else if "device_name" !in body.keys then Some(InvalidHostRaised)
      else None
  }

  /** The two handlers: `except aiohttp.ClientError` and `except Exception`
      both re-raise CannotConnect. CannotConnect and InvalidHost are not
      ClientErrors, so the second handler catches them. */
  function Handle(raised: Raised): ValidationError {
    match raised
    case ClientErrorRaised => CannotConnect
    case CannotConnectRaised => CannotConnect
    case InvalidHostRaised => CannotConnect
    case OtherRaised => CannotConnect
  }

  /** `validate_input(hass, {host, name})`. */
  function ValidateInput(host: string, name: string, probe: Probe): (r: Result<Info, ValidationError>)
    ensures r.Ok? <==> TryBlock(probe).None?
    ensures r.Ok? ==> r.value == Info(name, host)
  {
    match TryBlock(probe)
    case None => Ok(Info(name, host))
    case Some(raised) => Err(Handle(raised))
  }

  /** Only CannotConnect leaves `validate_input`: a non-200 status, a body
      without `device_name`, a ClientError and any other exception all end
      there. InvalidHost is raised inside for every 200 body without
      `device_name`, but never escapes. */
  lemma OnlyCannotConnectEscapes(host: string, name: string, probe: Probe)
    ensures ValidateInput(host, name, probe).Err? ==> ValidateInput(host, name, probe).error == CannotConnect
    ensures probe.Response? && probe.status == 200 && probe.body.JsonObject? && "device_name" !in probe.body.keys ==>
              TryBlock(probe) == Some(InvalidHostRaised) && ValidateInput(host, name, probe) == Err(CannotConnect)
  {
  }

  /** The user's form input after the schema: `host` is required and `name`
      defaults to "RepelBridge". */
  datatype UserInput = UserInput(host: string, name: string)

  function ApplySchema(host: string, name: Option<string>): (input: UserInput)
    ensures input.host == host
    ensures name.None? ==> input.name == "RepelBridge"
    ensures name.Some? ==> input.name == name.value
  {
    UserInput(host, name.GetOr("RepelBridge"))
  }

  /** What a flow step returns to Home Assistant. */
  datatype FlowResult =
    | ShowUserForm(errors: map<string, string>)
    | ShowConfirmForm(name: string)
    | CreateEntry(title: string, data: UserInput)
    | Abort(reason: string)

  /** The `errors["base"]` value for each way validation can fail. */
  function ErrorKey(e: ValidationError): string {
    match e
    case CannotConnect => "cannot_connect"
    case InvalidHost => "invalid_host"
    case Unexpected => "unknown"
  }

  /** `async_step_user` as a function of the input, the probe and the hosts
      already configured. */
  function UserStep(input: Option<UserInput>, probe: Probe, configured: set<string>): (r: FlowResult)
    ensures input.None? ==> r == ShowUserForm(map[])
    ensures input.Some? ==> !r.ShowConfirmForm?
  {
    if input.None? then ShowUserForm(map[])
    else
      match ValidateInput(input.value.host, input.value.name, probe)
      case Err(e) => ShowUserForm(map["base" := ErrorKey(e)])
      case Ok(info) =>
        if input.value.host in configured then Abort("already_configured")
        else CreateEntry(info.title, input.value)
  }

  /** The user step re-shows the form with `cannot_connect` exactly when the
      probe fails, and never with `invalid_host` or `unknown`; otherwise it
      aborts for an already configured host or creates an entry titled with
      the name and holding the input. */
  lemma UserStepOutcomes(input: UserInput, probe: Probe, configured: set<string>)
    ensures var r := UserStep(Some(input), probe, configured);
            && (r.ShowUserForm? <==> TryBlock(probe).Some?)
            && (r.ShowUserForm? ==> r.errors == map["base" := "cannot_connect"])
            && (r.Abort? <==> TryBlock(probe).None? && input.host in configured)
            && (r.CreateEntry? ==> r.title == input.name && r.data == input && input.host !in configured)
            && !r.ShowConfirmForm?
  {
    OnlyCannotConnectEscapes(input.host, input.name, probe);
  }

  /** The zeroconf service-type suffix `async_step_zeroconf` removes. */
  const ServiceSuffix: string := "._repelbridge._tcp.local."

  /** Python's `s.replace(pat, "")`: every non-overlapping occurrence of pat,
      found left to right, removed. */
  function RemoveAll(s: string, pat: string): (r: string)
    requires |pat| > 0
    ensures |r| <= |s|
    decreases |s|
  {
    if |s| < |pat| then s
    else if s[..|pat|] == pat then RemoveAll(s[|pat|..], pat)
    else [s[0]] + RemoveAll(s[1..], pat)
  }

  /** A name without a '.' advertised under the service type is discovered
      as that name. */
  lemma {:induction false} StripServiceSuffix(name: string)
    requires '.' !in name
    ensures RemoveAll(name + ServiceSuffix, ServiceSuffix) == name
    decreases |name|
  {
    var s := name + ServiceSuffix;
    if name == [] {
      assert s == ServiceSuffix;
      assert s[|ServiceSuffix|..] == [];
    } else {
      assert s[0] == name[0] && name[0] != '.';
      assert s[..|ServiceSuffix|][0] != ServiceSuffix[0];
      assert s[1..] == name[1..] + ServiceSuffix;
      StripServiceSuffix(name[1..]);
      assert [name[0]] + name[1..] == name;
    }
  }

  /** pat occurs in s at position i. */
  predicate OccursAt(s: string, pat: string, i: int) {
    0 <= i && i + |pat| <= |s| && s[i..i + |pat|] == pat
  }

  /** A string with no occurrence of pat is left alone. */
  lemma {:induction false} RemoveAllAbsent(s: string, pat: string)
    requires |pat| > 0
    requires forall i :: !OccursAt(s, pat, i)
    ensures RemoveAll(s, pat) == s
    decreases |s|
  {
    if |s| >= |pat| {
      assert !OccursAt(s, pat, 0);
      forall i
        ensures !OccursAt(s[1..], pat, i)
      {
        if 0 <= i && i + |pat| <= |s[1..]| {
          assert s[1..][i..i + |pat|] == s[i + 1..i + 1 + |pat|];
          assert !OccursAt(s, pat, i + 1);
        }
      }
      RemoveAllAbsent(s[1..], pat);
      assert [s[0]] + s[1..] == s;
    }
  }

  /** Python's `a or b` on an optional string: a when it is a non-empty
      string, b otherwise. */
  function OrElse(a: Option<string>, b: Option<string>): (r: Option<string>)
    ensures a.Some? && a.value != "" ==> r == a
    ensures (a.None? || a.value == "") ==> r == b
  {
    if a.Some? && a.value != "" then a else b
  }

  /** A flow's context: the unique id, the title placeholder name and the
      discovered host and name, each None until a step sets it. */
  class Flow {
    var uniqueId: Option<string>
    var placeholderName: Option<string>
    var discoveredHost: Option<string>
    var discoveredName: Option<string>

    constructor ()
      ensures uniqueId == None && placeholderName == None
      ensures discoveredHost == None && discoveredName == None
    {
      uniqueId := None;
      placeholderName := None;
      discoveredHost := None;
      discoveredName := None;
    }

    /** `async_step_user`: sets the unique id to the host once validation
        succeeds. */
    method StepUser(input: Option<UserInput>, probe: Probe, configured: set<string>) returns (result: FlowResult)
      modifies this
      ensures result == UserStep(input, probe, configured)
      ensures input.Some? && TryBlock(probe).None? ==> uniqueId == Some(input.value.host)
      ensures !(input.Some? && TryBlock(probe).None?) ==> uniqueId == old(uniqueId)
      ensures placeholderName == old(placeholderName)
      ensures discoveredHost == old(discoveredHost) && discoveredName == old(discoveredName)
    {
      var errors: map<string, string> := map[];
      if input.Some? {
        var validated := ValidateInput(input.value.host, input.value.name, probe);
        if validated.Err? {
          errors := errors["base" := ErrorKey(validated.error)];
        } else {
          uniqueId := Some(input.value.host);
          if input.value.host in configured {
            return Abort("already_configured");
          }
          return CreateEntry(validated.value.title, input.value);
        }
      }
      return ShowUserForm(errors);
    }

    /** `async_step_zeroconf`: strips the service suffix from the name, sets
        the unique id to the host and aborts if it is configured (before any
        probe), aborts with `cannot_connect` if validation fails, and
        otherwise stores the host and name and shows the confirmation. */
    method StepZeroconf(host: string, serviceName: string, probe: Probe, configured: set<string>)
      returns (result: FlowResult)
      modifies this
      ensures uniqueId == Some(host)
      ensures host in configured ==> result == Abort("already_configured")
                                     && placeholderName == old(placeholderName)
                                     && discoveredHost == old(discoveredHost) && discoveredName == old(discoveredName)
      ensures host !in configured && TryBlock(probe).Some? ==>
                result == Abort("cannot_connect")
                && placeholderName == old(placeholderName)
                && discoveredHost == old(discoveredHost) && discoveredName == old(discoveredName)
      ensures host !in configured && TryBlock(probe).None? ==>
                var name := RemoveAll(serviceName, ServiceSuffix);
                && placeholderName == Some(name) && discoveredHost == Some(host) && discoveredName == Some(name)
                && result == ShowConfirmForm(name)
    {
      var name := RemoveAll(serviceName, ServiceSuffix);
      uniqueId := Some(host);
      if host in configured {
        return Abort("already_configured");
      }
      var validated := ValidateInput(host, name, probe);
      if validated.Err? {
        return Abort("cannot_connect");
      }
      placeholderName := Some(name);
      discoveredHost := Some(host);
      discoveredName := Some(name);
      var shown := StepZeroconfConfirm(false);
      result := shown.value;
    }

    /** `async_step_zeroconf_confirm`: without input, the confirmation form
        naming the discovered device ("RepelBridge" when none); with input,
        an entry for the discovered host and name, falling back to the unique
        id and the placeholder name when those are missing or empty. A
        fallback that is itself missing is a KeyError, modelled as None. */
    method StepZeroconfConfirm(confirmed: bool) returns (result: Option<FlowResult>)
      ensures !confirmed ==> result == Some(ShowConfirmForm(discoveredName.GetOr("RepelBridge")))
      ensures confirmed ==>
                var host := OrElse(discoveredHost, uniqueId);
                var name := OrElse(discoveredName, placeholderName);
                result == (if host.Some? && name.Some?
                           then Some(CreateEntry(name.value, UserInput(host.value, name.value)))
                           else None)
    {
      if confirmed {
        var host := OrElse(discoveredHost, uniqueId);
        if host.None? {
          return None;
        }
        var name := OrElse(discoveredName, placeholderName);
        if name.None? {
          return None;
        }
        return Some(CreateEntry(name.value, UserInput(host.value, name.value)));
      }
      return Some(ShowConfirmForm(discoveredName.GetOr("RepelBridge")));
    }
  }
}
