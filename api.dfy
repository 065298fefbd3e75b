/** RepelBridgeAPI (custom_components/repelbridge/__init__.py, lines 36-127):
    each device operation is exactly one HTTP request against `http://<host>`.
    The transport (session, status check, JSON decoding) is not modelled; only
    which request each operation sends. */
module Api {
  import opened Wrappers
  import opened Text

  /** The logical device operations, one per RepelBridgeAPI method. */
  datatype Operation =
    | GetSystemStatus
    | GetBusStatus(bus: int)
    | GetCartridgeStatus(bus: int)
    | SetPower(bus: int, on: bool)
    | SetBrightness(bus: int, brightness: int)
    | SetColor(bus: int, red: int, green: int, blue: int)
    | ResetCartridge(bus: int)
    | GetAutoShutoff(bus: int)
    | SetAutoShutoff(bus: int, minutes: int)
    | GetWarnAt(bus: int)
    | SetWarnAt(bus: int, hours: int)

  datatype HttpMethod = GET | POST

  /** A form field value: aiohttp sends `str` values as they are and ints in decimal. */
  datatype FormValue = Text(text: string) | Number(number: int)

  datatype Body =
    | Empty
    | Form(fields: seq<(string, FormValue)>)       // `data=` (form encoded)
    | JsonObject(members: seq<(string, int)>)      // `json=` with Content-Type application/json

  datatype Request = Request(verb: HttpMethod, url: string, body: Body)

  function BaseUrl(host: string): string { "http://" + host }

  /** `/api/bus/{bus_id}` followed by the operation's own leaf. */
  function BusPath(bus: int, leaf: string): string { "/api/bus/" + IntToString(bus) + leaf }

  /** `str(state).lower()` for a Python bool. */
  function BoolText(b: bool): (s: string)
    ensures s == "true" <==> b
    ensures s == "false" <==> !b
  {
    if b then "true" else "false"
  }

  /** The request that each RepelBridgeAPI method sends. */
  function ToRequest(host: string, op: Operation): (r: Request)
    ensures r.verb == GET <==> op.GetSystemStatus? || op.GetBusStatus? || op.GetCartridgeStatus?
                                 || op.GetAutoShutoff? || op.GetWarnAt?
    ensures op.SetPower? ==> r.body == Form([("state", Text(if op.on then "true" else "false"))])
  {
    var base := BaseUrl(host);
    match op
    case GetSystemStatus => Request(GET, base + "/api/system/status", Empty)
    case GetBusStatus(b) => Request(GET, base + BusPath(b, "/status"), Empty)
    case GetCartridgeStatus(b) => Request(GET, base + BusPath(b, "/cartridge"), Empty)
    case SetPower(b, on) => Request(POST, base + BusPath(b, "/power"), Form([("state", Text(BoolText(on)))]))
    case SetBrightness(b, v) => Request(POST, base + BusPath(b, "/brightness"), Form([("value", Number(v))]))
    case SetColor(b, red, green, blue) =>
      Request(POST, base + BusPath(b, "/color"),
              Form([("red", Number(red)), ("green", Number(green)), ("blue", Number(blue))]))
    case ResetCartridge(b) => Request(POST, base + BusPath(b, "/cartridge/reset"), Empty)
    case GetAutoShutoff(b) => Request(GET, base + BusPath(b, "/auto_shutoff"), Empty)
    case SetAutoShutoff(b, m) => Request(POST, base + BusPath(b, "/auto_shutoff"), JsonObject([("minutes", m)]))
    case GetWarnAt(b) => Request(GET, base + BusPath(b, "/warn_at"), Empty)
    case SetWarnAt(b, h) => Request(POST, base + BusPath(b, "/warn_at"), JsonObject([("hours", h)]))
  }

  /** Index of the first '/' in s, or |s| when there is none. */
  function SlashIndex(s: string): (k: nat)
    ensures k <= |s| && '/' !in s[..k]
    ensures k < |s| ==> s[k] == '/'
  {
    if s == [] || s[0] == '/' then 0 else 1 + SlashIndex(s[1..])
  }

  /** Reads a request back as the operation that produced it (what the
      device's HTTP router does); None for a request no operation sends. */
  function Decode(host: string, r: Request): Option<Operation> {
    var base := BaseUrl(host);
    if |base| <= |r.url| && r.url[..|base|] == base then DecodePath(r.verb, r.url[|base|..], r.body)
    else None
  }

  function DecodePath(m: HttpMethod, path: string, body: Body): Option<Operation> {
    var prefix := "/api/bus/";
    if path == "/api/system/status" then
      (if m == GET && body == Empty then Some(GetSystemStatus) else None)
    else if |prefix| <= |path| && path[..|prefix|] == prefix then
      var rest := path[|prefix|..];
      var k := SlashIndex(rest);
      match ParseInt(rest[..k])
      case None => None
      case Some(b) => DecodeLeaf(m, b, rest[k..], body)
    else None
  }

  function DecodeLeaf(m: HttpMethod, b: int, leaf: string, body: Body): Option<Operation> {
    match (m, body)
    case (GET, Empty) =>
      if leaf == "/status" then Some(GetBusStatus(b))
      else if leaf == "/cartridge" then Some(GetCartridgeStatus(b))
      else if leaf == "/auto_shutoff" then Some(GetAutoShutoff(b))
      else if leaf == "/warn_at" then Some(GetWarnAt(b))
      else None
    case (POST, Empty) =>
      if leaf == "/cartridge/reset" then Some(ResetCartridge(b)) else None
    case (POST, Form(fs)) =>
      if leaf == "/power" && fs == [("state", Text("true"))] then Some(SetPower(b, true))
      else if leaf == "/power" && fs == [("state", Text("false"))] then Some(SetPower(b, false))
      else if leaf == "/brightness" && |fs| == 1 && fs[0].0 == "value" && fs[0].1.Number? then
        Some(SetBrightness(b, fs[0].1.number))
      else if leaf == "/color" && |fs| == 3 && fs[0].0 == "red" && fs[1].0 == "green" && fs[2].0 == "blue"
              && fs[0].1.Number? && fs[1].1.Number? && fs[2].1.Number? then
        Some(SetColor(b, fs[0].1.number, fs[1].1.number, fs[2].1.number))
      else None
    case (POST, JsonObject(ms)) =>
      if leaf == "/auto_shutoff" && |ms| == 1 && ms[0].0 == "minutes" then Some(SetAutoShutoff(b, ms[0].1))
      else if leaf == "/warn_at" && |ms| == 1 && ms[0].0 == "hours" then Some(SetWarnAt(b, ms[0].1))
      else None
    case _ => None
  }

  /** The bus id and leaf of a bus path are read back from it. */
  lemma DecodeBusPath(m: HttpMethod, b: int, leaf: string, body: Body)
    requires |leaf| >= 1 && leaf[0] == '/'
    ensures DecodePath(m, BusPath(b, leaf), body) == DecodeLeaf(m, b, leaf, body)
  {
    var prefix := "/api/bus/";
    var digits := IntToString(b);
    var path := BusPath(b, leaf);
    assert path[5] == 'b';
    assert path != "/api/system/status" by { assert "/api/system/status"[5] == 's'; }
    assert path[..|prefix|] == prefix;
    var rest := path[|prefix|..];
    assert rest == digits + leaf;
    var k := SlashIndex(rest);
    assert rest[|digits|] == '/';
    assert k == |digits|;
    assert rest[..k] == digits;
    assert rest[k..] == leaf;
    ParseIntToString(b);
  }

  /** Decode strips `http://<host>` and routes on the rest of the URL. */
  lemma DecodeUrl(host: string, m: HttpMethod, path: string, body: Body)
    ensures Decode(host, Request(m, BaseUrl(host) + path, body)) == DecodePath(m, path, body)
  {
    var base := BaseUrl(host);
    var url := base + path;
    assert url[..|base|] == base;
    assert url[|base|..] == path;
  }

  /** Round trip: every operation's request decodes back to that operation,
      so the method, URL (host, path, bus id) and body identify it. */
  lemma DecodeToRequest(host: string, op: Operation)
    ensures Decode(host, ToRequest(host, op)) == Some(op)
  {
    var r := ToRequest(host, op);
    if op.GetSystemStatus? {
      DecodeUrl(host, r.verb, "/api/system/status", r.body);
    } else {
      var leaf := Leaf(op);
      assert r.url == BaseUrl(host) + BusPath(op.bus, leaf);
      DecodeUrl(host, r.verb, BusPath(op.bus, leaf), r.body);
      DecodeBusPath(r.verb, op.bus, leaf, r.body);
      DecodeLeafOf(host, op);
    }
  }

  /** The path suffix after `/api/bus/{bus_id}` for a bus operation. */
  function Leaf(op: Operation): (leaf: string)
    requires !op.GetSystemStatus?
    ensures |leaf| >= 1 && leaf[0] == '/'
  {
    match op
    case GetBusStatus(_) => "/status"
    case GetCartridgeStatus(_) => "/cartridge"
    case SetPower(_, _) => "/power"
    case SetBrightness(_, _) => "/brightness"
    case SetColor(_, _, _, _) => "/color"
    case ResetCartridge(_) => "/cartridge/reset"
    case GetAutoShutoff(_) => "/auto_shutoff"
    case SetAutoShutoff(_, _) => "/auto_shutoff"
    case GetWarnAt(_) => "/warn_at"
    case SetWarnAt(_, _) => "/warn_at"
  }

  lemma DecodeLeafOf(host: string, op: Operation)
    requires !op.GetSystemStatus?
    ensures var r := ToRequest(host, op);
            DecodeLeaf(r.verb, op.bus, Leaf(op), r.body) == Some(op)
  {
  }

  /** Distinct operations never send the same request. */
  lemma RequestsDistinct(host: string, op1: Operation, op2: Operation)
    requires op1 != op2
    ensures ToRequest(host, op1) != ToRequest(host, op2)
  {
    DecodeToRequest(host, op1);
    DecodeToRequest(host, op2);
  }

  /** Every bus operation targets `http://<host>/api/bus/<bus_id>/...`. */
  lemma BusRequestUrl(host: string, op: Operation)
    requires !op.GetSystemStatus?
    ensures var url := ToRequest(host, op).url;
            var head := "http://" + host + "/api/bus/" + IntToString(op.bus) + "/";
            |head| <= |url| && url[..|head|] == head
  {
  }
}
