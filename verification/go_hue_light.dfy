/**
 * The single-file client (go-hue-light.go): request shaping for a light
 * state, the name-to-resource-id directory built from the device list,
 * classification of pairing replies, the pairing handshake and the command
 * dispatch of its `main`. Network replies and operator input are parameters.
 */
module GoHueLight {
  import opened Wrappers
  import opened Bridge

  // ---------------------------------------------------------------------
  // Light-state request body
  // ---------------------------------------------------------------------

  /** The state requested on the command line. */
  datatype LightState = LightState(brightness: real, colorX: real, colorY: real)

  datatype OnField = OnField(on: bool)
  datatype Dimming = Dimming(brightness: real)
  datatype Xy = Xy(x: real, y: real)
  datatype Color = Color(xy: Xy)

  /** The `{on, dimming, color}` record that is marshalled into the PUT body. */
  datatype LightOption = LightOption(on: OnField, dimming: Dimming, color: Color)

  /** Go's zero value of the record. */
  const ZERO_OPTION := LightOption(OnField(false), Dimming(0.0), Color(Xy(0.0, 0.0)))

  /**
   * `body` is the request for `state`: the light is switched on exactly when
   * the brightness is positive, and brightness and colour are copied.
   */
  predicate Encodes(body: LightOption, state: LightState) {
    && (body.on.on <==> state.brightness > 0.0)
    && body.dimming.brightness == state.brightness
    && body.color.xy.x == state.colorX
    && body.color.xy.y == state.colorY
  }

  /** Builds the record field by field, starting from the zero value. */
  method CreateLightStateRequestBody(state: LightState) returns (opt: LightOption)
    ensures Encodes(opt, state)
  {
    opt := ZERO_OPTION;
    if state.brightness > 0.0 {
      opt := opt.(on := OnField(true));
    }
    if state.brightness == 0.0 {
      opt := opt.(on := OnField(false));
    }
    opt := opt.(dimming := Dimming(state.brightness));
    opt := opt.(color := Color(opt.color.xy.(x := state.colorX)));
    opt := opt.(color := Color(opt.color.xy.(y := state.colorY)));
  }

  /** `Encodes` pins the body down completely. */
  lemma EncodesIsUnique(a: LightOption, b: LightOption, state: LightState)
    requires Encodes(a, state) && Encodes(b, state)
    ensures a == b
  {
  }

  // ---------------------------------------------------------------------
  // Device directory
  // ---------------------------------------------------------------------

  datatype Service = Service(rid: string, rtype: string)
  datatype Metadata = Metadata(name: string)

  /** One element of the `data` array of the device list. */
  datatype Device = Device(services: seq<Service>, metadata: Metadata)

  /** The decoded device list. */
  datatype DeviceResult = DeviceResult(errors: seq<string>, data: seq<Device>)

  const LIGHT_TYPE := "light"

  predicate HasLight(services: seq<Service>) {
    exists j :: 0 <= j < |services| && services[j].rtype == LIGHT_TYPE
  }

  /** `m` after the inner loop has visited `services` of a device called `name`. */
  function AddServices(m: map<string, string>, name: string, services: seq<Service>): map<string, string>
    decreases |services|
  {
    if services == [] then m
    else
      var before := AddServices(m, name, services[..|services| - 1]);
      var s := services[|services| - 1];
      if s.rtype == LIGHT_TYPE then before[name := s.rid] else before
  }

  /** The map after the outer loop has visited all of `data`, in order. */
  function Directory(data: seq<Device>): map<string, string>
  {
    if data == [] then map[]
    else
      var d := data[|data| - 1];
      AddServices(Directory(data[..|data| - 1]), d.metadata.name, d.services)
  }

  /** What `GetLights` returns: nil (no entries) when the device list did not decode. */
  function DirectoryOf(decoded: Option<DeviceResult>): map<string, string> {
    match decoded
    case None => map[]
    case Some(res) => Directory(res.data)
  }

  /**
   * Fills the map in the source's nested loop. `decoded` is None when the
   * device request failed or its body did not decode.
   */
  method GetLights(decoded: Option<DeviceResult>) returns (lights: map<string, string>)
    ensures decoded.None? ==> lights == map[]
    ensures decoded.Some? ==> lights == Directory(decoded.value.data)
  {
    if decoded.None? {
      return map[];
    }
    var data := decoded.value.data;
    lights := map[];
    var i := 0;
    while i < |data|
      invariant 0 <= i <= |data|
      invariant lights == Directory(data[..i])
    {
      var device := data[i];
      var j := 0;
      while j < |device.services|
        invariant 0 <= j <= |device.services|
        invariant lights == AddServices(Directory(data[..i]), device.metadata.name, device.services[..j])
      {
        var service := device.services[j];
        if service.rtype == LIGHT_TYPE {
          lights := lights[device.metadata.name := service.rid];
        }
        assert device.services[..j + 1][..j] == device.services[..j];
        j := j + 1;
      }
      assert device.services[..j] == device.services;
      assert data[..i + 1][..i] == data[..i];
      i := i + 1;
    }
    assert data[..i] == data;
  }

  /** Some service is a light iff one before the last is, or the last one is. */
  lemma HasLightPrefix(services: seq<Service>)
    requires services != []
    ensures HasLight(services) <==>
              HasLight(services[..|services| - 1]) || services[|services| - 1].rtype == LIGHT_TYPE
  {
  }

  /** The inner loop adds at most the key `name`, and adds it iff some service is a light. */
  lemma {:induction false} AddServicesKeys(m: map<string, string>, name: string, services: seq<Service>, k: string)
    ensures k in AddServices(m, name, services) <==> k in m || (k == name && HasLight(services))
    decreases |services|
  {
    if services != [] {
      AddServicesKeys(m, name, services[..|services| - 1], k);
      HasLightPrefix(services);
    }
  }

  /** The inner loop leaves other keys, and `name` when no service is a light, as they were. */
  lemma {:induction false} AddServicesKeeps(m: map<string, string>, name: string, services: seq<Service>, k: string)
    requires k in m
    requires k != name || !HasLight(services)
    ensures k in AddServices(m, name, services) && AddServices(m, name, services)[k] == m[k]
    decreases |services|
  {
    if services != [] {
      HasLightPrefix(services);
      AddServicesKeeps(m, name, services[..|services| - 1], k);
    }
  }

  /** The inner loop leaves `name` bound to the rid of the last light service. */
  lemma {:induction false} AddServicesLast(m: map<string, string>, name: string, services: seq<Service>, j: int)
    requires 0 <= j < |services| && services[j].rtype == LIGHT_TYPE
    requires forall j' :: j < j' < |services| ==> services[j'].rtype != LIGHT_TYPE
    ensures name in AddServices(m, name, services)
    ensures AddServices(m, name, services)[name] == services[j].rid
    decreases |services|
  {
    var n := |services|;
    if j < n - 1 {
      var init := services[..n - 1];
      assert services[n - 1].rtype != LIGHT_TYPE;
      forall j' | j < j' < |init|
        ensures init[j'].rtype != LIGHT_TYPE
      {
        assert init[j'] == services[j'];
      }
      AddServicesLast(m, name, init, j);
    }
  }

  /**
   * The directory's keys are exactly the names of devices that have at
   * least one light service; a device with only other services adds none.
   */
  lemma {:induction false} DirectoryKeys(data: seq<Device>, k: string)
    ensures k in Directory(data) <==>
              exists i :: 0 <= i < |data| && data[i].metadata.name == k && HasLight(data[i].services)
  {
    if data != [] {
      var n := |data|;
      var init := data[..n - 1];
      var d := data[n - 1];
      DirectoryKeys(init, k);
      AddServicesKeys(Directory(init), d.metadata.name, d.services, k);
      if k in Directory(data) {
        if k in Directory(init) {
          var i :| 0 <= i < |init| && init[i].metadata.name == k && HasLight(init[i].services);
          assert data[i] == init[i];
        } else {
          assert data[n - 1].metadata.name == k && HasLight(data[n - 1].services);
        }
      }
      if exists i :: 0 <= i < |data| && data[i].metadata.name == k && HasLight(data[i].services) {
        var i :| 0 <= i < |data| && data[i].metadata.name == k && HasLight(data[i].services);
        if i < n - 1 {
          assert init[i] == data[i];
        }
      }
    }
  }

  /**
   * Last write wins: if service `j` of device `i` is a light, no later
   * service of that device is a light, and no later device of the same name
   * has a light service, then the directory maps that name to its rid.
   */
  lemma {:induction false} DirectoryValue(data: seq<Device>, i: int, j: int)
    requires 0 <= i < |data| && 0 <= j < |data[i].services|
    requires data[i].services[j].rtype == LIGHT_TYPE
    requires forall j' :: j < j' < |data[i].services| ==> data[i].services[j'].rtype != LIGHT_TYPE
    requires forall i' :: i < i' < |data| && data[i'].metadata.name == data[i].metadata.name ==>
               !HasLight(data[i'].services)
    ensures data[i].metadata.name in Directory(data)
    ensures Directory(data)[data[i].metadata.name] == data[i].services[j].rid
  {
    var n := |data|;
    var init := data[..n - 1];
    var d := data[n - 1];
    var name := data[i].metadata.name;
    if i == n - 1 {
      AddServicesLast(Directory(init), name, d.services, j);
    } else {
      assert init[i] == data[i];
      forall i' | i < i' < |init| && init[i'].metadata.name == init[i].metadata.name
        ensures !HasLight(init[i'].services)
      {
        assert init[i'] == data[i'];
      }
      DirectoryValue(init, i, j);
      AddServicesKeeps(Directory(init), d.metadata.name, d.services, name);
    }
  }

  /** Every value in the directory is the rid of a light service of a device with that name. */
  lemma {:induction false} DirectoryValueIsLightRid(data: seq<Device>, k: string)
    requires k in Directory(data)
    ensures exists i, j :: 0 <= i < |data| && 0 <= j < |data[i].services| &&
              data[i].metadata.name == k && data[i].services[j] == Service(Directory(data)[k], LIGHT_TYPE)
  {
    var n := |data|;
    var init := data[..n - 1];
    var d := data[n - 1];
    AddServicesKeys(Directory(init), d.metadata.name, d.services, k);
    if k == d.metadata.name && HasLight(d.services) {
      var j := LastLight(d.services);
      AddServicesLast(Directory(init), k, d.services, j);
      assert data[n - 1].services[j] == Service(Directory(data)[k], LIGHT_TYPE);
    } else {
      AddServicesKeeps(Directory(init), d.metadata.name, d.services, k);
      DirectoryValueIsLightRid(init, k);
      var i, j :| 0 <= i < |init| && 0 <= j < |init[i].services| &&
                  init[i].metadata.name == k && init[i].services[j] == Service(Directory(init)[k], LIGHT_TYPE);
      assert data[i] == init[i];
    }
  }

  /** The index of the last light service. */
  function LastLight(services: seq<Service>): (j: int)
    requires HasLight(services)
    ensures 0 <= j < |services| && services[j].rtype == LIGHT_TYPE
    ensures forall j' :: j < j' < |services| ==> services[j'].rtype != LIGHT_TYPE
    decreases |services|
  {
    HasLightPrefix(services);
    if services[|services| - 1].rtype == LIGHT_TYPE then |services| - 1
    else
      var j := LastLight(services[..|services| - 1]);
      assert services[j] == services[..|services| - 1][j];
      j
  }

  /**
   * Two devices, one exposing a light service and one only a button:
   * exactly one entry.
   */
  lemma OneLightOfTwoDevices()
    ensures Directory([Device([Service("r1", "light")], Metadata("Desk")),
                       Device([Service("r2", "button")], Metadata("Switch"))]) == map["Desk" := "r1"]
  {
  }

  // ---------------------------------------------------------------------
  // Pairing replies and the handshake
  // ---------------------------------------------------------------------

  const PARSE_ERROR := "error parsing error response"

  /** The element is the bridge's "press the link button" error. */
  predicate LinkButtonError(e: Element) {
    e.ErrorElement? && (e.failure.typeCode == LINK_BUTTON_TYPE || e.failure.description == LINK_BUTTON_DESCRIPTION)
  }

  /**
   * Decodes the reply as an array of error elements and inspects the first.
   * An undecodable reply is a `log.Fatal`, modelled as `Err`.
   */
  function IsLinkButtonResponse(payload: Payload): (r: Result<bool, string>)
    requires payload.Elements? ==> |payload.items| > 0
    ensures r.Err? <==> payload.Malformed?
    ensures r.Err? ==> r.error == PARSE_ERROR
    ensures r.Ok? ==> (r.value <==> LinkButtonError(payload.items[0]))
    ensures payload.Elements? && payload.items[0].SuccessElement? ==> r == Ok(false)
  {
    match payload
    case Malformed => Err(PARSE_ERROR)
    case Elements(items) =>
      var e := ErrorView(items[0]);
      Ok(e.typeCode == LINK_BUTTON_TYPE || e.description == LINK_BUTTON_DESCRIPTION)
  }

  /** Type 101 is a link-button reply whatever the description says. */
  lemma LinkButtonByType(address: string, description: string)
    ensures IsLinkButtonResponse(Elements([ErrorElement(ErrorData(101, address, description))])) == Ok(true)
  {
  }

  /** The description "link button not pressed" is a link-button reply whatever the type. */
  lemma LinkButtonByDescription(typeCode: int, address: string)
    ensures IsLinkButtonResponse(Elements([ErrorElement(ErrorData(typeCode, address, "link button not pressed"))])) == Ok(true)
  {
  }

  /** The username of the first success element; "" when the reply does not decode or is an error. */
  function ParseNewUserResult(resp: Response): (username: string)
    requires HasFirstElement(resp)
    ensures resp.Body? && resp.payload.Elements? && resp.payload.items[0].SuccessElement? ==>
              username == resp.payload.items[0].success.username
    ensures !(resp.Body? && resp.payload.Elements? && resp.payload.items[0].SuccessElement?) ==>
              username == ""
  {
    match resp
    case NoBody => ""
    case Body(Malformed) => ""
    case Body(Elements(items)) => SuccessView(items[0]).username
  }

  /** The first reply asks for the link button, so the handshake sends again. */
  predicate LinkButtonPending(first: Result<Response, string>) {
    && first.Ok? && first.value.Body? && first.value.payload.Elements?
    && |first.value.payload.items| > 0
    && LinkButtonError(first.value.payload.items[0])
  }

  /** The replies a handshake may consume are all indexable. */
  predicate Answerable(first: Result<Response, string>, second: Result<Response, string>) {
    HasFirstElementIfOk(first) && (LinkButtonPending(first) ==> HasFirstElementIfOk(second))
  }

  /**
   * The two-step registration: one send, and exactly one more only when
   * the first reply is the link-button error.
   */
  function RegisterApiKey(first: Result<Response, string>, second: Result<Response, string>): (r: Registration)
    requires Answerable(first, second)
    ensures r.sends == 1 || r.sends == 2
    ensures r.sends == 2 <==> LinkButtonPending(first)
    ensures first.Err? ==> r == Registration(Failed(first.error), 1)
    ensures first == Ok(NoBody) ==> r == Registration(Failed(REGISTER_ERROR), 1)
    ensures first == Ok(Body(Malformed)) ==> r == Registration(Aborted(PARSE_ERROR), 1)
    ensures first.Ok? && first.value.Body? && first.value.payload.Elements? && !LinkButtonPending(first) ==>
              r == Registration(Failed(REGISTER_ERROR), 1)
    ensures LinkButtonPending(first) && second.Err? ==> r.outcome == Failed(second.error)
    ensures LinkButtonPending(first) && second.Ok? ==> r.outcome == Registered(ParseNewUserResult(second.value))
  {
    match first
    case Err(e) => Registration(Failed(e), 1)
    case Ok(resp) =>
      if resp.NoBody? then Registration(Failed(REGISTER_ERROR), 1)
      else
        var linkButton := IsLinkButtonResponse(resp.payload);
        if linkButton.Err? then Registration(Aborted(linkButton.error), 1)
        else if !linkButton.value then Registration(Failed(REGISTER_ERROR), 1)
        else
          match second
          case Err(e) => Registration(Failed(e), 2)
          case Ok(resp2) => Registration(Registered(ParseNewUserResult(resp2)), 2)
  }

  /**
   * A bridge that accepts the first request (its button was already pressed)
   * still yields the registration error: the success is never read.
   */
  lemma FirstTrySuccessIsRejected(username: string, clientKey: string, second: Result<Response, string>)
    ensures RegisterApiKey(Ok(Body(Elements([SuccessElement(SuccessData(username, clientKey))]))), second)
            == Registration(Failed(REGISTER_ERROR), 1)
  {
  }

  /**
   * A second reply that is again the link-button error is not fatal: its
   * username reads as "", which becomes the API key.
   */
  lemma SecondLinkButtonReplyGivesEmptyKey(first: Result<Response, string>, second: ErrorData)
    requires HasFirstElementIfOk(first) && LinkButtonPending(first)
    ensures RegisterApiKey(first, Ok(Body(Elements([ErrorElement(second)])))) == Registration(Registered(""), 2)
  {
  }

  /** Without a retry the second reply has no influence. */
  lemma SecondReplyUnusedWithoutRetry(first: Result<Response, string>, second: Result<Response, string>, other: Result<Response, string>)
    requires HasFirstElementIfOk(first) && !LinkButtonPending(first)
    ensures RegisterApiKey(first, second) == RegisterApiKey(first, other)
  {
  }

  /**
   * Pairing with the operator's address: a rejected address, a failed
   * registration or an abort is fatal; otherwise both fields are replaced.
   */
  function HandleEmptyConfig(h: Handshake): (r: Result<BridgeConfig, string>)
    requires h.ip.Some? ==> Answerable(h.first, h.second)
    ensures h.ip.None? ==> r == Err(IP_ERROR)
    ensures h.ip.Some? && RegisterApiKey(h.first, h.second).outcome.Registered? ==>
              r == Ok(BridgeConfig(h.ip.value, RegisterApiKey(h.first, h.second).outcome.apiKey))
    ensures h.ip.Some? && RegisterApiKey(h.first, h.second).outcome.Failed? ==>
              r == Err(RegisterApiKey(h.first, h.second).outcome.error)
    ensures h.ip.Some? && RegisterApiKey(h.first, h.second).outcome.Aborted? ==>
              r == Err(RegisterApiKey(h.first, h.second).outcome.message)
  {
    match h.ip
    case None => Err(IP_ERROR)
    case Some(ip) =>
      match RegisterApiKey(h.first, h.second).outcome
      case Registered(key) => Ok(BridgeConfig(ip, key))
      case Failed(e) => Err(e)
      case Aborted(m) => Err(m)
  }

  /**
   * Empty config, the bridge first answers "link button not pressed", then
   * accepts: the new config holds the operator's address and the username,
   * after exactly two sends.
   */
  lemma LinkButtonHandshake(ip: string, address: string, username: string, clientKey: string)
    ensures var first := Ok(Body(Elements([ErrorElement(ErrorData(101, address, "link button not pressed"))])));
            var second := Ok(Body(Elements([SuccessElement(SuccessData(username, clientKey))])));
            && RegisterApiKey(first, second) == Registration(Registered(username), 2)
            && HandleEmptyConfig(Handshake(Some(ip), first, second)) == Ok(BridgeConfig(ip, username))
  {
  }

  // ---------------------------------------------------------------------
  // Command dispatch
  // ---------------------------------------------------------------------

  /** The last thing a run does: print the directory, PUT one light state, or exit fatally. */
  datatype Action =
    | Listed(lights: map<string, string>)
    | Put(bridge: BridgeConfig, rid: string, body: LightOption)
    | Fatal(message: string)

  /** What `HandleCommand` does with a name and a state. */
  predicate Handled(action: Action, config: BridgeConfig, lightName: string, state: LightState, devices: Option<DeviceResult>) {
    var lights := DirectoryOf(devices);
    if |lightName| == 0 then action == Listed(lights)
    else if lightName !in lights then action == Fatal(NotRegisteredMessage(lightName))
    else action.Put? && action.bridge == config && action.rid == lights[lightName] && Encodes(action.body, state)
  }

  /**
   * An empty name lists the directory; an unknown name is fatal; otherwise
   * the state is PUT to the rid the name resolves to.
   */
  method HandleCommand(config: BridgeConfig, lightName: string, lightState: LightState, devices: Option<DeviceResult>)
    returns (action: Action)
    ensures Handled(action, config, lightName, lightState, devices)
  {
    var lights := GetLights(devices);
    if |lightName| == 0 {
      return Listed(lights);
    }
    if lightName !in lights {
      return Fatal(NotRegisteredMessage(lightName));
    }
    var rid := lights[lightName];
    var body := CreateLightStateRequestBody(lightState);
    action := Put(config, rid, body);
  }

  /** The flags `-br`, `-colorx`, `-colory` and `-light`; None when a flag is absent. */
  datatype CommandLine = CommandLine(brightness: Option<real>, colorX: Option<real>, colorY: Option<real>, light: Option<string>)

  const DEFAULT_BRIGHTNESS: real := 100.0

  /** The state the flags ask for, with the defaults 100, 0 and 0. */
  function RequestedState(args: CommandLine): (state: LightState)
    ensures args.brightness.None? ==> state.brightness == DEFAULT_BRIGHTNESS
    ensures args.brightness.Some? ==> state.brightness == args.brightness.value
    ensures state.colorX == args.colorX.GetOr(0.0) && state.colorY == args.colorY.GetOr(0.0)
  {
    LightState(args.brightness.GetOr(DEFAULT_BRIGHTNESS), args.colorX.GetOr(0.0), args.colorY.GetOr(0.0))
  }

  /**
   * `main`: pair and save when the loaded config is incomplete, then handle
   * the command against the (possibly new) config.
   */
  method Execute(loaded: BridgeConfig, handshake: Handshake, args: CommandLine, devices: Option<DeviceResult>)
    returns (trace: Trace<Action>)
    requires NeedsPairing(loaded) && handshake.ip.Some? ==> Answerable(handshake.first, handshake.second)
    ensures trace.paired <==> NeedsPairing(loaded)
    ensures !NeedsPairing(loaded) ==>
              trace.saved.None? && Handled(trace.action, loaded, args.light.GetOr(""), RequestedState(args), devices)
    ensures NeedsPairing(loaded) && HandleEmptyConfig(handshake).Err? ==>
              trace.saved.None? && trace.action == Fatal(HandleEmptyConfig(handshake).error)
    ensures NeedsPairing(loaded) && HandleEmptyConfig(handshake).Ok? ==>
              && trace.saved == Some(HandleEmptyConfig(handshake).value)
              && Handled(trace.action, HandleEmptyConfig(handshake).value, args.light.GetOr(""), RequestedState(args), devices)
  {
    var config := loaded;
    var paired := false;
    var saved := None;
    if NeedsPairing(config) {
      paired := true;
      var pairing := HandleEmptyConfig(handshake);
      if pairing.Err? {
        return Trace(true, None, Fatal(pairing.error));
      }
      config := pairing.value;
      saved := Some(config);
    }
    var action := HandleCommand(config, args.light.GetOr(""), RequestedState(args), devices);
    trace := Trace(paired, saved, action);
  }
}
