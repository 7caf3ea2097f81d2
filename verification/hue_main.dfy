/**
 * The two-file client (main.go): the sentinel merge of requested light
 * properties into the light's current ones, the handshake, `ControlLights`
 * and the flag dispatch of its `main`. The helpers this file calls but does
 * not define (reply classification, reply parsing, the device and light
 * lookups) are parameters.
 */
module HueMain {
  import opened Wrappers
  import opened Bridge

  // ---------------------------------------------------------------------
  // Light properties and the sentinel merge
  // ---------------------------------------------------------------------

  /** A light's properties, fields in the order `On, Brightness, ColorX, ColorY`. */
  datatype LightProps = LightProps(on: bool, brightness: real, colorX: real, colorY: real)

  /** A requested field with this value means "keep the current value". */
  const UNSET: real := -1.0

  /** A merged brightness at least this high switches the light on. */
  const ON_THRESHOLD: real := 5.0

  /** The requested properties with every unset field taken from `current`. */
  function Merge(current: LightProps, requested: LightProps): (merged: LightProps)
    ensures requested.brightness == UNSET ==> merged.brightness == current.brightness
    ensures requested.brightness != UNSET ==> merged.brightness == requested.brightness
    ensures requested.colorX == UNSET ==> merged.colorX == current.colorX
    ensures requested.colorX != UNSET ==> merged.colorX == requested.colorX
    ensures requested.colorY == UNSET ==> merged.colorY == current.colorY
    ensures requested.colorY != UNSET ==> merged.colorY == requested.colorY
    ensures merged.on <==> requested.on || merged.brightness >= ON_THRESHOLD
  {
    var brightness := if requested.brightness == UNSET then current.brightness else requested.brightness;
    LightProps(
      requested.on || brightness >= ON_THRESHOLD,
      brightness,
      if requested.colorX == UNSET then current.colorX else requested.colorX,
      if requested.colorY == UNSET then current.colorY else requested.colorY)
  }

  /** Merging a second time against the same current properties changes nothing. */
  lemma MergeIdempotent(current: LightProps, requested: LightProps)
    ensures Merge(current, Merge(current, requested)) == Merge(current, requested)
  {
  }

  /** The merge only ever switches a light on, never off. */
  lemma MergeNeverSwitchesOff(current: LightProps, requested: LightProps)
    requires requested.on
    ensures Merge(current, requested).on
  {
  }

  /** When the current light carries no sentinel, none reaches the request. */
  lemma MergeResolvesSentinels(current: LightProps, requested: LightProps)
    requires current.brightness != UNSET && current.colorX != UNSET && current.colorY != UNSET
    ensures var merged := Merge(current, requested);
            merged.brightness != UNSET && merged.colorX != UNSET && merged.colorY != UNSET
  {
  }

  /**
   * Against a light at brightness 40: an unset brightness keeps 40, a
   * requested 0 leaves the light off, a requested 60 switches it on.
   */
  lemma MergeExamples(current: LightProps)
    requires current.brightness == 40.0
    ensures Merge(current, LightProps(false, UNSET, UNSET, UNSET)).brightness == 40.0
    ensures !Merge(current, LightProps(false, 0.0, UNSET, UNSET)).on
    ensures Merge(current, LightProps(false, 60.0, UNSET, UNSET)).on
  {
  }

  /**
   * The current on flag is never consulted: the merge for a colour-only
   * change to a light that is on below brightness 5 has `on` false.
   */
  lemma ColourChangeOfDimLightRequestsOff(current: LightProps, x: real, y: real)
    requires current.on && current.brightness < ON_THRESHOLD
    ensures !Merge(current, LightProps(false, UNSET, x, y)).on
  {
  }

  /** The variable that `SetNewLightProps` updates through its pointer. */
  class LightPropsCell {
    var on: bool
    var brightness: real
    var colorX: real
    var colorY: real

    constructor (props: LightProps)
      ensures Value() == props
    {
      on, brightness, colorX, colorY := props.on, props.brightness, props.colorX, props.colorY;
    }

    function Value(): LightProps
      reads this
    {
      LightProps(on, brightness, colorX, colorY)
    }
  }

  /** Updates `*newProps` step by step: brightness, then on, then the two colour coordinates. */
  method SetNewLightProps(currentProps: LightProps, newProps: LightPropsCell)
    modifies newProps
    ensures newProps.Value() == Merge(currentProps, old(newProps.Value()))
  {
    if newProps.brightness == UNSET {
      newProps.brightness := currentProps.brightness;
    }
    if newProps.brightness >= ON_THRESHOLD {
      newProps.on := true;
    }
    if newProps.colorX == UNSET {
      newProps.colorX := currentProps.colorX;
    }
    if newProps.colorY == UNSET {
      newProps.colorY := currentProps.colorY;
    }
  }

  // ---------------------------------------------------------------------
  // The handshake
  // ---------------------------------------------------------------------

  /**
   * The classifier of the first reply: `Ok(b)` says whether the body is the
   * link-button error, `Err(m)` that the classifier exits the program with
   * the diagnostic `m`.
   */
  type Classifier = Payload -> Result<bool, string>

  /** The first reply is a body that the link-button classifier accepts. */
  predicate LinkButtonPending(first: Result<Response, string>, isLinkButton: Classifier) {
    first.Ok? && first.value.Body? && isLinkButton(first.value.payload) == Ok(true)
  }

  /** The classifier exits the program on the first reply's body. */
  predicate ClassifierAborts(first: Result<Response, string>, isLinkButton: Classifier) {
    first.Ok? && first.value.Body? && isLinkButton(first.value.payload).Err?
  }

  /**
   * The two-step registration with the classifier and the two-result parser
   * as parameters: exactly one more send only when the first reply is
   * classified as the link-button error, and the parser's verdict on the
   * second reply is returned as it is.
   */
  function RegisterApiKey(
    first: Result<Response, string>, second: Result<Response, string>,
    isLinkButton: Classifier, parse: Response -> Result<string, string>): (r: Registration)
    ensures r.sends == 1 || r.sends == 2
    ensures r.sends == 2 <==> LinkButtonPending(first, isLinkButton)
    ensures r.outcome.Aborted? <==> ClassifierAborts(first, isLinkButton)
    ensures ClassifierAborts(first, isLinkButton) ==>
              r == Registration(Aborted(isLinkButton(first.value.payload).error), 1)
    ensures first.Err? ==> r == Registration(Failed(first.error), 1)
    ensures first.Ok? && !LinkButtonPending(first, isLinkButton) && !ClassifierAborts(first, isLinkButton) ==>
              r == Registration(Failed(REGISTER_ERROR), 1)
    ensures LinkButtonPending(first, isLinkButton) && second.Err? ==> r.outcome == Failed(second.error)
    ensures LinkButtonPending(first, isLinkButton) && second.Ok? && parse(second.value).Ok? ==>
              r.outcome == Registered(parse(second.value).value)
    ensures LinkButtonPending(first, isLinkButton) && second.Ok? && parse(second.value).Err? ==>
              r.outcome == Failed(parse(second.value).error)
  {
    match first
    case Err(e) => Registration(Failed(e), 1)
    case Ok(resp) =>
      if resp.NoBody? then Registration(Failed(REGISTER_ERROR), 1)
      else
        var linkButton := isLinkButton(resp.payload);
        if linkButton.Err? then Registration(Aborted(linkButton.error), 1)
        else if !linkButton.value then Registration(Failed(REGISTER_ERROR), 1)
        else
          match second
          case Err(e) => Registration(Failed(e), 2)
          case Ok(resp2) =>
            match parse(resp2)
            case Ok(key) => Registration(Registered(key), 2)
            case Err(e) => Registration(Failed(e), 2)
  }

  /**
   * Pairing with the operator's address: a rejected address, a failed
   * registration or an exit inside the classifier is fatal; otherwise both
   * fields are replaced.
   */
  function HandleEmptyConfig(h: Handshake, isLinkButton: Classifier, parse: Response -> Result<string, string>)
    : (r: Result<BridgeConfig, string>)
    ensures h.ip.None? ==> r == Err(IP_ERROR)
    ensures h.ip.Some? && RegisterApiKey(h.first, h.second, isLinkButton, parse).outcome.Registered? ==>
              r == Ok(BridgeConfig(h.ip.value, RegisterApiKey(h.first, h.second, isLinkButton, parse).outcome.apiKey))
    ensures h.ip.Some? && RegisterApiKey(h.first, h.second, isLinkButton, parse).outcome.Failed? ==>
              r == Err(RegisterApiKey(h.first, h.second, isLinkButton, parse).outcome.error)
    ensures h.ip.Some? && RegisterApiKey(h.first, h.second, isLinkButton, parse).outcome.Aborted? ==>
              r == Err(RegisterApiKey(h.first, h.second, isLinkButton, parse).outcome.message)
  {
    match h.ip
    case None => Err(IP_ERROR)
    case Some(ip) =>
      match RegisterApiKey(h.first, h.second, isLinkButton, parse).outcome
      case Registered(key) => Ok(BridgeConfig(ip, key))
      case Failed(e) => Err(e)
      case Aborted(m) => Err(m)
  }

  // ---------------------------------------------------------------------
  // Control and dispatch
  // ---------------------------------------------------------------------

  /** The last thing a run does. */
  datatype Action =
    | ListedAll
    | Usage
    | Put(bridge: BridgeConfig, rid: string, props: LightProps)
    | Fatal(message: string)

  /**
   * `lights` is the parsed device directory and `lightState(rid)` the parsed
   * current state of light `rid`, both as the bridge reports them.
   */
  predicate Controlled(
    action: Action, config: BridgeConfig, lightName: string, requested: LightProps,
    lights: map<string, string>, lightState: string -> LightProps)
  {
    if lightName !in lights then action == Fatal(NotRegisteredMessage(lightName))
    else action == Put(config, lights[lightName], Merge(lightState(lights[lightName]), requested))
  }

  /**
   * An unknown name is fatal and sends nothing; otherwise exactly one PUT
   * of the merged properties goes to the rid the name resolves to.
   */
  method ControlLights(
    config: BridgeConfig, lightName: string, newLightProps: LightProps,
    lights: map<string, string>, lightState: string -> LightProps)
    returns (action: Action)
    ensures Controlled(action, config, lightName, newLightProps, lights, lightState)
  {
    if lightName !in lights {
      return Fatal(NotRegisteredMessage(lightName));
    }
    var rid := lights[lightName];
    var currentLightProps := lightState(rid);
    var props := new LightPropsCell(newLightProps);
    SetNewLightProps(currentLightProps, props);
    action := Put(config, rid, props.Value());
  }

  /** The flags `-list`, `-light`, `-br`, `-colorx` and `-colory`; None when a flag is absent. */
  datatype CommandLine = CommandLine(
    list: Option<bool>, light: Option<string>,
    brightness: Option<real>, colorX: Option<real>, colorY: Option<real>)

  /** What `main` passes to `ControlLights`: off, and the flags with their `-1.0` defaults. */
  function Requested(args: CommandLine): (props: LightProps)
    ensures !props.on
    ensures args.brightness.None? ==> props.brightness == UNSET
    ensures args.colorX.None? ==> props.colorX == UNSET
    ensures args.colorY.None? ==> props.colorY == UNSET
    ensures args.brightness.Some? ==> props.brightness == args.brightness.value
    ensures args.colorX.Some? ==> props.colorX == args.colorX.value
    ensures args.colorY.Some? ==> props.colorY == args.colorY.value
  {
    LightProps(false, args.brightness.GetOr(UNSET), args.colorX.GetOr(UNSET), args.colorY.GetOr(UNSET))
  }

  /**
   * With only `-light` given, the PUT repeats the light's brightness and
   * colour and requests it on exactly when that brightness is at least 5.
   */
  lemma NameOnlyRepeatsCurrentState(current: LightProps, name: string)
    ensures Merge(current, Requested(CommandLine(None, Some(name), None, None, None)))
            == LightProps(current.brightness >= ON_THRESHOLD, current.brightness, current.colorX, current.colorY)
  {
  }

  /** What `main` does once the config is complete. */
  predicate Dispatched(
    action: Action, config: BridgeConfig, args: CommandLine,
    lights: map<string, string>, lightState: string -> LightProps)
  {
    if args.list.GetOr(false) then action == ListedAll
    else if |args.light.GetOr("")| == 0 then action == Usage
    else Controlled(action, config, args.light.value, Requested(args), lights, lightState)
  }

  /**
   * `main`: pair and save when the loaded config is incomplete; then the
   * list flag wins, an empty name prints usage, and any other name is
   * controlled.
   */
  method Execute(
    loaded: BridgeConfig, handshake: Handshake,
    isLinkButton: Classifier, parse: Response -> Result<string, string>,
    args: CommandLine, lights: map<string, string>, lightState: string -> LightProps)
    returns (trace: Trace<Action>)
    ensures trace.paired <==> NeedsPairing(loaded)
    ensures !NeedsPairing(loaded) ==>
              trace.saved.None? && Dispatched(trace.action, loaded, args, lights, lightState)
    ensures NeedsPairing(loaded) && HandleEmptyConfig(handshake, isLinkButton, parse).Err? ==>
              trace.saved.None? && trace.action == Fatal(HandleEmptyConfig(handshake, isLinkButton, parse).error)
    ensures NeedsPairing(loaded) && HandleEmptyConfig(handshake, isLinkButton, parse).Ok? ==>
              && trace.saved == Some(HandleEmptyConfig(handshake, isLinkButton, parse).value)
              && Dispatched(trace.action, HandleEmptyConfig(handshake, isLinkButton, parse).value, args, lights, lightState)
  {
    var config := loaded;
    var paired := false;
    var saved := None;
    if NeedsPairing(config) {
      paired := true;
      var pairing := HandleEmptyConfig(handshake, isLinkButton, parse);
      if pairing.Err? {
        return Trace(true, None, Fatal(pairing.error));
      }
      config := pairing.value;
      saved := Some(config);
    }
    var action;
    if args.list.GetOr(false) {
      action := ListedAll;
    } else if |args.light.GetOr("")| == 0 {
      action := Usage;
    } else {
      action := ControlLights(config, args.light.value, Requested(args), lights, lightState);
    }
    trace := Trace(paired, saved, action);
  }
}
