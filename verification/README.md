# go-hue-lights: a verified model of the client's decision rules

go-hue-lights is a command-line client for a Hue bridge. It pairs with the bridge once and keeps the API key in a local file. It lists the registered lights and pushes brightness and xy colour to one light. The repository has two versions of the same `package main`:

- `go-hue-light.go`, a single file (module `GoHueLight`);
- `main.go`, which relies on helpers defined elsewhere (module `HueMain`).

Module `Bridge` holds what both versions share: the credential record, the decoded shapes of the bridge's pairing reply, the pairing outcome and the trace of one run. `Wrappers` holds `Option` and `Result`.

What is modelled:

- **Request shaping** (`GoHueLight.CreateLightStateRequestBody`). The `{on, dimming, color.xy}` record is built field by field from Go's zero value. `on` holds exactly when the brightness is positive.
- **Device directory** (`GoHueLight.GetLights`). The nested loop that fills the `name -> rid` map is proved equal to the function `Directory`. Lemmas show:
  - the keys are exactly the names of devices that have a light service;
  - every value is the rid of a light service of that name;
  - the last light service of a name wins.
- **Pairing.** `IsLinkButtonResponse` and `ParseNewUserResult` read the first element of the decoded reply the way Go's decoder fills its structs: a member that is absent reads as a zero value. `RegisterApiKey` returns its outcome together with the number of registration requests it sent (one, or two after a link-button reply). In `main.go` the reply classifier and the two-result parser are not part of this model, so they are function parameters.
- **Sentinel merge** (`HueMain.Merge`, `HueMain.SetNewLightProps`). A requested `-1.0` keeps the current value. `on` is forced true at a merged brightness of 5 or more and is never cleared. `SetNewLightProps` updates a `LightPropsCell`, which stands for the struct that the Go pointer refers to.
- **Dispatch** (`HandleCommand`, `ControlLights`, and `Execute` for each `main`). A run returns a `Trace`, which records:
  - whether pairing ran;
  - the config that was saved, if any;
  - the final action: list, usage, one PUT to a resolved rid, or a fatal exit carrying the `log.Fatal` message.

Inputs the model takes as parameters:

- the replies to the network sends (`Handshake.first`, `Handshake.second`, the decoded device list `Option<DeviceResult>`);
- in `main.go`, the parsed directory `lights` and the per-rid current state `lightState`;
- the operator's address after IP parsing (`Handshake.ip`);
- the command-line flags, as `Option` values (`None` means the flag is absent).

Consequences of the code that the model proves:

- A success reply to the first registration request is not accepted. A nil first reply, or one that decodes but whose first element is not the link-button error (a success element included), gives "Error registering new api key" (`GoHueLight.FirstTrySuccessIsRejected`). A first reply that does not decode exits with "error parsing error response".
- In `go-hue-light.go` a second link-button reply is not an error. It gives the API key `""`, which is then saved (`GoHueLight.SecondLinkButtonReplyGivesEmptyKey`).
- In `main.go` `On` is set true only from a merged brightness of 5.0, and `On` starts false. A brightness in (0, 5) is passed to `PutLightResource` with `On = false`. A colour-only change to a dim light that is on is passed to `PutLightResource` with `On = false` (`HueMain.ColourChangeOfDimLightRequestsOff`).

## Model

| member | source | states |
|---|---|---|
| `GoHueLight.CreateLightStateRequestBody` | go-hue-light.go:52-96 | the record has `on` exactly when the brightness is > 0 (so false for 0 and for negative values), and the dimming brightness, `xy.x` and `xy.y` are the input's brightness, ColorX and ColorY unchanged |
| `GoHueLight.EncodesIsUnique` | go-hue-light.go:76-88 | those facts determine the request record completely |
| `GoHueLight.GetLights` | go-hue-light.go:254-293 | a failed decode gives the empty (nil) map; otherwise the nested loop yields exactly `Directory(data)`, the in-order last-write-wins map |
| `GoHueLight.AddServicesKeys` | go-hue-light.go:285-289 | the inner loop adds at most the device's name, and adds it exactly when one of its services is a light |
| `GoHueLight.AddServicesKeeps` | go-hue-light.go:285-289 | the inner loop leaves every other key unchanged, and also the device's name when none of its services is a light |
| `GoHueLight.AddServicesLast` | go-hue-light.go:285-289 | after the inner loop the name maps to the rid of the device's last light service |
| `GoHueLight.DirectoryKeys` | go-hue-light.go:284-290 | a name is a key iff some device with that name has a service with rtype "light"; a device with only non-light services adds no key |
| `GoHueLight.DirectoryValueIsLightRid` | go-hue-light.go:284-290 | every value is the rid of a light service of a device carrying that key's name |
| `GoHueLight.DirectoryValue` | go-hue-light.go:284-288 | last write wins: the name maps to the rid of the last light service, in iteration order, among the devices with that name |
| `GoHueLight.LastLight` | go-hue-light.go:285-289 | a service list with a light service has a last one: an index with rtype "light" and no light after it |
| `GoHueLight.OneLightOfTwoDevices` | go-hue-light.go:284-290 | a light device plus a button-only device give exactly one entry |
| `GoHueLight.IsLinkButtonResponse` | go-hue-light.go:209-232 | an undecodable reply is the fatal "error parsing error response"; otherwise true iff the first element is an error element with type 101 or the description "link button not pressed"; a success element gives false |
| `GoHueLight.LinkButtonByType` | go-hue-light.go:227-229 | type 101 is a link-button reply whatever the description |
| `GoHueLight.LinkButtonByDescription` | go-hue-light.go:227-229 | the description "link button not pressed" is a link-button reply whatever the type |
| `GoHueLight.ParseNewUserResult` | go-hue-light.go:189-207 | the first element's username when it is a success element; "" for a nil or undecodable body and for any other element |
| `GoHueLight.RegisterApiKey` | go-hue-light.go:167-187 | a first-send error is returned unchanged; a nil body or a first reply that is not the link-button error (a success included) gives "Error registering new api key"; an undecodable body aborts; only a link-button reply leads to exactly one more send, whose error is returned or whose username becomes the key |
| `GoHueLight.FirstTrySuccessIsRejected` | go-hue-light.go:173-186 | a first success reply is never read: the result is the registration error after one send |
| `GoHueLight.SecondLinkButtonReplyGivesEmptyKey` | go-hue-light.go:178-183 | a second error reply is not an error: the key is "" after two sends |
| `GoHueLight.SecondReplyUnusedWithoutRetry` | go-hue-light.go:167-187 | without the retry the second reply has no influence |
| `GoHueLight.HandleEmptyConfig` | go-hue-light.go:234-252 | a rejected address is fatal with "IP out of range"; a registration error or abort is fatal with its message; otherwise both fields are replaced by the address and the new key |
| `GoHueLight.LinkButtonHandshake` | go-hue-light.go:167-252 | a link-button reply followed by a success reply pairs in two sends, and the new config holds the address and the username |
| `GoHueLight.HandleCommand` | go-hue-light.go:295-310 | an empty name lists the directory; an unknown name is fatal with the not-registered message; otherwise one PUT to the resolved rid with the body for the state |
| `GoHueLight.RequestedState` | go-hue-light.go:322-325 | absent flags default to brightness 100 and colour 0, 0; given flags are passed through |
| `GoHueLight.Execute` | go-hue-light.go:312-330 | pairing runs iff the ip or the api key is empty; a pairing failure is fatal before any save; otherwise the new config is saved and the command is handled against it |
| `HueMain.Merge` | main.go:55-71 | a `-1.0` brightness, ColorX or ColorY takes the current value and any other value is kept, each field on its own; `on` is true iff it was requested or the merged brightness is >= 5.0 |
| `HueMain.MergeIdempotent` | main.go:55-71 | merging twice against the same current props equals merging once |
| `HueMain.MergeNeverSwitchesOff` | main.go:60-62 | a requested `on` is never cleared |
| `HueMain.MergeResolvesSentinels` | main.go:56-58 | when the current props carry no `-1.0`, the merged props carry none |
| `HueMain.MergeExamples` | main.go:55-71 | against a current brightness of 40: unset keeps 40, 0 stays off, 60 switches on |
| `HueMain.ColourChangeOfDimLightRequestsOff` | main.go:55-71 | the current on flag is never consulted: a colour-only change to a light that is on below brightness 5 gives merged props with `On = false` |
| `HueMain.SetNewLightProps` | main.go:55-71 | the pointed-to props become the merge of the current props and their old value |
| `HueMain.RegisterApiKey` | main.go:13-33 | a first-send error is returned unchanged; a nil body or a reply that is not classified as the link-button error gives "Error registering new api key"; an exit inside the classifier aborts; otherwise exactly one more send, and its error or the parser's verdict is returned |
| `HueMain.HandleEmptyConfig` | main.go:35-53 | a rejected address is fatal with "IP out of range"; a registration error or abort is fatal with its message; otherwise both fields are replaced |
| `HueMain.ControlLights` | main.go:83-96 | a name not in the directory is fatal and sends nothing; otherwise exactly one PUT of the merged props to the directory's rid for that name |
| `HueMain.Requested` | main.go:108-126 | `ControlLights` gets `On = false` and the flag values, which default to `-1.0` |
| `HueMain.NameOnlyRepeatsCurrentState` | main.go:110-126 | with only `-light` given, the PUT repeats the current brightness and colour, and requests on iff that brightness is >= 5 |
| `HueMain.Execute` | main.go:98-127 | pairing and save happen iff the ip or the api key is empty (no save when pairing fails); the list flag wins whatever the name; an empty name gives usage and sends nothing; otherwise the name is controlled with the requested props |

## Left out

- HTTP and TLS: `SetLightState`, `GetDevices`, `SendNewClientRequest` and `CreateNewClientRequestBody` (go-hue-light.go:38-165). In `main.go`, `GetDeviceResource`, `GetLightResource`, `PostNewClient` and `PutLightResource` are not part of this model. Their replies are inputs, and a PUT is the `Put` action. The transport error that `SetLightState` only logs is not recorded.
- JSON encoding and decoding. The model starts from decoded values. A reply element that carries both a `success` and an `error` member cannot be represented. A reply that decodes into one of Go's two struct shapes but not the other is not distinguished.
- `config/config.go` (`Load`, `Save`): file I/O and a JSON round trip. The loaded config is an input and the save is recorded in the trace. Save errors are ignored by both `main` functions.
- The stdin reads, `net.ParseIP` and `To4().String()` in `HandleEmptyConfig` are library code and interactive I/O. Their result is the input `Handshake.ip`. The operator's key press between the two sends has no effect on the result.
- `Lights.String` only formats output. `PrintAllLights` fetches the device directory, reads each light's state from the network and prints it; Go's map iteration order is unspecified. The model records only that listing happened.
- The `main.go` helpers that this model does not contain are parameters: `IsLinkButtonResponse` (which may answer or exit the program), the two-result `ParseNewUserResult`, `ParseDeviceResource` and `ParseLightResource`.
- HueMain.RegisterApiKey: a fatal exit inside the two-result `ParseNewUserResult`, which is not part of this model, is not modelled; the parser is taken to return a key or an error.
- What `PutLightResource` sends on the wire is not part of this model: the `Put` action records the props it is given.
- Printing and logging are not modelled: the link-button prompt (go-hue-light.go:174, main.go:20), the "Registered Lights:" header (go-hue-light.go:299) and the listing itself, and the logged decode, marshal and transport failures (go-hue-light.go:92, 202, 278).
- Flag parsing errors, which make `flag.Parse` exit, are not modelled.
- Floating point. Brightness and colour are `real`. Comparisons with -1.0, 0 and 5.0 are exact. NaN and rounding are not modelled.
- The panics on indexing `[0]` of an empty reply array are excluded by preconditions (`HasFirstElement`, `Answerable`).
