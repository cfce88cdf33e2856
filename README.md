# UPnP media-player driver, modelled in Dafny

This project models the core of a driver for a home-automation platform. The driver finds UPnP/DLNA
media renderers on the local network and registers each one as a media player on the platform. It
then forwards the platform's play, pause, stop, track-jump and volume commands to the renderer's
AVTransport:1 and RenderingControl:1 services.

The model covers the following:

- **The adapter** (`device.go`, class `Device.MediaPlayer`).
  - Construction builds the signature map from the UPnP device description and drops every empty
    value (`Device.Signatures`, `Device.BuildSignatures`). It then registers the device with the
    platform (`Device.NewMediaPlayer`).
  - The two attach methods implement a first-attach gate. The first transport handle wires the
    play/pause, stop and playlist-jump callbacks and asks for the control channel. The first
    rendering handle wires the volume callback and asks for the volume channel. A later handle only
    replaces the stored one. A refused channel is fatal to the process.
  - The gate is specified on values (`Device.AttachTransport`, `Device.AttachRendering`). The class
    methods are proved against that specification. The invariant `Device.Consistent` ties the wired
    callbacks and the channel requests to the handles that are present.
  - The command handlers map each platform command to the UPnP action it issues, on the handle the
    adapter holds when the command arrives. When both halves of a volume command fail, the SetMute
    error wins.
- **The volume conversion** (`device.go:123`, module `Binary64`). `uint16(*state.Level*100.00)`
  rounds the float64 product to 53 significant bits and then truncates it toward zero. The model
  proves that, for a non-negative level, the result is within one of the integer part of the exact
  percentage. The result is
  exactly that integer part when the product needs no rounding. A level of 0.29 is sent as 28.
- **The driver** (`driver.go`, class `Driver.Driver`).
  - A registry maps unique device names (UDNs) to adapters.
  - `getDevice` is a get-or-create lookup.
  - `Search` is one discovery pass. It visits every transport client and then every rendering
    client. For each one it looks up or creates the adapter of the client's root device and attaches
    the client.
  - The registry and the pass are specified on values (`Driver.GetOrCreate`, `Driver.VisitStep`,
    `Driver.Pass`, `Driver.SearchPass`). The class methods are proved against them.
  - `DriverProperties` proves what a pass guarantees:
    - keys are only ever added;
    - adapters keep the attach invariant;
    - every adapter ends the pass holding the last handle found for it;
    - a device that offers both services gets a single adapter that holds both handles.

The platform SDK and the UPnP client library are not part of this model. Each call into them is
represented by an oracle parameter, `Platform.Answers` or an `Option<Error>` argument, which says
whether the call fails. `log.Fatalf` becomes the exit value `Fatal`. Calling a method through a nil
`*MediaPlayer` becomes the exit value `Panicked`.

**A device whose registration failed is never retried.** When `getDevice` fails, `Search` logs the
warning "couldn't create the device" and moves on to the next client with `continue`
(`driver.go:84-86`). That reads as skipping the device for this client only. The code does more
than that. `getDevice` stores the nil pointer under the UDN (`driver.go:49-50`). Every later lookup then
returns that nil with no error (`driver.go:44-53`), so the next client of that device calls
`Set*Client` on nil and panics. This can happen in the same pass, when a renderer offers both
services: such a Search then never completes; it panics, or stops earlier for another reason. The
model follows the code and proves the behaviour (`DriverProperties.NilEntryNeverRetried`,
`DriverProperties.NilEntryPanics`, `DriverProperties.RefusedDeviceStopsSearch`,
`DriverProperties.RefusedRendererPanicsSamePass`).

## Model

| member | source | states |
|---|---|---|
| Device.SignatureLiteral | device.go:27-40 | the literal map has exactly the twelve fixed keys, and the thing type is "mediaplayer" |
| Device.Signatures | device.go:27-46 | no registered signature is empty, and the thing type is always "mediaplayer" |
| Device.SignaturesOnlyFixedKeys | device.go:27-40 | the registered signatures use only the twelve fixed keys |
| Device.SignaturesCarryTypeFields | device.go:27-46 | device type, friendly name, manufacturer and manufacturer URL appear under their keys exactly when non-empty, with their own value |
| Device.SignaturesCarryModelFields | device.go:27-46 | the same for model description, name, number and URL |
| Device.SignaturesCarryIdentityFields | device.go:27-46 | the same for serial number, UDN and UPC |
| Device.BuildSignatures | device.go:42-46 | the loop deleting empty values from the literal map yields exactly the registered signatures |
| Device.Registration | device.go:48-53 | the device is registered with the id as natural id and as name, of type "upnp", with the "mediaplayer" thing type and no empty signature |
| Device.NewMediaPlayer | device.go:18-62 | a platform refusal is returned with a nil adapter; otherwise a fresh adapter is registered with id, "upnp", name id and the signatures, and holds no handle, callback or channel request |
| Device.AttachTransport | device.go:64-78 | only the first transport handle wires the three transport callbacks and asks once for the control channel; a refusal is fatal with the handle still unset; otherwise the handle becomes the new client and the rest of the adapter is unchanged |
| Device.AttachRendering | device.go:80-92 | the same gate for the volume callback and the volume channel with mute support |
| Device.NewPlayerConsistent | device.go:48-61 | a new adapter satisfies the attach invariant and is named by its id |
| Device.ChannelsRequestedOnce | device.go:64-92 | under the invariant each channel is requested exactly once when its handle is present, never otherwise, so at most two requests in all |
| Device.AttachKeepsConsistent | device.go:64-92 | an attach that does not stop the process keeps the invariant |
| Device.ReattachOnlyReplaces | device.go:64-92 | once a handle is present, a further attach only replaces it, whatever the platform would answer |
| Device.WiredCallbacksHaveHandles | device.go:64-92 | a transport callback is wired exactly when a transport handle is present, and the volume callback exactly when a rendering handle is present |
| Device.MediaPlayer.constructor | device.go:20 | a new adapter wraps the given platform player and holds no handle |
| Device.MediaPlayer.SetTransportClient | device.go:64-78 | the adapter's new state and exit are those of AttachTransport, and it returns nil |
| Device.MediaPlayer.SetRenderingClient | device.go:80-92 | the adapter's new state and exit are those of AttachRendering, and it returns nil |
| Device.PlaylistJumpRequest | device.go:94-99 | a positive delta sends Next on instance 0, any other delta sends Previous, to the given transport client |
| Device.PlayPauseRequest | device.go:101-107 | play sends Play on instance 0 at speed "1", pause sends Pause on instance 0 |
| Device.StopRequest | device.go:109-111 | sends Stop on instance 0 |
| Device.MediaPlayer.ApplyPlaylistJump | device.go:94-99 | the playlist-jump callback sends its request to the transport handle the adapter holds when it is called |
| Device.MediaPlayer.ApplyPlayPause | device.go:101-107 | the same for play and pause |
| Device.MediaPlayer.ApplyStop | device.go:109-111 | the same for stop |
| Device.MediaPlayer.ApplyVolume | device.go:113-130 | on the rendering handle held when it is called: SetMute on Master is sent iff a mute flag is given, then SetVolume with uint16(level * 100.00) iff a level is given; the result is nil iff no sent call failed; a SetMute error wins over a SetVolume error |
| Binary64.RoundedQuotient | device.go:123 | the quotient is a nearest one: its multiple lies within half a unit of the dividend, and on a tie it is even |
| Binary64.Times100 | device.go:123 | the float64 product keeps the sign and is the exact product rounded to nearest with ties to even at the scale that leaves 53 significant bits: the exact product is below 2^(53+k) for the k low bits dropped, and some bit is dropped only when the exact product needs more than 53 bits |
| Binary64.ToUint16 | device.go:123 | the conversion is defined exactly when the truncated value fits 16 bits and is not a negative whole number, and is then the truncated value |
| Binary64.RoundedProduct | device.go:123 | when either integer part is below 65536, the integer part of the rounded product is within one of that of the exact product; they are equal when no rounding happened |
| Binary64.Percent | device.go:123 | uint16(level * 100.00), the value ApplyVolume sends: when defined it fits 16 bits, and a negative level can only give 0; its relation to the exact percentage is PercentNearExact, and TwentyNinePercentIsSentAsTwentyEight evaluates it at 0.29 |
| Binary64.PercentNearExact | device.go:123 | for a non-negative level, the value sent is within one of the exact percentage's integer part, is defined whenever that is below 65535, and equals it when the product needs no rounding |
| Binary64.TwentyNinePercentIsSentAsTwentyEight | device.go:123 | the level 0.29 is sent as 28 |
| Driver.GetOrCreate | driver.go:41-54 | the lookup adds exactly the UDN to the registry and changes no existing entry; it returns the stored entry, and a construction error comes with a nil entry |
| Driver.VisitStep | driver.go:83-88 | one loop iteration adds exactly the client's UDN to the registry, and panics exactly when a nil entry was already stored under it |
| Driver.Pass | driver.go:81-89 | a loop over the clients never removes a key |
| Driver.SearchPass | driver.go:69-112 | a failed transport enumeration is fatal with that error and leaves the registry unchanged; a failed rendering enumeration never lets the process run on; no key is removed |
| Driver.PassNext | driver.go:81-89 | visiting the client after a prefix that completed is one step from that prefix's registry |
| Driver.PassSnoc | driver.go:81-89 | visiting one more client is one more step, unless the process already stopped |
| Driver.PassHalts | driver.go:69-112 | once the process has stopped, no later client changes the registry or the exit |
| Driver.Driver.constructor | driver.go:22-39 | a new driver has an empty registry |
| Driver.Driver.GetDevice | driver.go:41-54 | the registry, the returned adapter and the error are those of GetOrCreate; the returned adapter is the one stored under the UDN; existing entries are kept |
| Driver.Driver.Store | driver.go:50 | stores the adapter or nil under a new UDN and keeps every other entry |
| Driver.Driver.Visit | driver.go:81-89 | one loop iteration leaves the registry and exit of VisitStep |
| Driver.Driver.Attach | driver.go:88-108 | attaching a client changes only its own adapter, as AttachTransport or AttachRendering say |
| Driver.Driver.VisitEach | driver.go:81-89 | the loop over one enumeration leaves the registry and exit of Pass, and keeps existing entries |
| Driver.Driver.Search | driver.go:69-112 | Search leaves the registry and exit of SearchPass, returns nil, and keeps existing entries |
| DriverProperties.GetOrCreateIdempotent | driver.go:41-54 | a second lookup of the same device changes nothing and returns the same entry with no error |
| DriverProperties.RefusedRegistrationStoresNil | driver.go:48-51 | a refused registration returns the error and stores nil under the UDN |
| DriverProperties.NilEntryNeverRetried | driver.go:44-53 | a stored nil is returned with no error and nothing is constructed again |
| DriverProperties.AcceptedRegistrationCreates | driver.go:48-51 | an accepted registration stores and returns a new adapter for the UDN with no error |
| DriverProperties.RefusedClientSkipped | driver.go:83-87 | a client whose device cannot be registered is skipped and the pass continues |
| DriverProperties.NilEntryPanics | driver.go:83-88 | a client of a device stored as nil panics the process |
| DriverProperties.RefusedRendererPanicsSamePass | driver.go:69-112 | a Search from an empty registry over one transport client and one rendering client of a device whose registration is refused panics, leaving nil stored for the device |
| DriverProperties.RefusedDeviceStopsSearch | driver.go:69-112 | a device offering both services whose registration is refused, and which holds no adapter beforehand, never lets a Search complete |
| DriverProperties.RefusedNeverAdapter | driver.go:41-54 | a pass never gives an adapter to a device whose registration is refused and which starts without one |
| DriverProperties.StepFacts | driver.go:81-89 | a step keeps every entry it is not about and never replaces nil by an adapter or an adapter by nil |
| DriverProperties.PassExtends | driver.go:81-89 | a pass only adds visited UDNs as keys and keeps nil entries nil and adapter entries adapters |
| DriverProperties.StepKeepsWellFormed | driver.go:81-89 | a step that does not stop the process keeps every adapter under the attach invariant and named by its UDN |
| DriverProperties.PassKeepsWellFormed | driver.go:81-109 | the same for a whole loop |
| DriverProperties.LastOfUnvisited | driver.go:81-89 | for the reference functions LastTransport and LastRendering: over clients that never name a device, the device's last handles are its earlier ones |
| DriverProperties.PassAttachesLatest | driver.go:81-89 | after a loop that completes, every adapter holds the last client found for it, or its earlier handle when none was found |
| DriverProperties.PassAppend | driver.go:69-112 | visiting two client lists in sequence is one pass over their concatenation |
| DriverProperties.SearchIsOnePass | driver.go:69-112 | a Search without enumeration failures is one pass over the transport clients followed by the rendering clients |
| DriverProperties.FailedEnumerationIsFatal | driver.go:71-75 | a failed transport enumeration stops the process with that error before any device is visited |
| DriverProperties.SearchExtends | driver.go:69-112 | a Search that completes keeps the registry well formed and only adds UDNs it found |
| DriverProperties.BothServicesShareAdapter | driver.go:69-112 | after a Search that completes, a device found through both services holds an adapter, not nil, and that one adapter holds the last transport and the last rendering client found for it |
| DriverProperties.BothFoundShareAdapter | driver.go:81-109 | the same over a pass of transport clients followed by rendering clients |
| DriverProperties.FoundInBothHasAdapter | driver.go:81-109 | a device visited in both halves of a pass that completes holds an adapter |
| DriverProperties.VisitedKnownHasAdapter | driver.go:83-88 | a device already in the registry and visited again by a pass that completes holds an adapter: a nil entry would have panicked |

## Left out

- The periodic search goroutine of `Start` (`driver.go:56-67`), with its one-minute sleep and its race on the unsynchronised map, is not modelled. A single call of `Search` is modelled, and a sequence of searches is a sequence of calls.
- The unsynchronised race between a handle being replaced (`device.go:75`, `device.go:89`) and a callback reading it (`device.go:96-123`) is not modelled. The model runs attaches and commands one after another.
- Network discovery (`NewAVTransport1Clients`, `NewRenderingControl1Clients`) is not modelled. Its results are inputs of type `Upnp.Enumeration`. Per-device enumeration errors are only logged, so they have no effect on the model.
- The SOAP calls of the UPnP client library and the platform SDK calls are oracles. The model records which call is issued and takes its outcome as a parameter. The module `Platform` is a stand-in for the SDK's media-player device (`CreateMediaPlayerDevice`, `EnableControlChannel`, `EnableVolumeChannel`), not a model of its code.
- Logging (`Infof`, `Warningf`, `spew.Dump`) is not modelled. `log.Fatalf` is the exit value `Fatal` and does not return.
- `NewDriver`'s `Init` and `Export` calls and the module-info loading are not modelled. The constructor models only the empty registry, because those calls belong to the platform SDK.
- URL values are represented by the strings `URL.String()` prints.
- The friendly-name fallback (`device.go:22-25`) computes a name that is never used: the device is registered with its id as name. The model does the same and keeps no fallback.
- The platform's callback fields are represented by the set of wired handlers, because a Go function value has no Dafny counterpart. A handler is the command function of the same adapter.
- The dispatch functions return the request they send, not the error the UPnP call returns. That error is forwarded unchanged in the source.
- Binary64.ToUint16: an out-of-range float-to-integer conversion is implementation-specific in Go, so the model gives it no value (None) rather than a particular 16-bit result.
- Binary64.Times100: a NaN or infinite level is not modelled, and a product past the float64 range is kept finite rather than becoming an infinity. Its conversion is out of range either way.
- Device.MediaPlayer.ApplyPlaylistJump, ApplyPlayPause, ApplyStop and ApplyVolume require the handle they use to be present. The platform calls them only through callbacks wired at the first attach, and `Device.WiredCallbacksHaveHandles` proves that a callback is wired exactly when its handle is present. A call on a nil handle is therefore not modelled.
