/** The device adapter of device.go: one MediaPlayer per physical media
    renderer. It registers the renderer with the platform under a signature
    map built from the UPnP description, wires command callbacks and enables a
    capability channel the first time each kind of service handle is attached,
    and turns platform commands into UPnP control actions. */
module Device {
  import opened Wrappers
  import opened Process
  import opened Upnp
  import opened Platform
  import Binary64

  // ---------------------------------------------------------------------
  // Signatures (device.go:27-46)
  // ---------------------------------------------------------------------

  const ThingTypeKey := "ninja:thingType"

  /** Every key the signature map can hold. */
  const SignatureKeys: set<string> := {
    "upnp:deviceType", "upnp:friendlyName", "upnp:manufacturer",
    "upnp:manufacturerURL", "upnp:modelDescription", "upnp:modelName",
    "upnp:modelNumber", "upnp:modelURL", "upnp:serialNumber", "upnp:UDN",
    "upnp:UPC", ThingTypeKey }

  /** The signature map as first built, before empty values are dropped. */
  function SignatureLiteral(d: Descriptor): (literal: map<string, string>)
    ensures literal.Keys == SignatureKeys
    ensures literal[ThingTypeKey] == "mediaplayer"
  {
    map[
      "upnp:deviceType" := d.deviceType,
      "upnp:friendlyName" := d.friendlyName,
      "upnp:manufacturer" := d.manufacturer,
      "upnp:manufacturerURL" := d.manufacturerURL,
      "upnp:modelDescription" := d.modelDescription,
      "upnp:modelName" := d.modelName,
      "upnp:modelNumber" := d.modelNumber,
      "upnp:modelURL" := d.modelURL,
      "upnp:serialNumber" := d.serialNumber,
      "upnp:UDN" := d.udn,
      "upnp:UPC" := d.upc,
      ThingTypeKey := "mediaplayer"]
  }

  /** `key` is present in `s` exactly when `value` is non-empty, and then maps to it. */
  predicate Carries(s: map<string, string>, key: string, value: string)
  {
    (key in s <==> value != "") && (key in s ==> s[key] == value)
  }

  /** The signature map a device is registered with: the fixed map with every
      empty value dropped. It always names the thing type. */
  function Signatures(d: Descriptor): (s: map<string, string>)
    ensures forall k :: k in s ==> s[k] != ""
    ensures ThingTypeKey in s && s[ThingTypeKey] == "mediaplayer"
  {
    var literal := SignatureLiteral(d);
    map k | k in literal && literal[k] != "" :: literal[k]
  }

  /** The signature map holds nothing but the fixed keys. */
  lemma SignaturesOnlyFixedKeys(d: Descriptor)
    ensures Signatures(d).Keys <= SignatureKeys
  {
  }

  /** Each non-empty type field of the description appears under its key,
      unchanged; an empty one does not appear. */
  lemma SignaturesCarryTypeFields(d: Descriptor)
    ensures var s := Signatures(d);
            && Carries(s, "upnp:deviceType", d.deviceType)
            && Carries(s, "upnp:friendlyName", d.friendlyName)
            && Carries(s, "upnp:manufacturer", d.manufacturer)
            && Carries(s, "upnp:manufacturerURL", d.manufacturerURL)
  {
  }

  /** The same for the model fields. */
  lemma SignaturesCarryModelFields(d: Descriptor)
    ensures var s := Signatures(d);
            && Carries(s, "upnp:modelDescription", d.modelDescription)
            && Carries(s, "upnp:modelName", d.modelName)
            && Carries(s, "upnp:modelNumber", d.modelNumber)
            && Carries(s, "upnp:modelURL", d.modelURL)
  {
  }

  /** The same for the identity fields. */
  lemma SignaturesCarryIdentityFields(d: Descriptor)
    ensures var s := Signatures(d);
            && Carries(s, "upnp:serialNumber", d.serialNumber)
            && Carries(s, "upnp:UDN", d.udn)
            && Carries(s, "upnp:UPC", d.upc)
  {
  }

  /** Builds the signature map and deletes every entry whose value is empty,
      one key at a time, as the range loop of device.go:42-46 does. */
  method BuildSignatures(d: Descriptor) returns (signatures: map<string, string>)
    ensures signatures == Signatures(d)
  {
    signatures := SignatureLiteral(d);
    ghost var literal := signatures;
    var pending := signatures.Keys;
    while pending != {}
      invariant pending <= literal.Keys
      invariant forall k :: k in signatures <==> k in literal && (k in pending || literal[k] != "")
      invariant forall k :: k in signatures ==> signatures[k] == literal[k]
      decreases pending
    {
      var name :| name in pending;
      if signatures[name] == "" {
        signatures := signatures - {name};
      }
      pending := pending - {name};
    }
  }

  /** The record a device is registered with. Its name is the id, not the
      friendly name: the fallback name computed at device.go:22-25 is never read. */
  function Registration(id: string, d: Descriptor): (info: DeviceInfo)
    ensures info.naturalID == id && info.name == id && info.naturalIDType == "upnp"
    ensures ThingTypeKey in info.signatures && info.signatures[ThingTypeKey] == "mediaplayer"
    ensures forall k :: k in info.signatures ==> info.signatures[k] != ""
  {
    DeviceInfo(id, "upnp", id, Signatures(d))
  }

  // ---------------------------------------------------------------------
  // Attach state machine (device.go:64-92), as a function on values
  // ---------------------------------------------------------------------

  const PlayingStates: seq<string> := ["playing", "paused", "stopped"]
  const ControlRequest := ControlChannel(PlayingStates)
  const VolumeRequest := VolumeChannel(true)
  const TransportHandlers: set<Handler> := {OnPlayPause, OnStop, OnPlaylistJump}
  const RenderingHandlers: set<Handler> := {OnVolume}

  /** What can be observed of one adapter: the record its platform player was
      registered with, its two handle slots, the callbacks wired into its
      platform player and the channel-enable requests made on it. */
  datatype PlayerView = PlayerView(
    info: DeviceInfo,
    transport: Option<TransportClient>,
    rendering: Option<RenderingClient>,
    handlers: set<Handler>,
    requests: seq<ChannelRequest>)

  /** The adapter a successful NewMediaPlayer returns. */
  function NewPlayerView(id: string, d: Descriptor): PlayerView
  {
    PlayerView(Registration(id, d), None, None, {}, [])
  }

  /** The state-machine invariant: the transport callbacks are wired and the
      control channel has been requested exactly when a transport handle is
      present, and likewise the volume callback and channel for a rendering
      handle. */
  predicate Consistent(v: PlayerView)
  {
    && v.handlers == (if v.transport.Some? then TransportHandlers else {})
                     + (if v.rendering.Some? then RenderingHandlers else {})
    && multiset(v.requests) == (if v.transport.Some? then multiset{ControlRequest} else multiset{})
                               + (if v.rendering.Some? then multiset{VolumeRequest} else multiset{})
  }

  /** An adapter after an attach call, and whether the process is still running. */
  datatype Attached = Attached(player: PlayerView, exit: Exit)

  /** SetTransportClient on values. Only the absent-to-present transition wires
      the callbacks and asks for the control channel; a refusal is fatal before
      the handle is stored. A present handle is simply replaced. */
  function AttachTransport(v: PlayerView, client: TransportClient, answer: Option<Error>): (r: Attached)
    ensures r.player.info == v.info && r.player.rendering == v.rendering
    ensures r.exit.Running? ==> r.player.transport == Some(client)
    ensures !r.exit.Running? <==> v.transport.None? && answer.Some?
    ensures !r.exit.Running? ==> r.exit == Fatal(answer.value) && r.player.transport == None
    ensures v.transport.Some? ==> r.player.handlers == v.handlers && r.player.requests == v.requests
    ensures v.transport.None? ==>
              r.player.handlers == v.handlers + TransportHandlers
              && r.player.requests == v.requests + [ControlRequest]
  {
    if v.transport.Some? then
      Attached(v.(transport := Some(client)), Running)
    else
      var wired := v.(handlers := v.handlers + TransportHandlers,
                      requests := v.requests + [ControlRequest]);
      if answer.Some? then Attached(wired, Fatal(answer.value))
      else Attached(wired.(transport := Some(client)), Running)
  }

  /** SetRenderingClient on values: the same gate for the volume callback and channel. */
  function AttachRendering(v: PlayerView, client: RenderingClient, answer: Option<Error>): (r: Attached)
    ensures r.player.info == v.info && r.player.transport == v.transport
    ensures r.exit.Running? ==> r.player.rendering == Some(client)
    ensures !r.exit.Running? <==> v.rendering.None? && answer.Some?
    ensures !r.exit.Running? ==> r.exit == Fatal(answer.value) && r.player.rendering == None
    ensures v.rendering.Some? ==> r.player.handlers == v.handlers && r.player.requests == v.requests
    ensures v.rendering.None? ==>
              r.player.handlers == v.handlers + RenderingHandlers
              && r.player.requests == v.requests + [VolumeRequest]
  {
    if v.rendering.Some? then
      Attached(v.(rendering := Some(client)), Running)
    else
      var wired := v.(handlers := v.handlers + RenderingHandlers,
                      requests := v.requests + [VolumeRequest]);
      if answer.Some? then Attached(wired, Fatal(answer.value))
      else Attached(wired.(rendering := Some(client)), Running)
  }

  /** A new adapter has no handles, no callbacks and no channel requests. */
  lemma NewPlayerConsistent(id: string, d: Descriptor)
    ensures Consistent(NewPlayerView(id, d))
    ensures NewPlayerView(id, d).info.name == id
  {
  }

  /** Under the invariant, each channel has been requested at most once, and
      exactly once when its handle is present. */
  lemma ChannelsRequestedOnce(v: PlayerView)
    requires Consistent(v)
    ensures multiset(v.requests)[ControlRequest] == if v.transport.Some? then 1 else 0
    ensures multiset(v.requests)[VolumeRequest] == if v.rendering.Some? then 1 else 0
    ensures |v.requests| <= 2
  {
  }

  /** Successful attaches keep the invariant. */
  lemma AttachKeepsConsistent(v: PlayerView, t: TransportClient, r: RenderingClient, answer: Option<Error>)
    requires Consistent(v)
    ensures AttachTransport(v, t, answer).exit.Running? ==> Consistent(AttachTransport(v, t, answer).player)
    ensures AttachRendering(v, r, answer).exit.Running? ==> Consistent(AttachRendering(v, r, answer).player)
  {
  }

  /** Once a handle is present, a further attach only replaces it: nothing is
      wired or requested again, whatever the platform would answer. */
  lemma ReattachOnlyReplaces(v: PlayerView, t1: TransportClient, t2: TransportClient,
                             r1: RenderingClient, r2: RenderingClient,
                             a1: Option<Error>, a2: Option<Error>)
    ensures var s := AttachTransport(v, t1, a1);
            s.exit.Running? ==> AttachTransport(s.player, t2, a2) == Attached(s.player.(transport := Some(t2)), Running)
    ensures var s := AttachRendering(v, r1, a1);
            s.exit.Running? ==> AttachRendering(s.player, r2, a2) == Attached(s.player.(rendering := Some(r2)), Running)
  {
  }

  /** A command callback is only ever wired while the handle it uses is present. */
  lemma WiredCallbacksHaveHandles(v: PlayerView)
    requires Consistent(v)
    ensures (OnPlayPause in v.handlers || OnStop in v.handlers || OnPlaylistJump in v.handlers)
            <==> v.transport.Some?
    ensures OnVolume in v.handlers <==> v.rendering.Some?
  {
  }

  // ---------------------------------------------------------------------
  // The adapter object (device.go:12-92)
  // ---------------------------------------------------------------------

  class MediaPlayer {
    const player: PlatformPlayer
    var transport: Option<TransportClient>
    var rendering: Option<RenderingClient>

    constructor (player: PlatformPlayer)
      ensures this.player == player && transport == None && rendering == None
    {
      this.player := player;
      transport := None;
      rendering := None;
    }

    function View(): PlayerView
      reads this, player
    {
      PlayerView(player.info, transport, rendering, player.handlers, player.requests)
    }

    /** Attaches an AVTransport handle. `answer` is the platform's answer to the
        control-channel request, used only on the first attach. The Go method
        always returns nil; on a refusal it stops the process instead. */
    method SetTransportClient(client: TransportClient, answer: Option<Error>)
      returns (err: Option<Error>, exit: Exit)
      modifies this, player
      ensures Attached(View(), exit) == AttachTransport(old(View()), client, answer)
      ensures err == None
    {
      err := None;
      if transport.None? {
        player.handlers := player.handlers + {OnPlayPause, OnStop, OnPlaylistJump};
        var e := player.EnableControlChannel(PlayingStates, answer);
        if e.Some? {
          // log.Fatalf: the process stops before the handle is stored
          return None, Fatal(e.value);
        }
      }
      transport := Some(client);
      exit := Running;
    }

    /** Attaches a RenderingControl handle; the first attach wires the volume
        callback and asks for the volume channel (with mute support). */
    method SetRenderingClient(client: RenderingClient, answer: Option<Error>)
      returns (err: Option<Error>, exit: Exit)
      modifies this, player
      ensures Attached(View(), exit) == AttachRendering(old(View()), client, answer)
      ensures err == None
    {
      err := None;
      if rendering.None? {
        player.handlers := player.handlers + {OnVolume};
        var e := player.EnableVolumeChannel(true, answer);
        if e.Some? {
          // log.Fatalf: the process stops before the handle is stored
          return None, Fatal(e.value);
        }
      }
      rendering := Some(client);
      exit := Running;
    }

    // The command callbacks read the handle the adapter holds when the
    // command arrives, so a replaced handle takes over at once. They are
    // wired only once that handle is present (WiredCallbacksHaveHandles).

    /** applyPlaylistJump. */
    method ApplyPlaylistJump(delta: int) returns (request: Request<TransportClient, TransportAction>)
      requires transport.Some?
      ensures request == PlaylistJumpRequest(transport.value, delta)
    {
      request := PlaylistJumpRequest(transport.value, delta);
    }

    /** applyPlayPause. */
    method ApplyPlayPause(play: bool) returns (request: Request<TransportClient, TransportAction>)
      requires transport.Some?
      ensures request == PlayPauseRequest(transport.value, play)
    {
      request := PlayPauseRequest(transport.value, play);
    }

    /** applyStop. */
    method ApplyStop() returns (request: Request<TransportClient, TransportAction>)
      requires transport.Some?
      ensures request == StopRequest(transport.value)
    {
      request := StopRequest(transport.value);
    }

    /** applyVolume: SetMute when a mute flag is given, then SetVolume with
        uint16(level * 100.00) when a level is given, both on the Master
        channel of instance 0 of the current rendering handle. `muteAnswer`
        and `volumeAnswer` are what those calls return. The SetMute error
        wins; a SetVolume error is returned only when SetMute was not issued
        or succeeded. */
    method ApplyVolume(state: VolumeState, muteAnswer: Option<Error>, volumeAnswer: Option<Error>)
      returns (sent: seq<Request<RenderingClient, RenderingAction>>, err: Option<Error>)
      requires rendering.Some?
      ensures |sent| == (if state.muted.Some? then 1 else 0) + (if state.level.Some? then 1 else 0)
      ensures state.muted.Some? ==> sent[0] == Request(rendering.value, SetMute(0, "Master", state.muted.value))
      ensures state.level.Some? ==>
                sent[|sent| - 1] == Request(rendering.value, SetVolume(0, "Master", Binary64.Percent(state.level.value)))
      ensures err.None? <==> (state.muted.None? || muteAnswer.None?) && (state.level.None? || volumeAnswer.None?)
      ensures state.muted.Some? && muteAnswer.Some? ==> err == muteAnswer
      ensures (state.muted.None? || muteAnswer.None?) && state.level.Some? ==> err == volumeAnswer
    {
      var client := rendering.value;
      sent := [];
      err := None;
      if state.muted.Some? {
        sent := sent + [Request(client, SetMute(0, "Master", state.muted.value))];
        var err1 := muteAnswer;
        if err1.Some? {
          err := err1;
        }
      }
      if state.level.Some? {
        sent := sent + [Request(client, SetVolume(0, "Master", Binary64.Percent(state.level.value)))];
        var err2 := volumeAnswer;
        if err.None? && err2.Some? {
          err := err2;
        }
      }
    }
  }

  /** NewMediaPlayer: builds the signature map and registers a player whose
      natural id and name are both `id`. `answer` is the platform's answer to the
      registration; a refusal is returned as the error, with no adapter. */
  method NewMediaPlayer(id: string, d: Descriptor, answer: Option<Error>)
    returns (m: MediaPlayer?, err: Option<Error>)
    ensures err == answer
    ensures m == null <==> answer.Some?
    ensures m != null ==> fresh(m) && fresh(m.player)
    ensures m != null ==> m.player.info.naturalID == id && m.player.info.naturalIDType == "upnp"
                          && m.player.info.name == id && m.player.info.signatures == Signatures(d)
    ensures m != null ==> m.View() == NewPlayerView(id, d)
  {
    var signatures := BuildSignatures(d);
    var player, e := CreateMediaPlayerDevice(DeviceInfo(id, "upnp", id, signatures), answer);
    if e.Some? {
      return null, e;
    }
    m := new MediaPlayer(player);
    err := None;
  }

  // ---------------------------------------------------------------------
  // Command dispatch (device.go:94-130)
  // ---------------------------------------------------------------------

  /** The request applyPlaylistJump sends through a transport handle: one step
      forward for a positive delta, otherwise one step back, zero included. */
  function PlaylistJumpRequest(client: TransportClient, delta: int): (r: Request<TransportClient, TransportAction>)
    ensures r.target == client
    ensures r.action == Next(0) <==> delta > 0
    ensures r.action == Previous(0) <==> delta <= 0
  {
    if delta > 0 then Request(client, Next(0)) else Request(client, Previous(0))
  }

  /** The request applyPlayPause sends: Play at normal speed ("1") when asked
      to play, Pause otherwise. */
  function PlayPauseRequest(client: TransportClient, play: bool): (r: Request<TransportClient, TransportAction>)
    ensures r.target == client
    ensures r.action == Play(0, "1") <==> play
    ensures r.action == Pause(0) <==> !play
  {
    if play then Request(client, Play(0, "1")) else Request(client, Pause(0))
  }

  /** The request applyStop sends: always Stop on instance 0. */
  function StopRequest(client: TransportClient): (r: Request<TransportClient, TransportAction>)
    ensures r.target == client && r.action.Stop? && r.action.instanceID == 0
  {
    Request(client, Stop(0))
  }

  /** A volume command: an optional mute flag and an optional level, a
      float64 where 1.0 is full volume. */
  datatype VolumeState = VolumeState(muted: Option<bool>, level: Option<Binary64.Float64>)
}
