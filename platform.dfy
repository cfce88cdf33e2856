/** The parts of the home-automation SDK that the driver touches: the device
    record it registers, the platform-side media-player object whose callback
    slots it fills and whose capability channels it enables, and the answers
    the platform gives to those requests. The SDK's message bus is not modelled. */
module Platform {
  import opened Wrappers
  import opened Process

  /** The record a device is registered with (model.Device). */
  datatype DeviceInfo = DeviceInfo(
    naturalID: string,
    naturalIDType: string,
    name: string,
    signatures: map<string, string>)

  /** The command callback slots of a platform-side media player (ApplyPlayPause, ApplyStop, ApplyPlaylistJump, ApplyVolume). */
  datatype Handler = OnPlayPause | OnStop | OnPlaylistJump | OnVolume

  /** A request to enable a capability channel on the platform. */
  datatype ChannelRequest =
    | ControlChannel(states: seq<string>)
    | VolumeChannel(supportsMute: bool)

  /** How the platform answers this driver's requests, keyed by device id: the
      ids whose registration it refuses and those for which it refuses to
      enable the control or the volume channel, each with the error returned. */
  datatype Answers = Answers(
    createRefusals: map<string, Error>,
    controlRefusals: map<string, Error>,
    volumeRefusals: map<string, Error>)

  /** The error the platform answers for `id` under `refusals`, if any. */
  function Refusal(refusals: map<string, Error>, id: string): (r: Option<Error>)
    ensures r.Some? <==> id in refusals
    ensures r.Some? ==> r.value == refusals[id]
  {
    if id in refusals then Some(refusals[id]) else None
  }

  /** The platform-side media player (devices.MediaPlayerDevice): the record it
      was registered with, the callbacks wired into it, and every channel-enable
      request made on it, in order. */
  class PlatformPlayer {
    const info: DeviceInfo
    var handlers: set<Handler>
    var requests: seq<ChannelRequest>

    constructor (info: DeviceInfo)
      ensures this.info == info && handlers == {} && requests == []
    {
      this.info := info;
      handlers := {};
      requests := [];
    }

    /** EnableControlChannel: records the request and returns the platform's answer. */
    method EnableControlChannel(states: seq<string>, answer: Option<Error>) returns (err: Option<Error>)
      modifies this
      ensures requests == old(requests) + [ControlChannel(states)]
      ensures handlers == old(handlers)
      ensures err == answer
    {
      requests := requests + [ControlChannel(states)];
      err := answer;
    }

    /** EnableVolumeChannel: records the request and returns the platform's answer. */
    method EnableVolumeChannel(supportsMute: bool, answer: Option<Error>) returns (err: Option<Error>)
      modifies this
      ensures requests == old(requests) + [VolumeChannel(supportsMute)]
      ensures handlers == old(handlers)
      ensures err == answer
    {
      requests := requests + [VolumeChannel(supportsMute)];
      err := answer;
    }
  }

  /** CreateMediaPlayerDevice: registers `info` with the platform. On a refusal
      no player is returned; otherwise a fresh player with no callbacks and no
      channel requests. */
  method CreateMediaPlayerDevice(info: DeviceInfo, answer: Option<Error>)
    returns (player: PlatformPlayer?, err: Option<Error>)
    ensures err == answer
    ensures player == null <==> answer.Some?
    ensures player != null ==> fresh(player) && player.info == info
    ensures player != null ==> player.handlers == {} && player.requests == []
  {
    err := answer;
    if answer.Some? {
      player := null;
    } else {
      player := new PlatformPlayer(info);
    }
  }
}
