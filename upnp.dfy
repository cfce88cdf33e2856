/** The parts of the UPnP control-point library that the driver touches:
    device descriptions, service clients and the control actions it issues.
    The library itself (SSDP discovery, SOAP over HTTP) is not modelled. */
module Upnp {
  import opened Wrappers
  import opened Process

  /** The fields of a UPnP device description (goupnp.Device) that the driver reads.
      The two URL fields are held as the strings their URL values print as. */
  datatype Descriptor = Descriptor(
    deviceType: string,
    friendlyName: string,
    manufacturer: string,
    manufacturerURL: string,
    modelDescription: string,
    modelName: string,
    modelNumber: string,
    modelURL: string,
    serialNumber: string,
    udn: string,
    upc: string)

  /** A client of one AVTransport:1 service; `root` is the description of the
      root device that offers it. */
  datatype TransportClient = TransportClient(location: string, root: Descriptor)

  /** A client of one RenderingControl:1 service. */
  datatype RenderingClient = RenderingClient(location: string, root: Descriptor)

  /** The AVTransport:1 actions the driver issues. */
  datatype TransportAction =
    | Play(instanceID: nat, speed: string)
    | Pause(instanceID: nat)
    | Stop(instanceID: nat)
    | Next(instanceID: nat)
    | Previous(instanceID: nat)

  /** The RenderingControl:1 actions the driver issues. The desired volume of
      SetVolume is a 16-bit value; None stands for a float-to-integer
      conversion whose result the Go language leaves to the implementation. */
  datatype RenderingAction =
    | SetMute(instanceID: nat, channel: string, desiredMute: bool)
    | SetVolume(instanceID: nat, channel: string, desiredVolume: Option<nat>)

  /** One action sent to one service client. */
  datatype Request<C, A> = Request(target: C, action: A)

  /** The result of enumerating the clients of one service type on the network:
      the clients found and the per-device errors met on the way, or a failure
      of the enumeration itself. */
  datatype Enumeration<C> =
    | Enumerated(clients: seq<C>, errors: seq<Error>)
    | EnumerationFailed(cause: Error)
}
