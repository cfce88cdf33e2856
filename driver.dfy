/** The driver of driver.go: a registry from UPnP unique device names (UDNs)
    to adapters, filled lazily by get-or-create, and the discovery pass that
    attaches every AVTransport client found and then every RenderingControl
    client found to the adapter of its root device. */
module Driver {
  import opened Wrappers
  import opened Process
  import opened Upnp
  import opened Platform
  import opened Device

  // ---------------------------------------------------------------------
  // The registry and the discovery pass on values
  // ---------------------------------------------------------------------

  /** The registry on values: each UDN maps to its adapter, or to None for the
      nil pointer stored when constructing the adapter failed. */
  type Registry = map<string, Option<PlayerView>>

  /** The result of a get-or-create: the new registry, and the pointer and
      error returned. */
  datatype Lookup = Lookup(registry: Registry, entry: Option<PlayerView>, err: Option<Error>)

  /** getDevice on values. A present key is returned as stored, with no error,
      whatever it holds; an absent key is constructed and the result stored
      under it even when construction failed. */
  function GetOrCreate(reg: Registry, d: Descriptor, answers: Answers): (r: Lookup)
    ensures r.registry.Keys == reg.Keys + {d.udn}
    ensures forall k :: k in reg ==> r.registry[k] == reg[k]
    ensures r.entry == r.registry[d.udn]
    ensures r.err.Some? ==> r.entry.None?
  {
    if d.udn in reg then
      Lookup(reg, reg[d.udn], None)
    else
      var err := Refusal(answers.createRefusals, d.udn);
      var entry := if err.Some? then None else Some(NewPlayerView(d.udn, d));
      Lookup(reg[d.udn := entry], entry, err)
  }

  /** A client found by a discovery pass. */
  datatype Found = FoundTransport(transport: TransportClient) | FoundRendering(rendering: RenderingClient)

  /** The description of the root device offering the found service. */
  function Root(f: Found): Descriptor
  {
    match f
    case FoundTransport(t) => t.root
    case FoundRendering(c) => c.root
  }

  /** The registry after a step or a pass, and whether the process still runs. */
  datatype Outcome = Outcome(registry: Registry, exit: Exit)

  /** One iteration of a discovery loop in Search: get-or-create the root
      device's adapter; skip the client if that returned an error; otherwise
      attach the client, which panics when the stored pointer is nil. */
  function VisitStep(reg: Registry, f: Found, answers: Answers): (r: Outcome)
    ensures r.registry.Keys == reg.Keys + {Root(f).udn}
    ensures r.exit == Panicked <==> Root(f).udn in reg && reg[Root(f).udn].None?
  {
    var id := Root(f).udn;
    var look := GetOrCreate(reg, Root(f), answers);
    if look.err.Some? then
      Outcome(look.registry, Running)
    else if look.entry.None? then
      Outcome(look.registry, Panicked)
    else
      var a := match f
        case FoundTransport(t) => AttachTransport(look.entry.value, t, Refusal(answers.controlRefusals, id))
        case FoundRendering(c) => AttachRendering(look.entry.value, c, Refusal(answers.volumeRefusals, id));
      Outcome(look.registry[id := Some(a.player)], a.exit)
  }

  /** Visits the found clients in order, stopping at the first step after which
      the process no longer runs. */
  function Pass(reg: Registry, fs: seq<Found>, answers: Answers): (r: Outcome)
    ensures reg.Keys <= r.registry.Keys
    decreases |fs|
  {
    if fs == [] then
      Outcome(reg, Running)
    else
      var o := Pass(reg, fs[..|fs| - 1], answers);
      if o.exit.Running? then VisitStep(o.registry, fs[|fs| - 1], answers) else o
  }

  function Transports(ts: seq<TransportClient>): (fs: seq<Found>)
    ensures |fs| == |ts| && forall i :: 0 <= i < |ts| ==> fs[i] == FoundTransport(ts[i])
  {
    seq(|ts|, i requires 0 <= i < |ts| => FoundTransport(ts[i]))
  }

  function Renderings(rs: seq<RenderingClient>): (fs: seq<Found>)
    ensures |fs| == |rs| && forall i :: 0 <= i < |rs| ==> fs[i] == FoundRendering(rs[i])
  {
    seq(|rs|, i requires 0 <= i < |rs| => FoundRendering(rs[i]))
  }

  /** Search on values: a failed enumeration is fatal; otherwise every transport
      client is visited, then every rendering client. */
  function SearchPass(reg: Registry, transports: Enumeration<TransportClient>,
                      renderings: Enumeration<RenderingClient>, answers: Answers): (r: Outcome)
    ensures transports.EnumerationFailed? ==> r == Outcome(reg, Fatal(transports.cause))
    ensures renderings.EnumerationFailed? ==> !r.exit.Running?
    ensures reg.Keys <= r.registry.Keys
  {
    if transports.EnumerationFailed? then
      Outcome(reg, Fatal(transports.cause))
    else
      var o := Pass(reg, Transports(transports.clients), answers);
      if !o.exit.Running? then o
      else if renderings.EnumerationFailed? then Outcome(o.registry, Fatal(renderings.cause))
      else Pass(o.registry, Renderings(renderings.clients), answers)
  }

  /** Pass over one more client is one more step, unless the process stopped. */
  lemma PassSnoc(reg: Registry, fs: seq<Found>, f: Found, answers: Answers)
    ensures Pass(reg, fs + [f], answers)
            == (var o := Pass(reg, fs, answers); if o.exit.Running? then VisitStep(o.registry, f, answers) else o)
  {
  }

  /** The prefix form of PassSnoc that the discovery loops use. */
  lemma PassNext(reg: Registry, fs: seq<Found>, i: nat, before: Registry, answers: Answers)
    requires i < |fs| && Pass(reg, fs[..i], answers) == Outcome(before, Running)
    ensures Pass(reg, fs[..i + 1], answers) == VisitStep(before, fs[i], answers)
  {
    assert fs[..i + 1] == fs[..i] + [fs[i]];
    PassSnoc(reg, fs[..i], fs[i], answers);
  }

  /** Once the process has stopped, the rest of the pass changes nothing. */
  lemma {:induction false} PassHalts(reg: Registry, fs: seq<Found>, n: nat, answers: Answers)
    requires n <= |fs|
    requires !Pass(reg, fs[..n], answers).exit.Running?
    ensures Pass(reg, fs, answers) == Pass(reg, fs[..n], answers)
    decreases |fs| - n
  {
    if n < |fs| {
      var m := |fs| - 1;
      assert fs[..m][..n] == fs[..n];
      PassHalts(reg, fs[..m], n, answers);
      assert fs == fs[..m] + [fs[m]];
      PassSnoc(reg, fs[..m], fs[m], answers);
    } else {
      assert fs[..n] == fs;
    }
  }

  // ---------------------------------------------------------------------
  // The driver object (driver.go:17-112)
  // ---------------------------------------------------------------------

  class Driver {
    var devices: map<string, MediaPlayer?>
    /** The driver and the adapters and platform players it holds. */
    ghost var Repr: set<object>

    /** NewDriver: the registry starts empty. */
    constructor ()
      ensures Valid() && fresh(Repr)
      ensures devices == map[] && View() == map[]
    {
      devices := map[];
      Repr := {this};
    }

    /** Every adapter and its platform player belong to Repr, and every adapter
        is registered under the UDN it is stored under, so distinct keys hold
        distinct adapters and distinct platform players. */
    ghost predicate Valid()
      reads this, Repr
    {
      && this in Repr
      && forall k | k in devices && devices[k] != null ::
           && devices[k] in Repr && devices[k].player in Repr
           && devices[k].player.info.naturalID == k
    }

    /** The registry as a value. */
    function View(): Registry
      reads this, Repr
      requires Valid()
    {
      map k | k in devices :: if devices[k] == null then None else Some(devices[k].View())
    }

    /** getDevice, keyed by the device's UDN. `answers` gives the platform's
        answer to the registration, should one be made. */
    method GetDevice(d: Descriptor, answers: Answers) returns (player: MediaPlayer?, err: Option<Error>)
      requires Valid()
      modifies this
      ensures Valid() && fresh(Repr - old(Repr))
      ensures var look := GetOrCreate(old(View()), d, answers);
              View() == look.registry && err == look.err
              && (if player == null then None else Some(player.View())) == look.entry
      ensures d.udn in devices && devices[d.udn] == player
      ensures devices.Keys == old(devices).Keys + {d.udn}
      ensures forall k :: k in old(devices) ==> devices[k] == old(devices[k])
    {
      var id := d.udn;
      if id in devices {
        player := devices[id];
        err := None;
      } else {
        ghost var before := View();
        player, err := NewMediaPlayer(id, d, Refusal(answers.createRefusals, id));
        ghost var entry := if player == null then None else Some(player.View());
        assert GetOrCreate(before, d, answers) == Lookup(before[id := entry], entry, err);
        Store(id, player);
      }
    }

    /** Stores the result of a construction under its UDN, nil included
        (the assignment of driver.go:50). */
    method Store(id: string, player: MediaPlayer?)
      requires Valid() && id !in devices
      requires player != null ==> player !in Repr && player.player !in Repr && player.player.info.naturalID == id
      modifies this
      ensures Valid()
      ensures Repr == old(Repr) + (if player == null then {} else {player, player.player})
      ensures devices == old(devices)[id := player]
      ensures View() == old(View())[id := if player == null then None else Some(player.View())]
    {
      devices := devices[id := player];
      if player != null {
        var p: MediaPlayer := player;
        Repr := Repr + {p, p.player};
      }
      forall k | k in devices
        ensures View()[k] == old(View())[id := if player == null then None else Some(player.View())][k]
      {
        if k != id && devices[k] != null {
          assert devices[k].View() == old(devices[k].View());
        }
      }
    }

    /** The body of either discovery loop of Search for one client. */
    method Visit(f: Found, answers: Answers) returns (exit: Exit)
      requires Valid()
      modifies Repr
      ensures Valid() && fresh(Repr - old(Repr))
      ensures Outcome(View(), exit) == VisitStep(old(View()), f, answers)
      ensures forall k :: k in old(devices) ==> k in devices && devices[k] == old(devices[k])
    {
      var device, err := GetDevice(Root(f), answers);
      if err.Some? {
        // logged as a warning; the client is skipped
        return Running;
      }
      if device == null {
        // Set*Client called on a nil *MediaPlayer dereferences it
        return Panicked;
      }
      exit := Attach(device, f, answers);
    }

    /** Hands the found client to the adapter stored under its UDN. */
    method Attach(device: MediaPlayer, f: Found, answers: Answers) returns (exit: Exit)
      requires Valid() && Root(f).udn in devices && devices[Root(f).udn] == device
      modifies device, device.player
      ensures Valid()
      ensures var id := Root(f).udn;
              var a := match f
                case FoundTransport(t) => AttachTransport(old(device.View()), t, Refusal(answers.controlRefusals, id))
                case FoundRendering(c) => AttachRendering(old(device.View()), c, Refusal(answers.volumeRefusals, id));
              Attached(device.View(), exit) == a
      ensures View() == old(View())[Root(f).udn := Some(device.View())]
    {
      var id := Root(f).udn;
      OthersDistinct(id);
      match f
      case FoundTransport(t) =>
        var _, e := device.SetTransportClient(t, Refusal(answers.controlRefusals, id));
        exit := e;
      case FoundRendering(c) =>
        var _, e := device.SetRenderingClient(c, Refusal(answers.volumeRefusals, id));
        exit := e;
    }

    /** The adapter under `id` shares no object with any other entry. */
    lemma OthersDistinct(id: string)
      requires Valid() && id in devices && devices[id] != null
      ensures forall k | k in devices && k != id && devices[k] != null ::
                devices[k] != devices[id] && devices[k].player != devices[id].player
    {
    }

    /** The loop of Search over one enumeration's clients, in order; it stops
        as soon as the process would. */
    method VisitEach(fs: seq<Found>, answers: Answers) returns (exit: Exit)
      requires Valid()
      modifies Repr
      ensures Valid() && fresh(Repr - old(Repr))
      ensures Outcome(View(), exit) == Pass(old(View()), fs, answers)
      ensures forall k :: k in old(devices) ==> k in devices && devices[k] == old(devices[k])
    {
      ghost var start := View();
      var i := 0;
      exit := Running;
      while i < |fs|
        invariant 0 <= i <= |fs|
        invariant exit == Running
        invariant Valid() && fresh(Repr - old(Repr))
        invariant Pass(start, fs[..i], answers) == Outcome(View(), Running)
        invariant forall k :: k in old(devices) ==> k in devices && devices[k] == old(devices[k])
      {
        PassNext(start, fs, i, View(), answers);
        exit := Visit(fs[i], answers);
        if !exit.Running? {
          PassHalts(start, fs, i + 1, answers);
          return;
        }
        i := i + 1;
      }
      assert fs[..i] == fs;
    }

    /** Search: one discovery pass over the two enumerations' results. A failed
        enumeration is fatal; per-device enumeration errors are only logged.
        It returns nil whenever it returns. */
    method Search(transports: Enumeration<TransportClient>, renderings: Enumeration<RenderingClient>,
                  answers: Answers)
      returns (err: Option<Error>, exit: Exit)
      requires Valid()
      modifies Repr
      ensures Valid() && fresh(Repr - old(Repr))
      ensures Outcome(View(), exit) == SearchPass(old(View()), transports, renderings, answers)
      ensures err == None
      ensures forall k :: k in old(devices) ==> k in devices && devices[k] == old(devices[k])
    {
      err := None;
      if transports.EnumerationFailed? {
        // log.Fatalf
        return None, Fatal(transports.cause);
      }
      exit := VisitEach(Transports(transports.clients), answers);
      if !exit.Running? {
        return;
      }
      if renderings.EnumerationFailed? {
        // log.Fatalf
        return None, Fatal(renderings.cause);
      }
      exit := VisitEach(Renderings(renderings.clients), answers);
    }
  }
}
