/** Properties of the registry and of discovery passes, stated on the value
    model of driver.go that Driver.Driver.Search is proved against. */
module DriverProperties {
  import opened Wrappers
  import opened Process
  import opened Upnp
  import opened Platform
  import opened Device
  import opened Driver

  // ---------------------------------------------------------------------
  // get-or-create (driver.go:41-54)
  // ---------------------------------------------------------------------

  /** A second lookup of the same device constructs nothing and returns what the
      first one stored, whatever the platform would answer now. */
  lemma GetOrCreateIdempotent(reg: Registry, d: Descriptor, first: Answers, second: Answers)
    ensures var r := GetOrCreate(reg, d, first);
            GetOrCreate(r.registry, d, second) == Lookup(r.registry, r.entry, None)
  {
  }

  /** A refused registration is returned as the error and leaves nil stored
      under the UDN. */
  lemma RefusedRegistrationStoresNil(reg: Registry, d: Descriptor, answers: Answers)
    requires d.udn !in reg && d.udn in answers.createRefusals
    ensures GetOrCreate(reg, d, answers)
            == Lookup(reg[d.udn := None], None, Some(answers.createRefusals[d.udn]))
  {
  }

  /** A UDN whose construction failed is never constructed again: every later
      lookup returns nil with no error, whatever the platform would answer. */
  lemma NilEntryNeverRetried(reg: Registry, d: Descriptor, answers: Answers)
    requires d.udn in reg && reg[d.udn].None?
    ensures GetOrCreate(reg, d, answers) == Lookup(reg, None, None)
  {
  }

  /** A lookup of a new UDN that the platform accepts yields a fresh adapter
      registered under that UDN. */
  lemma AcceptedRegistrationCreates(reg: Registry, d: Descriptor, answers: Answers)
    requires d.udn !in reg && d.udn !in answers.createRefusals
    ensures var r := GetOrCreate(reg, d, answers);
            r.err == None && r.entry == Some(NewPlayerView(d.udn, d))
            && r.entry.value.info.naturalID == d.udn && r.entry.value.info.name == d.udn
            && r.entry.value.transport.None? && r.entry.value.rendering.None?
  {
  }

  // ---------------------------------------------------------------------
  // One step of a discovery loop (driver.go:81-89, 101-109)
  // ---------------------------------------------------------------------

  /** A client whose device cannot be registered is skipped: the pass goes on. */
  lemma RefusedClientSkipped(reg: Registry, f: Found, answers: Answers)
    requires Root(f).udn !in reg && Root(f).udn in answers.createRefusals
    ensures VisitStep(reg, f, answers) == Outcome(reg[Root(f).udn := None], Running)
  {
  }

  /** A client of a device whose construction failed earlier reaches a nil
      adapter: the attach dereferences it and the process panics. */
  lemma NilEntryPanics(reg: Registry, f: Found, answers: Answers)
    requires Root(f).udn in reg && reg[Root(f).udn].None?
    ensures VisitStep(reg, f, answers) == Outcome(reg, Panicked)
  {
  }

  /** The common case of a renderer offering both services whose registration
      fails: the transport loop skips it, and the rendering loop of the same
      pass then panics on the nil stored for it. */
  lemma RefusedRendererPanicsSamePass(t: TransportClient, c: RenderingClient, answers: Answers)
    requires t.root.udn == c.root.udn && t.root.udn in answers.createRefusals
    ensures SearchPass(map[], Enumerated([t], []), Enumerated([c], []), answers)
            == Outcome(map[t.root.udn := None], Panicked)
  {
    var u := t.root.udn;
    assert Transports([t]) == [FoundTransport(t)];
    assert Renderings([c]) == [FoundRendering(c)];
    PassSnoc(map[], [], FoundTransport(t), answers);
    PassSnoc(map[u := None], [], FoundRendering(c), answers);
  }

  // ---------------------------------------------------------------------
  // Passes
  // ---------------------------------------------------------------------

  /** `after` keeps every key of `before`; nil stays nil, and an adapter stays
      an adapter with the same registration. */
  ghost predicate Extends(before: Registry, after: Registry)
  {
    forall k :: k in before ==>
      && k in after
      && (before[k].None? <==> after[k].None?)
      && (before[k].Some? ==> after[k].value.info == before[k].value.info)
  }

  /** Every adapter in the registry keeps the attach invariant and is
      registered under the UDN it is stored under. */
  ghost predicate WellFormed(reg: Registry)
  {
    forall k :: k in reg && reg[k].Some? ==> Consistent(reg[k].value) && reg[k].value.info.naturalID == k
  }

  /** The UDNs of the found clients. */
  ghost function Udns(fs: seq<Found>): set<string>
  {
    set i | 0 <= i < |fs| :: Root(fs[i]).udn
  }

  /** A step keeps every entry it is not about, and extends the registry. */
  lemma StepFacts(reg: Registry, f: Found, answers: Answers)
    ensures var o := VisitStep(reg, f, answers);
            && o.registry.Keys == reg.Keys + {Root(f).udn}
            && Extends(reg, o.registry)
            && (forall k :: k in reg && k != Root(f).udn ==> o.registry[k] == reg[k])
  {
  }

  /** A pass never loses a key, never replaces nil by an adapter nor an adapter
      by nil or by another registration, and adds only the UDNs it visits; a
      pass that completes adds all of them. */
  lemma {:induction false} PassExtends(reg: Registry, fs: seq<Found>, answers: Answers)
    ensures var o := Pass(reg, fs, answers);
            && Extends(reg, o.registry)
            && o.registry.Keys <= reg.Keys + Udns(fs)
            && (o.exit.Running? ==> o.registry.Keys == reg.Keys + Udns(fs))
    decreases |fs|
  {
    if fs != [] {
      var init := fs[..|fs| - 1];
      var f := fs[|fs| - 1];
      PassExtends(reg, init, answers);
      var o := Pass(reg, init, answers);
      assert Udns(fs) == Udns(init) + {Root(f).udn} by {
        assert forall i :: 0 <= i < |init| ==> init[i] == fs[i];
      }
      if o.exit.Running? {
        StepFacts(o.registry, f, answers);
      }
    }
  }

  /** A step keeps the registry well formed while the process runs. */
  lemma StepKeepsWellFormed(reg: Registry, f: Found, answers: Answers)
    requires WellFormed(reg)
    ensures var o := VisitStep(reg, f, answers);
            o.exit.Running? ==> WellFormed(o.registry)
  {
    var id := Root(f).udn;
    var look := GetOrCreate(reg, Root(f), answers);
    if look.err.None? && look.entry.Some? {
      var v := look.entry.value;
      if id !in reg {
        NewPlayerConsistent(id, Root(f));
      }
      assert Consistent(v) && v.info.naturalID == id;
      match f
      case FoundTransport(t) =>
        AttachKeepsConsistent(v, t, RenderingClient("", Root(f)), Refusal(answers.controlRefusals, id));
      case FoundRendering(c) =>
        AttachKeepsConsistent(v, TransportClient("", Root(f)), c, Refusal(answers.volumeRefusals, id));
    }
  }

  /** A pass that completes keeps the registry well formed: every adapter has
      wired its callbacks and requested each channel exactly when, and exactly
      once since, it first received the matching handle. */
  lemma {:induction false} PassKeepsWellFormed(reg: Registry, fs: seq<Found>, answers: Answers)
    requires WellFormed(reg)
    ensures Pass(reg, fs, answers).exit.Running? ==> WellFormed(Pass(reg, fs, answers).registry)
    decreases |fs|
  {
    if fs != [] {
      var init := fs[..|fs| - 1];
      PassKeepsWellFormed(reg, init, answers);
      var o := Pass(reg, init, answers);
      if o.exit.Running? {
        StepKeepsWellFormed(o.registry, fs[|fs| - 1], answers);
      }
    }
  }

  /** The transport handle a device should hold after visiting `fs`: that of
      the last transport client found for it, or `initial` if there is none. */
  function LastTransport(fs: seq<Found>, u: string, initial: Option<TransportClient>): Option<TransportClient>
    decreases |fs|
  {
    if fs == [] then initial
    else
      var f := fs[|fs| - 1];
      if f.FoundTransport? && f.transport.root.udn == u then Some(f.transport)
      else LastTransport(fs[..|fs| - 1], u, initial)
  }

  /** The same for the rendering handle. */
  function LastRendering(fs: seq<Found>, u: string, initial: Option<RenderingClient>): Option<RenderingClient>
    decreases |fs|
  {
    if fs == [] then initial
    else
      var f := fs[|fs| - 1];
      if f.FoundRendering? && f.rendering.root.udn == u then Some(f.rendering)
      else LastRendering(fs[..|fs| - 1], u, initial)
  }

  /** The handles stored for `u` before a pass. */
  function TransportOf(reg: Registry, u: string): Option<TransportClient>
  {
    if u in reg && reg[u].Some? then reg[u].value.transport else None
  }

  function RenderingOf(reg: Registry, u: string): Option<RenderingClient>
  {
    if u in reg && reg[u].Some? then reg[u].value.rendering else None
  }

  /** With no client found for `u`, its handles stay as they were. */
  lemma {:induction false} LastOfUnvisited(fs: seq<Found>, u: string, t: Option<TransportClient>, r: Option<RenderingClient>)
    requires u !in Udns(fs)
    ensures LastTransport(fs, u, t) == t && LastRendering(fs, u, r) == r
    decreases |fs|
  {
    if fs != [] {
      var init := fs[..|fs| - 1];
      assert Udns(init) <= Udns(fs) by {
        assert forall i :: 0 <= i < |init| ==> init[i] == fs[i];
      }
      assert Root(fs[|fs| - 1]).udn in Udns(fs);
      LastOfUnvisited(init, u, t, r);
    }
  }

  /** After a pass that completes, every device that has an adapter holds the
      handles of the last transport client and the last rendering client found
      for it, or the handles it held before where none was found. Devices whose
      registration failed do not keep the others from being attached. */
  lemma {:induction false} PassAttachesLatest(reg: Registry, fs: seq<Found>, answers: Answers, u: string)
    requires var o := Pass(reg, fs, answers);
             o.exit.Running? && u in o.registry && o.registry[u].Some?
    ensures var v := Pass(reg, fs, answers).registry[u].value;
            && v.transport == LastTransport(fs, u, TransportOf(reg, u))
            && v.rendering == LastRendering(fs, u, RenderingOf(reg, u))
    decreases |fs|
  {
    if fs != [] {
      var init := fs[..|fs| - 1];
      var f := fs[|fs| - 1];
      var o := Pass(reg, init, answers);
      assert o.exit.Running?;
      var look := GetOrCreate(o.registry, Root(f), answers);
      if Root(f).udn != u {
        StepFacts(o.registry, f, answers);
        PassAttachesLatest(reg, init, answers, u);
      } else if u in o.registry {
        PassAttachesLatest(reg, init, answers, u);
      } else {
        PassExtends(reg, init, answers);
        assert u !in reg && u !in Udns(init);
        LastOfUnvisited(init, u, None, None);
      }
    }
  }

  /** Pass over a concatenation is the second pass run after the first. */
  lemma {:induction false} PassAppend(reg: Registry, xs: seq<Found>, ys: seq<Found>, answers: Answers)
    ensures Pass(reg, xs + ys, answers)
            == (var o := Pass(reg, xs, answers); if o.exit.Running? then Pass(o.registry, ys, answers) else o)
    decreases |ys|
  {
    if ys == [] {
      assert xs + ys == xs;
    } else {
      var init := ys[..|ys| - 1];
      var y := ys[|ys| - 1];
      PassAppend(reg, xs, init, answers);
      assert xs + ys == (xs + init) + [y];
      PassSnoc(reg, xs + init, y, answers);
    }
  }

  /** Search visits every transport client before any rendering client: it is
      one pass over the transport clients followed by the rendering clients. */
  lemma SearchIsOnePass(reg: Registry, ts: seq<TransportClient>, e1: seq<Error>,
                        rs: seq<RenderingClient>, e2: seq<Error>, answers: Answers)
    ensures SearchPass(reg, Enumerated(ts, e1), Enumerated(rs, e2), answers)
            == Pass(reg, Transports(ts) + Renderings(rs), answers)
  {
    PassAppend(reg, Transports(ts), Renderings(rs), answers);
  }

  /** A failed enumeration of transport clients stops the process before
      anything is visited. */
  lemma FailedEnumerationIsFatal(reg: Registry, cause: Error, renderings: Enumeration<RenderingClient>, answers: Answers)
    ensures SearchPass(reg, EnumerationFailed(cause), renderings, answers) == Outcome(reg, Fatal(cause))
  {
  }

  /** A Search that completes keeps the registry well formed and extends it
      with exactly the UDNs of the clients found. */
  lemma SearchExtends(reg: Registry, ts: seq<TransportClient>, e1: seq<Error>,
                      rs: seq<RenderingClient>, e2: seq<Error>, answers: Answers)
    requires WellFormed(reg)
    ensures var o := SearchPass(reg, Enumerated(ts, e1), Enumerated(rs, e2), answers);
            && Extends(reg, o.registry)
            && (o.exit.Running? ==> WellFormed(o.registry))
            && (o.exit.Running? ==> o.registry.Keys == reg.Keys + Udns(Transports(ts) + Renderings(rs)))
  {
    SearchIsOnePass(reg, ts, e1, rs, e2, answers);
    PassExtends(reg, Transports(ts) + Renderings(rs), answers);
    PassKeepsWellFormed(reg, Transports(ts) + Renderings(rs), answers);
  }

  /** A device that offers both services, found by a Search that completes,
      holds an adapter, and that one adapter ends with both handles: the last
      transport client and the last rendering client found for it. */
  lemma BothServicesShareAdapter(reg: Registry, ts: seq<TransportClient>, e1: seq<Error>,
                                 rs: seq<RenderingClient>, e2: seq<Error>,
                                 answers: Answers, i: nat, j: nat)
    requires i < |ts| && j < |rs| && ts[i].root.udn == rs[j].root.udn
    requires SearchPass(reg, Enumerated(ts, e1), Enumerated(rs, e2), answers).exit.Running?
    ensures var o := SearchPass(reg, Enumerated(ts, e1), Enumerated(rs, e2), answers);
            && ts[i].root.udn in o.registry && o.registry[ts[i].root.udn].Some?
            && var v := o.registry[ts[i].root.udn].value;
               && v.transport == LastTransport(Transports(ts), ts[i].root.udn, TransportOf(reg, ts[i].root.udn))
               && v.rendering == LastRendering(Renderings(rs), ts[i].root.udn, RenderingOf(reg, ts[i].root.udn))
               && v.transport.Some? && v.rendering.Some?
  {
    var xs, ys := Transports(ts), Renderings(rs);
    var u := ts[i].root.udn;
    SearchIsOnePass(reg, ts, e1, rs, e2, answers);
    assert Root(xs[i]).udn == u && Root(ys[j]).udn == u;
    BothFoundShareAdapter(reg, xs, ys, answers, i, j, u,
                          SearchPass(reg, Enumerated(ts, e1), Enumerated(rs, e2), answers));
  }

  /** A device whose registration is refused, and which holds no adapter
      when the Search starts, never lets that Search complete when it
      offers both services: the transport loop stores nil for it, and the
      rendering loop panics on that nil unless the process stopped earlier. */
  lemma RefusedDeviceStopsSearch(reg: Registry, ts: seq<TransportClient>, e1: seq<Error>,
                                 rs: seq<RenderingClient>, e2: seq<Error>,
                                 answers: Answers, i: nat, j: nat)
    requires i < |ts| && j < |rs| && ts[i].root.udn == rs[j].root.udn
    requires ts[i].root.udn in answers.createRefusals
    requires ts[i].root.udn !in reg || reg[ts[i].root.udn].None?
    ensures !SearchPass(reg, Enumerated(ts, e1), Enumerated(rs, e2), answers).exit.Running?
  {
    if SearchPass(reg, Enumerated(ts, e1), Enumerated(rs, e2), answers).exit.Running? {
      BothServicesShareAdapter(reg, ts, e1, rs, e2, answers, i, j);
      SearchIsOnePass(reg, ts, e1, rs, e2, answers);
      RefusedNeverAdapter(reg, Transports(ts) + Renderings(rs), answers, ts[i].root.udn);
      assert false;
    }
  }

  /** A device whose registration is refused never gets an adapter in a
      pass that starts without one. */
  lemma {:induction false} RefusedNeverAdapter(reg: Registry, fs: seq<Found>, answers: Answers, u: string)
    requires u in answers.createRefusals
    requires u !in reg || reg[u].None?
    ensures var o := Pass(reg, fs, answers);
            u !in o.registry || o.registry[u].None?
    decreases |fs|
  {
    if fs != [] {
      var init := fs[..|fs| - 1];
      RefusedNeverAdapter(reg, init, answers, u);
      var o := Pass(reg, init, answers);
      if o.exit.Running? {
        StepFacts(o.registry, fs[|fs| - 1], answers);
      }
    }
  }

  /** BothServicesShareAdapter over a pass of transports followed by renderings. */
  lemma BothFoundShareAdapter(reg: Registry, xs: seq<Found>, ys: seq<Found>, answers: Answers,
                              i: nat, j: nat, u: string, o: Outcome)
    requires forall k :: 0 <= k < |xs| ==> xs[k].FoundTransport?
    requires forall k :: 0 <= k < |ys| ==> ys[k].FoundRendering?
    requires i < |xs| && j < |ys| && Root(xs[i]).udn == u && Root(ys[j]).udn == u
    requires o == Pass(reg, xs + ys, answers) && o.exit.Running?
    ensures && u in o.registry && o.registry[u].Some?
            && o.registry[u].value.transport == LastTransport(xs, u, TransportOf(reg, u))
            && o.registry[u].value.rendering == LastRendering(ys, u, RenderingOf(reg, u))
            && o.registry[u].value.transport.Some? && o.registry[u].value.rendering.Some?
  {
    assert u in Udns(xs) && u in Udns(ys);
    FoundInBothHasAdapter(reg, xs, ys, answers, u);
    LatestOverConcatenation(reg, xs, ys, answers, u);
    LastFound(xs, i, u, TransportOf(reg, u));
    LastFoundRendering(ys, j, u, RenderingOf(reg, u));
  }


  /** A device visited by both halves of a pass that completes holds an
      adapter afterwards. */
  lemma FoundInBothHasAdapter(reg: Registry, xs: seq<Found>, ys: seq<Found>, answers: Answers, u: string)
    requires u in Udns(xs) && u in Udns(ys)
    requires Pass(reg, xs + ys, answers).exit.Running?
    ensures var o := Pass(reg, xs + ys, answers);
            u in o.registry && o.registry[u].Some?
  {
    PassAppend(reg, xs, ys, answers);
    var o := Pass(reg, xs, answers);
    PassExtends(reg, xs, answers);
    VisitedKnownHasAdapter(o.registry, ys, answers, u);
  }

  /** A device already in the registry and visited again by a pass that
      completes holds an adapter afterwards: had its entry been nil, the
      visit would have panicked. */
  lemma {:induction false} VisitedKnownHasAdapter(reg: Registry, fs: seq<Found>, answers: Answers, u: string)
    requires u in reg && u in Udns(fs)
    requires Pass(reg, fs, answers).exit.Running?
    ensures var o := Pass(reg, fs, answers);
            u in o.registry && o.registry[u].Some?
    decreases |fs|
  {
    var w :| 0 <= w < |fs| && Root(fs[w]).udn == u;
    var init := fs[..|fs| - 1];
    var f := fs[|fs| - 1];
    var o := Pass(reg, init, answers);
    assert o.exit.Running?;
    var next := VisitStep(o.registry, f, answers);
    PassExtends(reg, init, answers);
    StepFacts(o.registry, f, answers);
    if w < |init| {
      assert Root(init[w]).udn == u;
      VisitedKnownHasAdapter(reg, init, answers, u);
    } else {
      assert w == |fs| - 1;
    }
    assert Pass(reg, fs, answers) == next;
  }

  /** PassAttachesLatest over transports followed by renderings. */
  lemma LatestOverConcatenation(reg: Registry, xs: seq<Found>, ys: seq<Found>, answers: Answers, u: string)
    requires forall k :: 0 <= k < |xs| ==> xs[k].FoundTransport?
    requires forall k :: 0 <= k < |ys| ==> ys[k].FoundRendering?
    requires var o := Pass(reg, xs + ys, answers);
             o.exit.Running? && u in o.registry && o.registry[u].Some?
    ensures var v := Pass(reg, xs + ys, answers).registry[u].value;
            && v.transport == LastTransport(xs, u, TransportOf(reg, u))
            && v.rendering == LastRendering(ys, u, RenderingOf(reg, u))
  {
    PassAttachesLatest(reg, xs + ys, answers, u);
    LastSplits(xs, ys, u, TransportOf(reg, u), RenderingOf(reg, u));
  }

  /** Over transports followed by renderings, the last transport handle comes
      from the transports and the last rendering handle from the renderings. */
  lemma {:induction false} LastSplits(xs: seq<Found>, ys: seq<Found>, u: string,
                                      t: Option<TransportClient>, r: Option<RenderingClient>)
    requires forall k :: 0 <= k < |xs| ==> xs[k].FoundTransport?
    requires forall k :: 0 <= k < |ys| ==> ys[k].FoundRendering?
    ensures LastTransport(xs + ys, u, t) == LastTransport(xs, u, t)
    ensures LastRendering(xs + ys, u, r) == LastRendering(ys, u, r)
    decreases |xs| + |ys|
  {
    if ys != [] {
      var init := ys[..|ys| - 1];
      assert (xs + ys)[..|xs + ys| - 1] == xs + init;
      LastSplits(xs, init, u, t, r);
    } else {
      assert xs + ys == xs;
      if xs != [] {
        var init := xs[..|xs| - 1];
        LastSplits(init, [], u, t, r);
        assert init + [] == init;
      }
    }
  }

  /** A transport client found for `u` leaves `u` with a transport handle. */
  lemma {:induction false} LastFound(xs: seq<Found>, i: nat, u: string, t: Option<TransportClient>)
    requires i < |xs| && xs[i].FoundTransport? && xs[i].transport.root.udn == u
    ensures LastTransport(xs, u, t).Some?
    decreases |xs|
  {
    if i < |xs| - 1 {
      LastFound(xs[..|xs| - 1], i, u, t);
    }
  }

  /** A rendering client found for `u` leaves `u` with a rendering handle. */
  lemma {:induction false} LastFoundRendering(ys: seq<Found>, j: nat, u: string, r: Option<RenderingClient>)
    requires j < |ys| && ys[j].FoundRendering? && ys[j].rendering.root.udn == u
    ensures LastRendering(ys, u, r).Some?
    decreases |ys|
  {
    if j < |ys| - 1 {
      LastFoundRendering(ys[..|ys| - 1], j, u, r);
    }
  }
}
