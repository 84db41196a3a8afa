/** The publisher as an object. Envelopes are shared by reference, so what Sync changes must be a
    copy; each method is one critical section and takes the protocol's step. */
module SnapshotPublisher {
  import opened Common
  import opened SnapshotProtocol
  import opened SnapshotTopology

  class StateSnapshot {
    var config: Config
    var backends: seq<Entry>
    var namespaces: seq<Entry>

    constructor (config: Config, backends: seq<Entry>, namespaces: seq<Entry>)
      ensures this.config == config && this.backends == backends && this.namespaces == namespaces
    {
      this.config, this.backends, this.namespaces := config, backends, namespaces;
    }
  }

  class Envelope {
    var generation: U64
    var requestId: U64
    var required: seq<nat>
    var snapshot: StateSnapshot?

    function Value(): Message
      reads this, snapshot
    {
      Message(generation, requestId, required,
              if snapshot == null then None
              else Some(Body(snapshot.config, Topology(snapshot.backends, snapshot.namespaces))))
    }

    constructor (generation: U64, required: seq<nat>, snapshot: StateSnapshot?)
      ensures this.generation == generation && this.requestId == 0 && this.required == required
          && this.snapshot == snapshot
    {
      this.generation, this.requestId, this.required, this.snapshot := generation, 0, required, snapshot;
    }

    /** A deep copy: neither the envelope nor its snapshot is shared. */
    method Clone() returns (copy: Envelope)
      ensures fresh(copy) && (copy.snapshot != null ==> fresh(copy.snapshot))
      ensures copy.Value() == Value()
    {
      var inner: StateSnapshot? := null;
      if snapshot != null {
        inner := new StateSnapshot(snapshot.config, snapshot.backends, snapshot.namespaces);
      }
      copy := new Envelope(generation, required, inner);
      copy.requestId := requestId;
    }
  }

  /** Takes away what Rust owns, in place. */
  method ShrinkRustOwnedSnapshot(envelope: Envelope, routeOwner: bool)
    modifies envelope, envelope.snapshot
    ensures envelope.Value() == Shrink(old(envelope.Value()), routeOwner)
    ensures envelope.snapshot == old(envelope.snapshot)
  {
    var snapshot := envelope.snapshot;
    if snapshot == null {
      return;
    }
    snapshot.config := Config(snapshot.config.capability, snapshot.config.version, None);
    snapshot.namespaces := [];
    envelope.required := envelope.required + [RUST_CONFIG_NAMESPACE];
    if routeOwner {
      snapshot.backends := [];
      envelope.required := envelope.required + [RUST_ROUTE_OWNER];
    }
  }

  class SnapshotPublisher {
    var nextGeneration: U64
    var desired: Envelope?
    var lastConfig: Option<Config>
    var rejected: Option<Topology>
    var pending: Pending
    var settled: Settled
    var status: Status

    function View(): Publisher
      reads this, desired, if desired == null then {} else {desired.snapshot}
    {
      Publisher(nextGeneration, if desired == null then None else Some(desired.Value()),
                lastConfig, rejected, pending, settled, status)
    }

    constructor ()
      ensures View() == INITIAL
    {
      nextGeneration, desired, lastConfig, rejected := 0, null, None, None;
      pending, settled, status := NO_PENDING, Settled(0, 0), Status(0, 0, 0, 0);
    }

    /** Mints the next generation. A build that fails leaves the desired envelope in place. */
    method StageLocked(cfg: Config, built: Option<Built>) returns (ok: bool)
      modifies this
      ensures (View(), ok) == Stage(old(View()), cfg, built)
      ensures !ok ==> desired == old(desired)
      ensures ok ==> fresh(desired) && desired.snapshot != null && fresh(desired.snapshot)
    {
      if nextGeneration == U64_MAX {
        return false;
      }
      nextGeneration := nextGeneration + 1;
      if built.None? {
        status := status.(rejected := nextGeneration);
        return false;
      }
      var body := built.value.body;
      var snapshot := new StateSnapshot(body.config, body.topology.backends, body.topology.namespaces);
      desired := new Envelope(nextGeneration, built.value.required, snapshot);
      lastConfig, rejected := Some(cfg), None;
      status := status.(desired := nextGeneration);
      return true;
    }

    method RefreshTopology(topology: Topology, built: Option<Built>)
      modifies this
      ensures View() == Refresh(old(View()), topology, built)
    {
      if lastConfig.None? {
        return;
      }
      if desired != null && desired.snapshot != null && desired.snapshot.backends == topology.backends
          && desired.snapshot.namespaces == topology.namespaces {
        return;
      }
      if rejected == Some(topology) {
        return;
      }
      var ok := StageLocked(lastConfig.value, built);
      if !ok {
        rejected := Some(topology);
      }
    }

    /** First critical section of Sync: a copy of what is to be sent, if anything is. */
    method SyncStart(epoch: U64, ghost s: Sys) returns (copy: Envelope?)
      requires s.pub == View() && Enabled(s, Event.SyncStart(epoch))
      modifies this`pending
      ensures View() == Next(s, Event.SyncStart(epoch)).pub
      ensures copy == null <==> Next(s, Event.SyncStart(epoch)).phase == Idle
      ensures copy != null ==>
                && fresh(copy) && (copy.snapshot != null ==> fresh(copy.snapshot))
                && Next(s, Event.SyncStart(epoch)).phase == Cloned(epoch, copy.Value())
    {
      if pending.epoch != 0 && pending.epoch != epoch {
        pending := NO_PENDING;
      }
      if pending.request != 0 || desired == null || (settled.epoch == epoch
          && settled.generation == desired.generation) {
        return null;
      }
      copy := desired.Clone();
    }

    /** The copy is not the stored envelope, and shares nothing with it. */
    predicate Apart(copy: Envelope)
      reads this, desired, copy
    {
      desired != null ==> copy != desired && (copy.snapshot == null || copy.snapshot != desired.snapshot)
    }

    /** Addresses and shrinks the copy, then takes the send decision for good in the second
        critical section. The stored snapshot is what it was. */
    method SyncCommit(epoch: U64, copy: Envelope, requestId: U64, configOwner: bool, routeOwner: bool, ghost s: Sys)
        returns (send: bool)
      requires s.pub == View() && s.phase == Cloned(epoch, copy.Value()) && requestId != 0
      requires Apart(copy)
      modifies this`pending, copy, copy.snapshot
      ensures View() == Next(s, Event.SyncCommit(requestId, configOwner, routeOwner)).pub
      ensures desired == old(desired) && (desired != null ==> desired.Value() == old(View()).desired.value)
      ensures send <==> Next(s, Event.SyncCommit(requestId, configOwner, routeOwner)).phase.Committed?
      ensures send ==>
                Next(s, Event.SyncCommit(requestId, configOwner, routeOwner)).phase == Committed(epoch, copy.Value())
    {
      copy.requestId := requestId;
      if configOwner {
        ShrinkRustOwnedSnapshot(copy, routeOwner);
      }
      if pending.request != 0 || desired == null || desired.generation != copy.generation
        || (settled.epoch == epoch && settled.generation == copy.generation) {
        return false;
      }
      pending := Pending(epoch, requestId, copy.generation);
      return true;
    }

    /** After the send: records it, or takes the request back if it is still pending. */
    method SyncFinish(epoch: U64, copy: Envelope, sent: bool, ghost s: Sys)
      requires s.pub == View() && s.phase == Committed(epoch, copy.Value())
      modifies this`pending, this`status
      ensures View() == Next(s, if sent then SendOk else SendFail).pub
    {
      if sent {
        status := status.(sent := copy.generation);
      } else if pending.epoch == epoch && pending.request == copy.requestId {
        pending := NO_PENDING;
      }
    }

    /** Accepts one exactly correlated result; anything else is an error and changes nothing. */
    method HandleResult(epoch: U64, request: U64, generation: U64, ok: bool, applied: U64, ghost s: Sys)
        returns (accepted: bool)
      requires s.pub == View()
      modifies this`pending, this`settled, this`status
      ensures View() == Next(s, Result(epoch, request, generation, ok, applied)).pub
      ensures accepted <==> Correlates(old(View()), epoch, request, generation, ok, applied)
    {
      if pending.epoch != epoch || pending.request == 0 || pending.request != request
          || pending.generation != generation {
        return false;
      }
      if ok && applied != generation {
        return false;
      }
      settled := Settled(pending.epoch, generation);
      pending := NO_PENDING;
      if applied > status.applied {
        status := status.(applied := applied);
      }
      if !ok {
        status := status.(rejected := generation);
      }
      return true;
    }
  }
}
