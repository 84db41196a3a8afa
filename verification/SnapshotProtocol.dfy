/** The snapshot publisher as a protocol: generations are staged, and Sync sends the latest one
    in critical sections that other operations run between. */
module SnapshotProtocol {
  import opened Common
  import opened SnapshotTopology

  const RUST_CONFIG_NAMESPACE: nat := 5
  const RUST_ROUTE_OWNER: nat := 6

  /** `rest` is every configuration value but the two that Go keeps. */
  datatype Config = Config(capability: nat, version: string, rest: Option<string>)

  datatype Body = Body(config: Config, topology: Topology)

  datatype Message = Message(generation: U64, requestId: U64, required: seq<nat>, body: Option<Body>)

  datatype Pending = Pending(epoch: U64, request: U64, generation: U64)

  datatype Settled = Settled(epoch: U64, generation: U64)

  datatype Status = Status(desired: U64, sent: U64, applied: U64, rejected: U64)

  datatype Publisher = Publisher(
    nextGeneration: U64, desired: Option<Message>, lastConfig: Option<Config>, rejected: Option<Topology>,
    pending: Pending, settled: Settled, status: Status)

  /** What the builder makes of a configuration and a topology, if it accepts them. */
  datatype Built = Built(required: seq<nat>, body: Body)

  const NO_PENDING := Pending(0, 0, 0)

  const INITIAL := Publisher(0, None, None, None, NO_PENDING, Settled(0, 0), Status(0, 0, 0, 0))

  // ----------------------------------------------------------------- staging

  /** Every attempt consumes a generation; only a successful one becomes desired. */
  function Stage(p: Publisher, cfg: Config, built: Option<Built>): (Publisher, bool) {
    if p.nextGeneration == U64_MAX then (p, false)
    else
      var generation := p.nextGeneration + 1;
      match built
      case None => (p.(nextGeneration := generation, status := p.status.(rejected := generation)), false)
      case Some(b) =>
        (p.(nextGeneration := generation, desired := Some(Message(generation, 0, b.required, Some(b.body))),
            lastConfig := Some(cfg), rejected := None, status := p.status.(desired := generation)), true)
  }

  function Refresh(p: Publisher, topology: Topology, built: Option<Built>): Publisher {
    if p.lastConfig.None? then p
    else if p.desired.Some? && p.desired.value.body.Some? && p.desired.value.body.value.topology == topology then p
    else if p.rejected == Some(topology) then p
    else
      var (q, ok) := Stage(p, p.lastConfig.value, built);
      if ok then q else q.(rejected := Some(topology))
  }

  /** A failed build leaves the desired snapshot alone. */
  lemma {:induction false} FailedBuildKeepsDesired(p: Publisher, cfg: Config, topology: Topology)
    ensures Stage(p, cfg, None).0.desired == p.desired && Stage(p, cfg, None).0.lastConfig == p.lastConfig
    ensures Refresh(p, topology, None).desired == p.desired
    ensures p.nextGeneration < U64_MAX ==> Stage(p, cfg, None).0.status.rejected == p.nextGeneration + 1
  {
  }

  /** Removes what Rust owns. */
  function Shrink(m: Message, routeOwner: bool): Message {
    match m.body
    case None => m
    case Some(b) =>
      m.(body := Some(Body(Config(b.config.capability, b.config.version, None),
                           Topology(if routeOwner then [] else b.topology.backends, []))),
         required := m.required + [RUST_CONFIG_NAMESPACE] + if routeOwner then [RUST_ROUTE_OWNER] else [])
  }

  /** The message as it goes out to a peer with these capabilities. */
  function Outgoing(m: Message, requestId: U64, configOwner: bool, routeOwner: bool): Message {
    var addressed := m.(requestId := requestId);
    if configOwner then Shrink(addressed, routeOwner) else addressed
  }

  // ------------------------------------------------------------------ system

  /** Between the critical sections of Sync: a cloned message without or with its request. */
  datatype Phase = Idle | Cloned(epoch: U64, message: Message) | Committed(epoch: U64, message: Message)

  datatype Sent = Sent(epoch: U64, message: Message)

  /** `epoch` is the latest that Sync ran for; `sent` is what went out; `answered` the results
      that were accepted; `staged` every snapshot that was ever desired. */
  datatype Sys = Sys(
    pub: Publisher, phase: Phase, epoch: U64, sent: seq<Sent>, answered: set<Settled>, staged: map<U64, Built>)

  datatype Event =
    | Update(cfg: Config, built: Option<Built>)
    | RefreshTopology(topology: Topology, built: Option<Built>)
    | SyncStart(epoch: U64)
    | SyncAbort
    | SyncCommit(requestId: U64, configOwner: bool, routeOwner: bool)
    | SendOk
    | SendFail
    | Result(epoch: U64, request: U64, generation: U64, ok: bool, applied: U64)

  const START := Sys(INITIAL, Idle, 0, [], {}, map[])

  /** One Sync at a time, for epochs that never go back; request identities are not zero. */
  predicate Enabled(s: Sys, e: Event) {
    match e
    case Update(_, _) => true
    case RefreshTopology(_, _) => true
    case SyncStart(epoch) => s.phase == Idle && epoch != 0 && epoch >= s.epoch
    case SyncAbort => s.phase.Cloned?
    case SyncCommit(requestId, _, _) => s.phase.Cloned? && requestId != 0
    case SendOk => s.phase.Committed?
    case SendFail => s.phase.Committed?
    case Result(_, _, _, _, _) => true
  }

  /** Remembers what a staging made desired. */
  function Restaged(s: Sys, p: Publisher): Sys {
    s.(pub := p,
       staged := if p.desired.Some? && p.desired.value.body.Some? && p.desired != s.pub.desired
                 then s.staged[p.desired.value.generation :=
                                 Built(p.desired.value.required, p.desired.value.body.value)]
                 else s.staged)
  }

  function StartStep(s: Sys, epoch: U64): Sys {
    var p := if s.pub.pending.epoch != 0 && s.pub.pending.epoch != epoch then s.pub.(pending := NO_PENDING) else s.pub;
    var t := s.(pub := p, epoch := epoch);
    if p.pending.request != 0 || p.desired.None? || p.settled == Settled(epoch, p.desired.value.generation) then t
    else t.(phase := Cloned(epoch, p.desired.value))
  }

  /** The send decision holds still, when it is taken for good. */
  predicate StillWanted(p: Publisher, epoch: U64, m: Message) {
    && p.pending.request == 0 && p.desired.Some? && p.desired.value.generation == m.generation
    && p.settled != Settled(epoch, m.generation)
  }

  function CommitStep(s: Sys, requestId: U64, configOwner: bool, routeOwner: bool): Sys
    requires s.phase.Cloned?
  {
    var epoch, m := s.phase.epoch, s.phase.message;
    if !StillWanted(s.pub, epoch, m) then s.(phase := Idle)
    else s.(pub := s.pub.(pending := Pending(epoch, requestId, m.generation)),
             phase := Committed(epoch, Outgoing(m, requestId, configOwner, routeOwner)))
  }

  function SentStep(s: Sys): Sys
    requires s.phase.Committed?
  {
    s.(phase := Idle, sent := s.sent + [Sent(s.phase.epoch, s.phase.message)],
       pub := s.pub.(status := s.pub.status.(sent := s.phase.message.generation)))
  }

  function FailStep(s: Sys): Sys
    requires s.phase.Committed?
  {
    var p :=
      if s.pub.pending.epoch == s.phase.epoch && s.pub.pending.request == s.phase.message.requestId
      then s.pub.(pending := NO_PENDING)
      else s.pub;
    s.(phase := Idle, pub := p)
  }

  /** A result is accepted only if it answers exactly the pending request. */
  predicate Correlates(p: Publisher, epoch: U64, request: U64, generation: U64, ok: bool, applied: U64) {
    && p.pending == Pending(epoch, request, generation) && request != 0
    && (ok ==> applied == generation)
  }

  function ResultStep(s: Sys, epoch: U64, request: U64, generation: U64, ok: bool, applied: U64): Sys {
    if !Correlates(s.pub, epoch, request, generation, ok, applied) then s
    else
      var settled := Settled(epoch, generation);
      var status := s.pub.status.(applied := Max(s.pub.status.applied, applied),
                                 rejected := if ok then s.pub.status.rejected else generation);
      s.(pub := s.pub.(pending := NO_PENDING, settled := settled, status := status), answered := s.answered + {settled})
  }

  function Next(s: Sys, e: Event): Sys
    requires Enabled(s, e)
  {
    match e
    case Update(cfg, built) => Restaged(s, Stage(s.pub, cfg, built).0)
    case RefreshTopology(topology, built) => Restaged(s, Refresh(s.pub, topology, built))
    case SyncStart(epoch) => StartStep(s, epoch)
    case SyncAbort => s.(phase := Idle)
    case SyncCommit(requestId, configOwner, routeOwner) => CommitStep(s, requestId, configOwner, routeOwner)
    case SendOk => SentStep(s)
    case SendFail => FailStep(s)
    case Result(epoch, request, generation, ok, applied) => ResultStep(s, epoch, request, generation, ok, applied)
  }

  // --------------------------------------------------------------- invariant

  function DesiredGeneration(p: Publisher): U64 {
    if p.desired.Some? then p.desired.value.generation else 0
  }

  /** The message is the snapshot staged under its generation, whole or shrunk. */
  predicate Genuine(s: Sys, m: Message) {
    && m.generation in s.staged
    && exists configOwner, routeOwner :: m == Outgoing(Plain(s, m.generation), m.requestId, configOwner, routeOwner)
  }

  function Plain(s: Sys, generation: U64): Message
    requires generation in s.staged
  {
    Message(generation, 0, s.staged[generation].required, Some(s.staged[generation].body))
  }

  predicate DesiredOk(s: Sys) {
    && (s.pub.desired.Some? ==>
          var m := s.pub.desired.value;
          0 < m.generation <= s.pub.nextGeneration && m.generation in s.staged && m == Plain(s, m.generation))
    && forall g :: g in s.staged ==> g <= DesiredGeneration(s.pub)
  }

  predicate PendingOk(s: Sys) {
    && (s.pub.pending.request == 0 ==> s.pub.pending == NO_PENDING)
    && (s.pub.pending.request != 0 ==>
        s.pub.pending.epoch == s.epoch != 0 && s.pub.pending.generation <= DesiredGeneration(s.pub))
    && (s.pub.pending.request != 0 && s.pub.settled.epoch == s.epoch ==>
        s.pub.settled.generation < s.pub.pending.generation)
    && s.pub.settled.epoch <= s.epoch
    && s.pub.settled.generation <= DesiredGeneration(s.pub)
  }

  predicate PhaseOk(s: Sys) {
    match s.phase
    case Idle => true
    case Cloned(epoch, m) =>
      epoch == s.epoch != 0 && s.pub.pending.request == 0 && m.generation in s.staged && m == Plain(s, m.generation)
    case Committed(epoch, m) =>
      && epoch == s.epoch != 0 && m.requestId != 0 && Genuine(s, m)
      && (s.pub.pending == Pending(epoch, m.requestId, m.generation) || (s.pub.pending == NO_PENDING
          && s.pub.settled == Settled(epoch, m.generation) && s.pub.settled in s.answered))
  }

  /** Everything sent in this epoch was answered, but for the pending request. */
  predicate Outstanding(s: Sys, x: Sent) {
    x.epoch == s.epoch && Settled(x.epoch, x.message.generation) !in s.answered
  }

  predicate SentOk(s: Sys) {
    forall i :: 0 <= i < |s.sent| ==>
      var x := s.sent[i];
      && x.epoch <= s.epoch && Genuine(s, x.message)
      && (Outstanding(s, x) ==> s.pub.pending == Pending(x.epoch, x.message.requestId, x.message.generation))
      && (s.phase.Committed? && x.epoch == s.phase.epoch ==> x.message.generation < s.phase.message.generation)
  }

  /** Within one epoch, generations go up. */
  predicate Increasing(sent: seq<Sent>) {
    forall i, j :: 0 <= i < j < |sent| ==>
      sent[i].epoch <= sent[j].epoch
          && (sent[i].epoch == sent[j].epoch ==> sent[i].message.generation < sent[j].message.generation)
  }

  /** The settled generation is the latest answered one of its epoch. */
  predicate AnsweredOk(s: Sys) {
    && (forall a :: a in s.answered ==>
          a.epoch <= s.epoch && (a.epoch == s.epoch ==>
              s.pub.settled.epoch == s.epoch && a.generation <= s.pub.settled.generation))
    && (s.pub.settled == Settled(0, 0) || s.pub.settled in s.answered)
  }

  predicate Inv(s: Sys) {
    DesiredOk(s) && PendingOk(s) && PhaseOk(s) && SentOk(s) && Increasing(s.sent) && AnsweredOk(s)
  }

  // ------------------------------------------------------------------- steps

  /** A staging keeps what was staged before. */
  predicate Extends(s: Sys, t: Sys) {
    forall g :: g in s.staged ==> g in t.staged && t.staged[g] == s.staged[g]
  }

  lemma {:induction false} GenuineStays(s: Sys, t: Sys, m: Message)
    requires Genuine(s, m) && Extends(s, t)
    ensures Genuine(t, m)
  {
    assert Plain(t, m.generation) == Plain(s, m.generation);
  }

  /** The publisher after staging: nothing but the desired snapshot and its records moved. */
  predicate Staging(p: Publisher, q: Publisher) {
    && q.pending == p.pending && q.settled == p.settled && q.nextGeneration >= p.nextGeneration
    && (q.desired == p.desired ||
        (q.desired.Some? && q.desired.value.body.Some? && q.desired.value.requestId == 0
            && q.desired.value.generation == q.nextGeneration > p.nextGeneration))
  }

  lemma {:induction false} StageIsStaging(p: Publisher, cfg: Config, topology: Topology, built: Option<Built>)
    ensures Staging(p, Stage(p, cfg, built).0) && Staging(p, Refresh(p, topology, built))
  {
  }

  lemma {:induction false} RestageDesired(s: Sys, q: Publisher)
    requires DesiredOk(s) && Staging(s.pub, q) && DesiredGeneration(s.pub) <= s.pub.nextGeneration
    ensures DesiredOk(Restaged(s, q)) && Extends(s, Restaged(s, q)) && DesiredGeneration(s.pub) <= DesiredGeneration(q)
  {
  }

  lemma {:induction false} RestageKeeps(s: Sys, q: Publisher)
    requires Inv(s) && Staging(s.pub, q)
    ensures Inv(Restaged(s, q))
  {
    var t := Restaged(s, q);
    RestageDesired(s, q);
    assert PhaseOk(t) by {
      if s.phase.Committed? {
        GenuineStays(s, t, s.phase.message);
      }
    }
    forall i | 0 <= i < |s.sent| ensures Genuine(t, s.sent[i].message) {
      GenuineStays(s, t, s.sent[i].message);
    }
  }

  lemma {:induction false} StartKeeps(s: Sys, epoch: U64)
    requires Inv(s) && Enabled(s, SyncStart(epoch))
    ensures Inv(StartStep(s, epoch))
  {
    var t := StartStep(s, epoch);
    forall i | 0 <= i < |s.sent| ensures Genuine(t, s.sent[i].message) {
      GenuineStays(s, t, s.sent[i].message);
    }
  }

  /** At the moment of commitment, the generation is newer than all sent and all answered ones
      of its epoch. */
  lemma {:induction false} CommitIsNewer(s: Sys)
    requires Inv(s) && s.phase.Cloned? && StillWanted(s.pub, s.phase.epoch, s.phase.message)
    ensures forall i :: 0 <= i < |s.sent| && s.sent[i].epoch == s.epoch ==>
        s.sent[i].message.generation < s.phase.message.generation
    ensures forall a :: a in s.answered && a.epoch == s.epoch ==> a.generation < s.phase.message.generation
  {
    forall i | 0 <= i < |s.sent|
        && s.sent[i].epoch == s.epoch ensures s.sent[i].message.generation < s.phase.message.generation {
      assert !Outstanding(s, s.sent[i]);
      assert Settled(s.epoch, s.sent[i].message.generation) in s.answered;
    }
  }

  lemma {:induction false} OutgoingIsGenuine(s: Sys, m: Message, requestId: U64, configOwner: bool, routeOwner: bool)
    requires m.generation in s.staged && m == Plain(s, m.generation)
    ensures var out := Outgoing(m, requestId, configOwner, routeOwner);
            Genuine(s, out) && out.generation == m.generation && out.requestId == requestId
  {
    var out := Outgoing(m, requestId, configOwner, routeOwner);
    assert out == Outgoing(Plain(s, out.generation), out.requestId, configOwner, routeOwner);
  }

  lemma {:induction false} CommitKeeps(s: Sys, requestId: U64, configOwner: bool, routeOwner: bool)
    requires Inv(s) && s.phase.Cloned? && requestId != 0
    ensures Inv(CommitStep(s, requestId, configOwner, routeOwner))
  {
    hide Increasing, Outgoing;
    var t := CommitStep(s, requestId, configOwner, routeOwner);
    forall i | 0 <= i < |s.sent| ensures Genuine(t, s.sent[i].message) {
      GenuineStays(s, t, s.sent[i].message);
    }
    if StillWanted(s.pub, s.phase.epoch, s.phase.message) {
      CommitIsNewer(s);
      OutgoingIsGenuine(s, s.phase.message, requestId, configOwner, routeOwner);
      GenuineStays(s, t, t.phase.message);
    }
  }

  lemma {:induction false} SendKeeps(s: Sys)
    requires Inv(s) && s.phase.Committed?
    ensures Inv(SentStep(s))
  {
    hide Outgoing;
    var t := SentStep(s);
    forall i | 0 <= i < |s.sent| ensures Genuine(t, s.sent[i].message) {
      GenuineStays(s, t, s.sent[i].message);
    }
    GenuineStays(s, t, s.phase.message);
  }

  lemma {:induction false} FailKeeps(s: Sys)
    requires Inv(s) && s.phase.Committed?
    ensures Inv(FailStep(s))
  {
    hide Outgoing, Increasing;
    var t := FailStep(s);
    forall i | 0 <= i < |s.sent| ensures Genuine(t, s.sent[i].message) {
      GenuineStays(s, t, s.sent[i].message);
    }
  }

  lemma {:induction false} ResultKeeps(s: Sys, e: Event)
    requires Inv(s) && e.Result?
    ensures Inv(Next(s, e))
  {
    hide Outgoing, Increasing;
    var t := Next(s, e);
    forall i | 0 <= i < |s.sent| ensures Genuine(t, s.sent[i].message) {
      GenuineStays(s, t, s.sent[i].message);
    }
    if s.phase.Committed? {
      GenuineStays(s, t, s.phase.message);
    }
  }

  lemma {:induction false} AbortKeeps(s: Sys)
    requires Inv(s) && s.phase.Cloned?
    ensures Inv(s.(phase := Idle))
  {
    hide Outgoing, Increasing;
    var t := s.(phase := Idle);
    forall i | 0 <= i < |s.sent| ensures Genuine(t, s.sent[i].message) {
      GenuineStays(s, t, s.sent[i].message);
    }
  }

  /** Every event, in whatever order, keeps the invariant. */
  lemma {:induction false} StepKeepsInv(s: Sys, e: Event)
    requires Inv(s) && Enabled(s, e)
    ensures Inv(Next(s, e))
  {
    hide Inv, Restaged, StartStep, CommitStep, SentStep, FailStep, ResultStep, Stage, Refresh, Staging;
    match e {
      case Update(cfg, built) =>
        StageIsStaging(s.pub, cfg, Topology([], []), built);
        RestageKeeps(s, Stage(s.pub, cfg, built).0);
      case RefreshTopology(topology, built) =>
        StageIsStaging(s.pub, Config(0, "", None), topology, built);
        RestageKeeps(s, Refresh(s.pub, topology, built));
      case SyncStart(epoch) => StartKeeps(s, epoch);
      case SyncAbort => AbortKeeps(s);
      case SyncCommit(requestId, configOwner, routeOwner) => CommitKeeps(s, requestId, configOwner, routeOwner);
      case SendOk => SendKeeps(s);
      case SendFail => FailKeeps(s);
      case Result(_, _, _, _, _) => ResultKeeps(s, e);
    }
  }

  // -------------------------------------------------------------------- runs

  ghost predicate Leads(s: Sys, e: Event, t: Sys) {
    Enabled(s, e) && t == Next(s, e)
  }

  ghost predicate Run(states: seq<Sys>, events: seq<Event>) {
    && |states| == |events| + 1 && states[0] == START
    && forall k :: 0 <= k < |events| ==> Leads(states[k], events[k], states[k + 1])
  }

  lemma {:induction false} LeadsKeepsInv(s: Sys, e: Event, t: Sys)
    requires Inv(s) && Leads(s, e, t)
    ensures Inv(t)
  {
    hide Inv, Next;
    StepKeepsInv(s, e);
  }

  lemma {:induction false} RunKeepsInv(states: seq<Sys>, events: seq<Event>, k: nat)
    requires Run(states, events) && k < |states|
    ensures Inv(states[k])
    decreases k
  {
    hide Leads;
    if k > 0 {
      hide Inv;
      RunKeepsInv(states, events, k - 1);
      assert Leads(states[k - 1], events[k - 1], states[k - 1 + 1]);
      LeadsKeepsInv(states[k - 1], events[k - 1], states[k]);
    }
  }

  /** At any time at most one request of the current epoch is unanswered, and it is the pending
      one. */
  lemma {:induction false} AtMostOneOutstanding(states: seq<Sys>, events: seq<Event>, k: nat, i: nat, j: nat)
    requires Run(states, events) && k < |states| && i < |states[k].sent| && j < |states[k].sent|
    requires Outstanding(states[k], states[k].sent[i]) && Outstanding(states[k], states[k].sent[j])
    ensures i == j
    ensures states[k].pub.pending.request == states[k].sent[i].message.requestId
  {
    RunKeepsInv(states, events, k);
  }

  /** Sent generations strictly increase within an epoch, and what is sent is what was staged
      under that generation. */
  lemma {:induction false} SentIncreases(states: seq<Sys>, events: seq<Event>, k: nat)
    requires Run(states, events) && k < |states|
    ensures Increasing(states[k].sent)
    ensures forall i :: 0 <= i < |states[k].sent| ==> Genuine(states[k], states[k].sent[i].message)
  {
    RunKeepsInv(states, events, k);
  }

  lemma {:induction false} AnsweredGrows(states: seq<Sys>, events: seq<Event>, i: nat, j: nat)
    requires Run(states, events) && i <= j < |states|
    ensures states[i].answered <= states[j].answered
    decreases j
  {
    if i < j {
      hide Leads;
      AnsweredGrows(states, events, i, j - 1);
      assert Leads(states[j - 1], events[j - 1], states[j - 1 + 1]);
      AnsweredStep(states[j - 1], events[j - 1], states[j]);
    }
  }

  lemma {:induction false} AnsweredStep(s: Sys, e: Event, t: Sys)
    requires Leads(s, e, t)
    ensures s.answered <= t.answered
  {
  }

  /** An answered generation is never sent again in its epoch: whatever is committed after the
      answer is newer. */
  lemma {:induction false} AnsweredIsNotResent(states: seq<Sys>, events: seq<Event>, i: nat, j: nat, a: Settled)
    requires Run(states, events) && i <= j < |events| && a in states[i].answered
    requires events[j].SyncCommit? && states[j + 1].phase.Committed? && states[j + 1].phase.epoch == a.epoch
    ensures states[j + 1].phase.message.generation > a.generation
  {
    RunKeepsInv(states, events, j);
    AnsweredGrows(states, events, i, j);
    assert Leads(states[j], events[j], states[j + 1]);
    CommitIsNewer(states[j]);
  }
}
