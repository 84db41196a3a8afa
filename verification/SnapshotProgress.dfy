/** What the publisher owes its peer: the latest snapshot once per epoch and generation, after a
    reconnect and after a failed send too, with everything that the peer does not own itself. */
module SnapshotProgress {
  import opened Common
  import opened SnapshotTopology
  import opened SnapshotProtocol

  /** The desired snapshot has not gone out in this epoch: the epoch is new, or nothing is pending in
      it and the generation was not answered in it. */
  predicate Due(s: Sys, epoch: U64) {
    && s.pub.desired.Some?
    && (epoch > s.epoch
        || (s.pub.pending.request == 0 && Settled(epoch, s.pub.desired.value.generation) !in s.answered))
  }

  lemma {:induction false} StartsIffDue(s: Sys, epoch: U64)
    requires Inv(s) && Enabled(s, SyncStart(epoch))
    ensures var t := Next(s, SyncStart(epoch));
            && t.phase == (if Due(s, epoch) then Cloned(epoch, s.pub.desired.value) else Idle)
            && t.pub == s.pub.(pending := t.pub.pending) && t.sent == s.sent && t.answered == s.answered
            && (Due(s, epoch) ==> t.pub.pending.request == 0)
  {
  }

  /** In every state of every run, a Sync that finds no other under way takes up the desired snapshot
      if and only if it is due. */
  lemma {:induction false} SyncIffDue(states: seq<Sys>, events: seq<Event>, k: nat, epoch: U64)
    requires Run(states, events) && k < |states| && Enabled(states[k], SyncStart(epoch))
    ensures Next(states[k], SyncStart(epoch)).phase ==
            if Due(states[k], epoch) then Cloned(epoch, states[k].pub.desired.value) else Idle
  {
    RunKeepsInv(states, events, k);
    hide Inv, Next;
    StartsIffDue(states[k], epoch);
  }

  /** What is sent of a staged snapshot: all of it to a peer that owns nothing. One that owns the
      configuration gets the two values that Go keeps and no namespaces; the backends stay unless
      it owns routing too. */
  lemma {:induction false} WhatGoesOut(m: Message, requestId: U64, configOwner: bool, routeOwner: bool)
    requires m.body.Some?
    ensures var out, body := Outgoing(m, requestId, configOwner, routeOwner), m.body.value;
            && out.generation == m.generation && out.requestId == requestId && out.body.Some?
            && out.body.value.config.capability == body.config.capability
            && out.body.value.config.version == body.config.version
            && (!configOwner ==> out.body.value == body && out.required == m.required)
            && (configOwner ==> out.body.value.config.rest == None && out.body.value.topology.namespaces == [])
            && (configOwner && routeOwner ==> out.body.value.topology.backends == [])
            && (configOwner && !routeOwner ==> out.body.value.topology.backends == body.topology.backends)
            && (forall r :: r in out.required <==>
                  || r in m.required || (configOwner && r == RUST_CONFIG_NAMESPACE)
                  || (configOwner && routeOwner && r == RUST_ROUTE_OWNER))
  {
  }

  /** The three steps of a Sync that nothing comes between. */
  function Synced(s: Sys, epoch: U64, requestId: U64, configOwner: bool, routeOwner: bool): seq<Event> {
    [SyncStart(epoch), SyncCommit(requestId, configOwner, routeOwner), SendOk]
  }

  ghost predicate Follows(s: Sys, events: seq<Event>, t: Sys)
    decreases |events|
  {
    if events == [] then t == s else Enabled(s, events[0]) && Follows(Next(s, events[0]), events[1..], t)
  }

  lemma {:induction false} ThreeSteps(s: Sys, a: Event, t: Sys, b: Event, u: Sys, c: Event, v: Sys)
    requires Leads(s, a, t) && Leads(t, b, u) && Leads(u, c, v)
    ensures Follows(s, [a, b, c], v)
  {
    hide Enabled, Next;
    assert [a, b, c][1..] == [b, c] && [b, c][1..] == [c] && [c][1..] == [];
    assert Follows(v, [], v);
    assert Follows(u, [c], v);
    assert Follows(t, [b, c], v);
  }

  /** A Sync that is due and undisturbed puts exactly the desired snapshot on the wire, and waits for
      its answer. */
  lemma {:induction false} DueIsSent(s: Sys, epoch: U64, requestId: U64, configOwner: bool, routeOwner: bool)
      returns (t: Sys)
    requires Inv(s) && Enabled(s, SyncStart(epoch)) && Due(s, epoch) && requestId != 0
    ensures Follows(s, Synced(s, epoch, requestId, configOwner, routeOwner), t) && Inv(t) && t.phase == Idle
    ensures t.sent == s.sent + [Sent(epoch, Outgoing(s.pub.desired.value, requestId, configOwner, routeOwner))]
    ensures t.pub.pending == Pending(epoch, requestId, s.pub.desired.value.generation)
    ensures t.pub.desired == s.pub.desired && t.epoch == epoch
  {
    var one, two, three := SyncStart(epoch), SyncCommit(requestId, configOwner, routeOwner), SendOk;
    StartsIffDue(s, epoch);
    StepKeepsInv(s, one);
    var m := Next(s, one);
    CloneIsWanted(s, epoch);
    StepKeepsInv(m, two);
    var n := Next(m, two);
    StepKeepsInv(n, three);
    t := Next(n, three);
    hide Inv, Outgoing, Follows;
    OutgoingGeneration(s.pub.desired.value, requestId, configOwner, routeOwner);
    ThreeSteps(s, one, m, two, n, three, t);
  }

  lemma {:induction false} OutgoingGeneration(m: Message, requestId: U64, configOwner: bool, routeOwner: bool)
    ensures Outgoing(m, requestId, configOwner, routeOwner).generation == m.generation
  {
  }

  /** What was just cloned is still wanted, if nothing came between. */
  lemma {:induction false} CloneIsWanted(s: Sys, epoch: U64)
    requires Inv(s) && Enabled(s, SyncStart(epoch)) && Due(s, epoch)
    ensures var t := Next(s, SyncStart(epoch));
            t.phase.Cloned? && StillWanted(t.pub, epoch, t.phase.message) && t.epoch == epoch
  {
    StartsIffDue(s, epoch);
  }

  /** After a reconnect, in every run: the peer of the new epoch gets the desired snapshot, whatever was
      sent and answered before. */
  lemma {:induction false} ReconnectResends(states: seq<Sys>, events: seq<Event>, k: nat, epoch: U64, requestId: U64,
      configOwner: bool, routeOwner: bool) returns (t: Sys)
    requires Run(states, events) && k < |states| && states[k].phase == Idle && states[k].pub.desired.Some?
    requires epoch > states[k].epoch && requestId != 0
    ensures Follows(states[k], Synced(states[k], epoch, requestId, configOwner, routeOwner), t)
    ensures t.sent == states[k].sent
                    + [Sent(epoch, Outgoing(states[k].pub.desired.value, requestId, configOwner, routeOwner))]
  {
    RunKeepsInv(states, events, k);
    hide Inv, Follows, Synced;
    t := DueIsSent(states[k], epoch, requestId, configOwner, routeOwner);
  }

  /** A send that failed without an answer is due again at the next Sync of its epoch. */
  lemma {:induction false} FailedSendIsDue(s: Sys)
    requires Inv(s) && s.phase.Committed? && s.pub.desired.Some?
    requires Settled(s.epoch, s.pub.desired.value.generation) !in s.answered
    ensures Due(Next(s, SendFail), s.epoch)
  {
    if s.pub.pending.request == 0 {
      assert s.pub.settled == Settled(s.epoch, s.phase.message.generation);
    }
  }

  /** The answer to the outstanding request is accepted: its generation is settled for the epoch,
      nothing is pending any more, and it is not due again. */
  lemma {:induction false} AnswerIsAccepted(s: Sys, i: nat, ok: bool, applied: U64)
    requires Inv(s) && i < |s.sent| && Outstanding(s, s.sent[i]) && s.sent[i].message.requestId != 0
    requires ok ==> applied == s.sent[i].message.generation
    ensures var x := s.sent[i];
            var t := Next(s, Result(x.epoch, x.message.requestId, x.message.generation, ok, applied));
            && t.answered == s.answered + {Settled(x.epoch, x.message.generation)} && t.pub.pending == NO_PENDING
            && t.pub.status.applied == Max(s.pub.status.applied, applied)
            && t.pub.status.rejected == (if ok then s.pub.status.rejected else x.message.generation)
            && (t.pub.desired.Some? && t.pub.desired.value.generation == x.message.generation ==> !Due(t, x.epoch))
  {
  }

  /** An answer to anything but the pending request changes nothing, and neither does one that claims
      to have applied another generation. */
  lemma {:induction false} OtherAnswerIsIgnored(s: Sys, epoch: U64, request: U64, generation: U64, ok: bool,
      applied: U64)
    requires || s.pub.pending.request == 0 || s.pub.pending.epoch != epoch || s.pub.pending.request != request
             || s.pub.pending.generation != generation || (ok && applied != generation)
    ensures Next(s, Result(epoch, request, generation, ok, applied)) == s
  {
  }
}
