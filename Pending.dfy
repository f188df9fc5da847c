/** `PendingAgentsService`: the agents that have been created on OpenStack but
    have not yet registered with the GoCD server, and the periodic sweep that
    promotes registered agents, forgets vanished or failed instances and
    terminates instances that took too long to register. */
module Pending {
  import opened Base
  import opened Cloud
  import opened Settings
  import opened Registry

  /** The job request an agent was created for. */
  datatype JobRequest = JobRequest(environment: Option<string>, properties: map<string, string>)

  datatype PendingAgent = PendingAgent(instance: Instance, request: JobRequest)

  /** The branch the sweep takes for one pending id. */
  datatype Verdict =
    | CheckFailed   // a provider call or the period lookup threw; the entry is kept
    | Disappeared   // the server no longer exists
    | InError       // the server is in ERROR state
    | TimedOut      // registration took longer than the pending-register period
    | StillPending

  /** The sweep's decision for `id`: a server that cannot be asked about
      fails the check; otherwise the first of vanished, ERROR and timed out
      that applies wins. Only a registered non-ERROR server needs the period,
      and a period that cannot be read fails the check. */
  function Classify(id: Id, p: Provider, reg: map<Id, Instance>, period: Result<int>, now: int): Verdict {
    if id in p.unreachable then CheckFailed
    else if id !in p.servers then Disappeared
    else if p.servers[id].status == Some(ErrorStatus) then InError
    else if id !in reg then StillPending
    else if period.Failure? then CheckFailed
    else if ExpiredAt(reg[id].createdAt, period.value, now) then TimedOut
    else StillPending
  }

  /** The verdict is what the chain of checks in
      `PendingAgentsService.refreshAll` yields: existence, then ERROR state,
      then the register timeout, where any exception ends the chain. */
  lemma ClassifyFollowsTheChecks(id: Id, p: Provider, reg: map<Id, Instance>, period: Result<int>, now: int)
    ensures var v := Classify(id, p, reg, period, now);
      && (v == Disappeared <==> InstanceExists(p, id) == Success(false))
      && (v == InError <==> InstanceExists(p, id) == Success(true) && InErrorState(p, id) == Success(true))
      && (v == TimedOut <==>
            InstanceExists(p, id) == Success(true) && InErrorState(p, id) == Success(false)
            && RegisterTimedOut(reg, id, period, now) == Success(true))
      && (v == CheckFailed <==>
            InstanceExists(p, id).Failure?
            || (InstanceExists(p, id) == Success(true) && InErrorState(p, id).Failure?)
            || (InstanceExists(p, id) == Success(true) && InErrorState(p, id) == Success(false)
                && RegisterTimedOut(reg, id, period, now).Failure?))
  {
  }

  /** Whether the sweep reads the pending-register period from the settings
      for `id`: the server can be asked about, exists and is not in ERROR (so
      the register-timeout check is called), and it is registered (so that
      check gets past its null test). */
  predicate ReadsPeriod(id: Id, p: Provider, reg: map<Id, Instance>) {
    id !in p.unreachable && id in p.servers && p.servers[id].status != Some(ErrorStatus) && id in reg
  }

  /** The settings' period fields after sweeping `done`, starting from
      `before`: `after` (the period read, memoised with the default written
      back) once any swept id reached the register-timeout check, `before`
      otherwise. */
  ghost predicate PeriodsAfter(done: set<Id>, p: Provider, reg: map<Id, Instance>,
                               before: (Option<int>, Option<string>), after: (Option<int>, Option<string>),
                               fields: (Option<int>, Option<string>)) {
    fields == if exists id :: id in done && ReadsPeriod(id, p, reg) then after else before
  }

  /** One visit in the sweep: the id is read against the registry as it is
      now, which agrees with the initial one on that id; reading twice is
      reading once. */
  lemma PeriodsAfterStep(ids: set<Id>, todo: set<Id>, id: Id, p: Provider, reg0: map<Id, Instance>,
                         reg: map<Id, Instance>, period: Result<int>, before: (Option<int>, Option<string>),
                         fields: (Option<int>, Option<string>), fields': (Option<int>, Option<string>))
    requires todo <= ids && id in todo && (id in reg <==> id in reg0)
    requires period == PeriodOf(before.0, before.1) == PeriodOf(fields.0, fields.1)
    requires PeriodsAfter(ids - todo, p, reg0, before, PeriodRead(before.0, before.1, period), fields)
    requires fields' == if ReadsPeriod(id, p, reg) then PeriodRead(fields.0, fields.1, period) else fields
    ensures PeriodsAfter(ids - (todo - {id}), p, reg0, before, PeriodRead(before.0, before.1, period), fields')
  {
    PeriodReadKeepsPeriod(before.0, before.1);
    var done := ids - todo;
    assert ids - (todo - {id}) == done + {id};
    if ReadsPeriod(id, p, reg0) {
      assert id in done + {id};
    } else {
      assert forall x :: x in done + {id} && ReadsPeriod(x, p, reg0) ==> x in done;
    }
  }

  /** After a sweep in which some id reached the register-timeout check, a
      period not yet memoised has had its timeout string written back, and it
      is memoised exactly when it can be read; a sweep in which none did
      leaves both fields alone. */
  lemma PeriodsAfterMemoises(done: set<Id>, p: Provider, reg: map<Id, Instance>,
                             before: (Option<int>, Option<string>), fields: (Option<int>, Option<string>))
    requires PeriodsAfter(done, p, reg, before, PeriodRead(before.0, before.1, PeriodOf(before.0, before.1)), fields)
    ensures (exists id :: id in done && ReadsPeriod(id, p, reg)) ==>
              && (before.0.None? ==> fields.1 == Some(before.1.GetOr(DefaultTimeoutMinutes)))
              && (fields.0.Some? <==> PeriodOf(before.0, before.1).Success?)
              && PeriodOf(fields.0, fields.1) == PeriodOf(before.0, before.1)
    ensures (forall id :: id in done ==> !ReadsPeriod(id, p, reg)) ==> fields == before
  {
    PeriodReadKeepsPeriod(before.0, before.1);
  }

  /** Whether the sweep keeps the entry. */
  predicate Kept(v: Verdict) {
    v != Disappeared && v != InError
  }

  /** Whether the sweep terminates the instance. */
  predicate ShouldTerminate(v: Verdict, deleteErrors: bool) {
    v == TimedOut || (v == InError && deleteErrors)
  }

  /** The pending entries the sweep keeps. */
  function SweptPending(m: map<Id, PendingAgent>, p: Provider, reg: map<Id, Instance>, period: Result<int>, now: int)
    : map<Id, PendingAgent>
  {
    map id | id in m && Kept(Classify(id, p, reg, period, now)) :: m[id]
  }

  /** The ids among `ids` whose instances the sweep terminates. */
  function Terminated(ids: set<Id>, p: Provider, reg: map<Id, Instance>, period: Result<int>, now: int, deleteErrors: bool)
    : set<Id>
  {
    set id | id in ids && ShouldTerminate(Classify(id, p, reg, period, now), deleteErrors)
  }

  /** An agent the GoCD server lists is promoted by the sweep: it is neither
      kept pending nor terminated, whatever the provider says about it. */
  lemma PromotedAgentsAreLeftAlone(m: map<Id, PendingAgent>, agents: seq<Id>, p: Provider, reg: map<Id, Instance>,
                                   period: Result<int>, now: int, deleteErrors: bool, id: Id)
    requires id in agents
    ensures id !in SweptPending(m - (set a | a in agents), p, reg, period, now)
    ensures id !in Terminated((m - (set a | a in agents)).Keys, p, reg, period, now, deleteErrors)
  {
    assert id in (set a | a in agents);
  }

  /** The sweep never adds entries: what it keeps is a part of what it was
      given, entry for entry. */
  lemma SweepOnlyRemoves(m: map<Id, PendingAgent>, agents: seq<Id>, p: Provider, reg: map<Id, Instance>,
                         period: Result<int>, now: int)
    ensures var swept := SweptPending(m - (set a | a in agents), p, reg, period, now);
      swept.Keys <= m.Keys && forall id :: id in swept ==> swept[id] == m[id]
  {
  }

  /** A pending id whose server has vanished leaves without a terminate; one
      that exists, is not in ERROR and has not timed out stays, untouched. */
  lemma VanishedLeaveQuietlyAndWaitingStay(m: map<Id, PendingAgent>, p: Provider, reg: map<Id, Instance>,
                                           period: Result<int>, now: int, deleteErrors: bool, id: Id)
    requires id in m
    ensures InstanceExists(p, id) == Success(false) ==>
              id !in SweptPending(m, p, reg, period, now) && id !in Terminated(m.Keys, p, reg, period, now, deleteErrors)
    ensures InstanceExists(p, id) == Success(true) && InErrorState(p, id) == Success(false)
            && RegisterTimedOut(reg, id, period, now) == Success(false) ==>
              id in SweptPending(m, p, reg, period, now) && SweptPending(m, p, reg, period, now)[id] == m[id]
              && id !in Terminated(m.Keys, p, reg, period, now, deleteErrors)
  {
    ClassifyFollowsTheChecks(id, p, reg, period, now);
  }

  /** An entry whose server the provider cannot be asked about is kept for
      the next sweep, and nothing is terminated for it. */
  lemma UncheckableEntriesAreKept(m: map<Id, PendingAgent>, p: Provider, reg: map<Id, Instance>,
                                  period: Result<int>, now: int, deleteErrors: bool, id: Id)
    requires id in m && id in p.unreachable
    ensures id in SweptPending(m, p, reg, period, now) && SweptPending(m, p, reg, period, now)[id] == m[id]
    ensures id !in Terminated(m.Keys, p, reg, period, now, deleteErrors)
  {
    assert Classify(id, p, reg, period, now) == CheckFailed;
  }

  /** An ERROR instance leaves the pending set, and is terminated exactly
      when the settings ask for error instances to be deleted. */
  lemma ErrorInstancesLeaveAndMayBeDeleted(m: map<Id, PendingAgent>, p: Provider, reg: map<Id, Instance>,
                                           period: Result<int>, now: int, deleteErrors: bool, id: Id)
    requires id in m && id !in p.unreachable && id in p.servers && p.servers[id].status == Some(ErrorStatus)
    ensures id !in SweptPending(m, p, reg, period, now)
    ensures id in Terminated(m.Keys, p, reg, period, now, deleteErrors) <==> deleteErrors
  {
    assert Classify(id, p, reg, period, now) == InError;
  }

  /** A timed-out instance is terminated once: on the next sweep over the
      registry it left, the same entry no longer times out. */
  lemma TimedOutTerminatedOnce(m: map<Id, PendingAgent>, p: Provider, reg: map<Id, Instance>,
                               period: Result<int>, now: int, later: int, deleteErrors: bool, id: Id)
    requires id in m && Classify(id, p, reg, period, now) == TimedOut
    ensures id in SweptPending(m, p, reg, period, now)
    ensures id in Terminated(m.Keys, p, reg, period, now, deleteErrors)
    ensures Classify(id, p, reg - Terminated(m.Keys, p, reg, period, now, deleteErrors), period, later) != TimedOut
  {
    var gone := Terminated(m.Keys, p, reg, period, now, deleteErrors);
    assert id in gone;
    assert id !in reg - gone;
  }

  /** The state of the sweep with the ids of `todo` still to visit: visited
      entries are kept or dropped by their verdict and the terminated ones
      are `gone`; unvisited entries are untouched. */
  ghost predicate VisitedByVerdict(pending0: map<Id, PendingAgent>, reg0: map<Id, Instance>, p: Provider,
                                   period: Result<int>, now: int, deleteErrors: bool, todo: set<Id>,
                                   pending: map<Id, PendingAgent>, gone: set<Id>)
  {
    && todo <= pending0.Keys
    && pending.Keys <= pending0.Keys
    && (forall id :: id in pending ==> pending[id] == pending0[id])
    && (forall id :: id in todo ==> id in pending && id !in gone)
    && gone <= pending0.Keys
    && (forall id :: id in pending0 && id !in todo ==>
          (id in pending <==> Kept(Classify(id, p, reg0, period, now)))
          && (id in gone <==> ShouldTerminate(Classify(id, p, reg0, period, now), deleteErrors)))
  }

  ghost predicate SweepState(pending0: map<Id, PendingAgent>, reg0: map<Id, Instance>, p: Provider, period: Result<int>,
                             now: int, deleteErrors: bool, todo: set<Id>, pending: map<Id, PendingAgent>,
                             reg: map<Id, Instance>, gone: set<Id>, terminations: seq<Call>)
  {
    VisitedByVerdict(pending0, reg0, p, period, now, deleteErrors, todo, pending, gone)
    && TerminatedExactly(reg0, gone, reg, terminations)
  }

  /** The id about to be visited sees the registry entry it had at the start. */
  lemma SweepStateAt(pending0: map<Id, PendingAgent>, reg0: map<Id, Instance>, p: Provider, period: Result<int>,
                     now: int, deleteErrors: bool, todo: set<Id>, pending: map<Id, PendingAgent>,
                     reg: map<Id, Instance>, gone: set<Id>, terminations: seq<Call>, id: Id)
    requires SweepState(pending0, reg0, p, period, now, deleteErrors, todo, pending, reg, gone, terminations)
    requires id in todo
    ensures Classify(id, p, reg, period, now) == Classify(id, p, reg0, period, now)
    ensures id in reg <==> id in reg0
    ensures id in pending
  {
    assert id !in gone;
  }

  lemma VisitStep(pending0: map<Id, PendingAgent>, reg0: map<Id, Instance>, p: Provider, period: Result<int>,
                  now: int, deleteErrors: bool, todo: set<Id>, pending: map<Id, PendingAgent>, gone: set<Id>, id: Id)
    requires VisitedByVerdict(pending0, reg0, p, period, now, deleteErrors, todo, pending, gone)
    requires id in todo
    ensures var v := Classify(id, p, reg0, period, now);
      VisitedByVerdict(pending0, reg0, p, period, now, deleteErrors, todo - {id},
                       if Kept(v) then pending else pending - {id},
                       if ShouldTerminate(v, deleteErrors) then gone + {id} else gone)
  {
  }

  /** Visiting one id by its verdict keeps the sweep state. */
  lemma SweepStateStep(pending0: map<Id, PendingAgent>, reg0: map<Id, Instance>, p: Provider, period: Result<int>,
                       now: int, deleteErrors: bool, todo: set<Id>, pending: map<Id, PendingAgent>,
                       reg: map<Id, Instance>, gone: set<Id>, terminations: seq<Call>, id: Id,
                       pending': map<Id, PendingAgent>, reg': map<Id, Instance>, calls: seq<Call>)
    requires SweepState(pending0, reg0, p, period, now, deleteErrors, todo, pending, reg, gone, terminations)
    requires id in todo
    requires var v := Classify(id, p, reg0, period, now);
      && pending' == (if Kept(v) then pending else pending - {id})
      && reg' == (if ShouldTerminate(v, deleteErrors) then reg - {id} else reg)
      && calls == (if ShouldTerminate(v, deleteErrors) && id in reg then [TerminateServer(id)] else [])
    ensures var v := Classify(id, p, reg0, period, now);
      SweepState(pending0, reg0, p, period, now, deleteErrors, todo - {id}, pending', reg',
                 if ShouldTerminate(v, deleteErrors) then gone + {id} else gone, terminations + calls)
  {
    var v := Classify(id, p, reg0, period, now);
    VisitStep(pending0, reg0, p, period, now, deleteErrors, todo, pending, gone, id);
    TerminateStep(reg0, gone, reg, terminations, id, ShouldTerminate(v, deleteErrors));
  }

  /** Once every id is visited, the sweep state is `SweptPending` and `Terminated`. */
  lemma SweepStateDone(pending0: map<Id, PendingAgent>, reg0: map<Id, Instance>, p: Provider, period: Result<int>,
                       now: int, deleteErrors: bool, pending: map<Id, PendingAgent>,
                       reg: map<Id, Instance>, gone: set<Id>, terminations: seq<Call>)
    requires SweepState(pending0, reg0, p, period, now, deleteErrors, {}, pending, reg, gone, terminations)
    ensures pending == SweptPending(pending0, p, reg0, period, now)
    ensures gone == Terminated(pending0.Keys, p, reg0, period, now, deleteErrors)
  {
  }

  /** `agents` holds the entries of `m` under the ids of `done`, each once. */
  ghost predicate CollectedOnce(m: map<Id, PendingAgent>, done: set<Id>, agents: seq<PendingAgent>) {
    && done <= m.Keys
    && |agents| == |done|
    && (forall id :: id in done ==> m[id] in agents)
    && (forall a :: a in agents ==> a.instance.id in done && m[a.instance.id] == a)
    && (forall i, j :: 0 <= i < j < |agents| ==> agents[i] != agents[j])
  }

  lemma CollectOne(m: map<Id, PendingAgent>, done: set<Id>, agents: seq<PendingAgent>, id: Id)
    requires CollectedOnce(m, done, agents) && id in m && id !in done
    requires forall k :: k in m ==> m[k].instance.id == k
    ensures CollectedOnce(m, done + {id}, agents + [m[id]])
  {
    var agents' := agents + [m[id]];
    forall i, j | 0 <= i < j < |agents'|
      ensures agents'[i] != agents'[j]
    {
      if j == |agents| {
        assert agents'[i] == agents[i] && agents[i] in agents;
      } else {
        assert agents'[i] == agents[i] && agents'[j] == agents[j];
      }
    }
  }

  class PendingAgentsService {
    var pendingAgents: map<Id, PendingAgent>
    /** The static `REFRESH_RUNNING` flag of `PendingAgentsService`. */
    var refreshRunning: bool
    const agentInstances: OpenStackInstances

    ghost predicate Valid()
      reads this, agentInstances
    {
      && agentInstances.Valid()
      && forall id :: id in pendingAgents ==> pendingAgents[id].instance.id == id
    }

    constructor (agentInstances: OpenStackInstances)
      requires agentInstances.Valid()
      ensures Valid() && this.agentInstances == agentInstances
      ensures pendingAgents == map[] && !refreshRunning
    {
      this.agentInstances := agentInstances;
      pendingAgents := map[];
      refreshRunning := false;
    }

    /** `addPending`: put-if-absent under the instance's id. */
    method AddPending(pendingInstance: Instance, request: JobRequest)
      requires Valid()
      modifies this`pendingAgents
      ensures Valid()
      ensures pendingAgents == if pendingInstance.id in old(pendingAgents) then old(pendingAgents)
                               else old(pendingAgents)[pendingInstance.id := PendingAgent(pendingInstance, request)]
    {
      if pendingInstance.id !in pendingAgents {
        pendingAgents := pendingAgents[pendingInstance.id := PendingAgent(pendingInstance, request)];
      }
    }

    /** `getAgents`: every pending agent exactly once, in no particular order. */
    method GetAgents() returns (agents: seq<PendingAgent>)
      requires Valid()
      ensures |agents| == |pendingAgents|
      ensures forall id :: id in pendingAgents ==> pendingAgents[id] in agents
      ensures forall a :: a in agents ==> a.instance.id in pendingAgents && pendingAgents[a.instance.id] == a
      ensures forall i, j :: 0 <= i < j < |agents| ==> agents[i] != agents[j]
    {
      var pending := pendingAgents;
      assert forall k :: k in pending ==> pending[k].instance.id == k;
      agents := [];
      var todo := pending.Keys;
      while todo != {}
        invariant todo <= pending.Keys
        invariant CollectedOnce(pending, pending.Keys - todo, agents)
        decreases todo
      {
        var id :| id in todo;
        CollectOne(pending, pending.Keys - todo, agents, id);
        assert (pending.Keys - todo) + {id} == pending.Keys - (todo - {id});
        agents := agents + [pending[id]];
        todo := todo - {id};
      }
    }

    /** The first loop of `refreshAll`: every agent the GoCD server lists is
        no longer pending. */
    method Promote(agents: seq<Id>)
      requires Valid()
      modifies this`pendingAgents
      ensures Valid()
      ensures pendingAgents == old(pendingAgents) - (set a | a in agents)
    {
      var i := 0;
      while i < |agents|
        invariant 0 <= i <= |agents|
        invariant Valid()
        invariant pendingAgents == old(pendingAgents) - (set a | a in agents[..i])
      {
        ghost var before := agents[..i];
        ghost var after := agents[..i + 1];
        assert after == before + [agents[i]];
        assert (set a | a in after) == (set a | a in before) + {agents[i]};
        pendingAgents := pendingAgents - {agents[i]};
        i := i + 1;
      }
      assert agents[..i] == agents;
    }

    /** One step of the second loop of `refreshAll`, for the pending id `id`. */
    method SweepOne(id: Id, deleteErrors: bool, settings: PluginSettings, provider: Provider, now: int)
      returns (calls: seq<Call>)
      requires Valid()
      modifies this`pendingAgents, agentInstances`instances
      modifies settings`agentRegisterPeriod, settings`agentPendingRegisterTimeout
      ensures Valid()
      ensures settings.PendingRegisterPeriod() == old(settings.PendingRegisterPeriod())
      ensures var v := Classify(id, provider, old(agentInstances.instances), old(settings.PendingRegisterPeriod()), now);
              && pendingAgents == (if Kept(v) then old(pendingAgents) else old(pendingAgents) - {id})
              && agentInstances.instances ==
                   (if ShouldTerminate(v, deleteErrors) then old(agentInstances.instances) - {id}
                    else old(agentInstances.instances))
              && calls == (if ShouldTerminate(v, deleteErrors) && id in old(agentInstances.instances)
                           then [TerminateServer(id)] else [])
      ensures var before := (old(settings.agentRegisterPeriod), old(settings.agentPendingRegisterTimeout));
              (settings.agentRegisterPeriod, settings.agentPendingRegisterTimeout)
              == if ReadsPeriod(id, provider, old(agentInstances.instances))
                 then PeriodRead(before.0, before.1, old(settings.PendingRegisterPeriod())) else before
    {
      calls := [];
      var present := InstanceExists(provider, id);
      if present.Failure? {
        return;
      }
      if !present.value {
        pendingAgents := pendingAgents - {id};
        return;
      }
      var error := InErrorState(provider, id);
      if error.Failure? {
        return;
      }
      if error.value {
        pendingAgents := pendingAgents - {id};
        if deleteErrors {
          var outcome;
          outcome, calls := agentInstances.Terminate(id, provider);
        }
      } else {
        var timedOut := agentInstances.HasAgentRegisterTimedOut(settings, id, now);
        if timedOut == Success(true) {
          var outcome;
          outcome, calls := agentInstances.Terminate(id, provider);
        }
      }
    }

    /** The second loop of `refreshAll`: each pending id is classified once;
        vanished and ERROR entries are dropped, ERROR instances are
        terminated when the settings say so, timed-out instances are
        terminated but stay pending, and an exception only skips its entry. */
    method Sweep(settings: PluginSettings, provider: Provider, now: int) returns (terminations: seq<Call>)
      requires Valid()
      modifies this`pendingAgents, agentInstances`instances
      modifies settings`agentRegisterPeriod, settings`agentPendingRegisterTimeout
      ensures Valid()
      ensures settings.PendingRegisterPeriod() == old(settings.PendingRegisterPeriod())
      ensures var reg := old(agentInstances.instances);
              var period := old(settings.PendingRegisterPeriod());
              var gone := Terminated(old(pendingAgents).Keys, provider, reg, period, now,
                                     settings.GetOpenstackDeleteErrorInstances());
              && pendingAgents == SweptPending(old(pendingAgents), provider, reg, period, now)
              && agentInstances.instances == reg - gone
              && (forall c :: c in terminations <==> c.TerminateServer? && c.id in gone && c.id in reg)
              && Distinct(terminations)
      ensures PeriodsAfter(old(pendingAgents).Keys, provider, old(agentInstances.instances),
                           (old(settings.agentRegisterPeriod), old(settings.agentPendingRegisterTimeout)),
                           PeriodRead(old(settings.agentRegisterPeriod), old(settings.agentPendingRegisterTimeout),
                                      old(settings.PendingRegisterPeriod())),
                           (settings.agentRegisterPeriod, settings.agentPendingRegisterTimeout))
    {
      ghost var pending0 := pendingAgents;
      ghost var reg0 := agentInstances.instances;
      ghost var period := settings.PendingRegisterPeriod();
      var deleteErrors := settings.GetOpenstackDeleteErrorInstances();
      ghost var gone: set<Id> := {};
      ghost var before := (settings.agentRegisterPeriod, settings.agentPendingRegisterTimeout);
      ghost var after := PeriodRead(before.0, before.1, period);
      var todo := pendingAgents.Keys;
      terminations := [];
      while todo != {}
        invariant Valid()
        invariant settings.PendingRegisterPeriod() == period
        invariant SweepState(pending0, reg0, provider, period, now, deleteErrors,
                             todo, pendingAgents, agentInstances.instances, gone, terminations)
        invariant PeriodsAfter(pending0.Keys - todo, provider, reg0, before, after,
                               (settings.agentRegisterPeriod, settings.agentPendingRegisterTimeout))
        decreases todo
      {
        var id :| id in todo;
        SweepStateAt(pending0, reg0, provider, period, now, deleteErrors,
                     todo, pendingAgents, agentInstances.instances, gone, terminations, id);
        ghost var pendingBefore := pendingAgents;
        ghost var regBefore := agentInstances.instances;
        ghost var fields := (settings.agentRegisterPeriod, settings.agentPendingRegisterTimeout);
        var calls := SweepOne(id, deleteErrors, settings, provider, now);
        PeriodsAfterStep(pending0.Keys, todo, id, provider, reg0, regBefore, period, before, fields,
                         (settings.agentRegisterPeriod, settings.agentPendingRegisterTimeout));
        SweepStateStep(pending0, reg0, provider, period, now, deleteErrors,
                       todo, pendingBefore, regBefore, gone, terminations, id,
                       pendingAgents, agentInstances.instances, calls);
        if ShouldTerminate(Classify(id, provider, reg0, period, now), deleteErrors) {
          gone := gone + {id};
        }
        terminations := terminations + calls;
        todo := todo - {id};
      }
      SweepStateDone(pending0, reg0, provider, period, now, deleteErrors,
                     pendingAgents, agentInstances.instances, gone, terminations);
      assert pending0.Keys - todo == pending0.Keys;
    }

    /** `refreshAll` as written: the latch is set before the agent listing,
        and a listing that throws leaves it set. */
    method RefreshAll(agentsReply: Result<seq<Id>>, settings: PluginSettings, provider: Provider, now: int)
      returns (outcome: Outcome, issued: seq<Call>)
      requires Valid()
      modifies this, agentInstances`instances, settings`agentRegisterPeriod, settings`agentPendingRegisterTimeout
      ensures Valid()
      ensures old(refreshRunning) ==>
                outcome.Pass? && issued == [] && refreshRunning
                && pendingAgents == old(pendingAgents) && agentInstances.instances == old(agentInstances.instances)
      ensures !old(refreshRunning) && agentsReply.Failure? ==>
                outcome == Fail(agentsReply.error) && issued == [ListAgents] && refreshRunning
                && pendingAgents == old(pendingAgents) && agentInstances.instances == old(agentInstances.instances)
      ensures !old(refreshRunning) && agentsReply.Success? ==>
                var reg := old(agentInstances.instances);
                var period := old(settings.PendingRegisterPeriod());
                var promoted := old(pendingAgents) - (set a | a in agentsReply.value);
                var gone := Terminated(promoted.Keys, provider, reg, period, now, settings.GetOpenstackDeleteErrorInstances());
                && outcome.Pass? && !refreshRunning
                && pendingAgents == SweptPending(promoted, provider, reg, period, now)
                && agentInstances.instances == reg - gone
                && |issued| >= 1 && issued[0] == ListAgents
                && (forall c :: c in issued[1..] <==> c.TerminateServer? && c.id in gone && c.id in reg)
                && Distinct(issued[1..])
      ensures settings.PendingRegisterPeriod() == old(settings.PendingRegisterPeriod())
      ensures old(refreshRunning) || agentsReply.Failure? ==>
                settings.agentRegisterPeriod == old(settings.agentRegisterPeriod)
                && settings.agentPendingRegisterTimeout == old(settings.agentPendingRegisterTimeout)
      ensures !old(refreshRunning) && agentsReply.Success? ==>
                PeriodsAfter((old(pendingAgents) - (set a | a in agentsReply.value)).Keys, provider,
                             old(agentInstances.instances),
                             (old(settings.agentRegisterPeriod), old(settings.agentPendingRegisterTimeout)),
                             PeriodRead(old(settings.agentRegisterPeriod), old(settings.agentPendingRegisterTimeout),
                                        old(settings.PendingRegisterPeriod())),
                             (settings.agentRegisterPeriod, settings.agentPendingRegisterTimeout))
    {
      if refreshRunning {
        return Pass, [];
      }
      refreshRunning := true;
      issued := [ListAgents];
      if agentsReply.Failure? {
        return Fail(agentsReply.error), issued;
      }
      Promote(agentsReply.value);
      var terminations := Sweep(settings, provider, now);
      assert (issued + terminations)[1..] == terminations;
      issued := issued + terminations;
      refreshRunning := false;
      outcome := Pass;
    }

    /** `refreshAll` with the latch released on every exit, as a
        `try`/`finally` around the body would do; otherwise the same. */
    method RefreshAllReleasingLatch(agentsReply: Result<seq<Id>>, settings: PluginSettings, provider: Provider, now: int)
      returns (outcome: Outcome, issued: seq<Call>)
      requires Valid()
      modifies this, agentInstances`instances, settings`agentRegisterPeriod, settings`agentPendingRegisterTimeout
      ensures Valid()
      ensures refreshRunning == old(refreshRunning)
      ensures old(refreshRunning) ==>
                outcome.Pass? && issued == []
                && pendingAgents == old(pendingAgents) && agentInstances.instances == old(agentInstances.instances)
      ensures !old(refreshRunning) && agentsReply.Failure? ==>
                outcome == Fail(agentsReply.error) && issued == [ListAgents]
                && pendingAgents == old(pendingAgents) && agentInstances.instances == old(agentInstances.instances)
      ensures !old(refreshRunning) && agentsReply.Success? ==>
                var reg := old(agentInstances.instances);
                var period := old(settings.PendingRegisterPeriod());
                var promoted := old(pendingAgents) - (set a | a in agentsReply.value);
                var gone := Terminated(promoted.Keys, provider, reg, period, now, settings.GetOpenstackDeleteErrorInstances());
                && outcome.Pass?
                && pendingAgents == SweptPending(promoted, provider, reg, period, now)
                && agentInstances.instances == reg - gone
                && |issued| >= 1 && issued[0] == ListAgents
                && (forall c :: c in issued[1..] <==> c.TerminateServer? && c.id in gone && c.id in reg)
                && Distinct(issued[1..])
      ensures settings.PendingRegisterPeriod() == old(settings.PendingRegisterPeriod())
      ensures old(refreshRunning) || agentsReply.Failure? ==>
                settings.agentRegisterPeriod == old(settings.agentRegisterPeriod)
                && settings.agentPendingRegisterTimeout == old(settings.agentPendingRegisterTimeout)
      ensures !old(refreshRunning) && agentsReply.Success? ==>
                PeriodsAfter((old(pendingAgents) - (set a | a in agentsReply.value)).Keys, provider,
                             old(agentInstances.instances),
                             (old(settings.agentRegisterPeriod), old(settings.agentPendingRegisterTimeout)),
                             PeriodRead(old(settings.agentRegisterPeriod), old(settings.agentPendingRegisterTimeout),
                                        old(settings.PendingRegisterPeriod())),
                             (settings.agentRegisterPeriod, settings.agentPendingRegisterTimeout))
    {
      if refreshRunning {
        return Pass, [];
      }
      refreshRunning := true;
      issued := [ListAgents];
      if agentsReply.Failure? {
        refreshRunning := false;
        return Fail(agentsReply.error), issued;
      }
      Promote(agentsReply.value);
      var terminations := Sweep(settings, provider, now);
      assert (issued + terminations)[1..] == terminations;
      issued := issued + terminations;
      refreshRunning := false;
      outcome := Pass;
    }
  }

  /** As written, one failed agent listing disables the sweep for good: the
      next call, whatever the GoCD server answers, lists nothing and changes
      nothing. */
  method FailedListingDisablesSweep(service: PendingAgentsService, settings: PluginSettings, provider: Provider,
                                    now: int, nextReply: Result<seq<Id>>)
    returns (first: seq<Call>, second: seq<Call>)
    requires service.Valid() && !service.refreshRunning
    modifies service, service.agentInstances`instances, settings`agentRegisterPeriod, settings`agentPendingRegisterTimeout
    ensures first == [ListAgents] && second == []
    ensures service.refreshRunning
    ensures service.pendingAgents == old(service.pendingAgents)
  {
    var o1, o2;
    o1, first := service.RefreshAll(Failure(ServerRequestFailed), settings, provider, now);
    o2, second := service.RefreshAll(nextReply, settings, provider, now);
  }

  /** With the latch released, the next call after a failed listing lists
      the agents again. */
  method FailedListingThenRetry(service: PendingAgentsService, settings: PluginSettings, provider: Provider,
                                now: int, nextReply: Result<seq<Id>>)
    returns (first: seq<Call>, second: seq<Call>)
    requires service.Valid() && !service.refreshRunning
    modifies service, service.agentInstances`instances, settings`agentRegisterPeriod, settings`agentPendingRegisterTimeout
    ensures first == [ListAgents] && |second| >= 1 && second[0] == ListAgents
    ensures !service.refreshRunning
  {
    var o1, o2;
    o1, first := service.RefreshAllReleasingLatch(Failure(ServerRequestFailed), settings, provider, now);
    o2, second := service.RefreshAllReleasingLatch(nextReply, settings, provider, now);
  }
}
