/** The instance registry `OpenStackInstances`: a map from instance id to
    instance, the one-shot cold-start reconciliation `refreshAll`, the reuse
    check, the register-timeout rule, and the two expiry sweeps (TTL of
    registered agents, abandoned servers past the minimum TTL). Each Java
    loop is a method proved against a recursive function over a prefix of its
    input; the properties the Java promises are lemmas about those
    functions. */
module Registry {
  import opened Base
  import opened Cloud
  import opened Settings
  import opened Matching

  // ---------------------------------------------------------------------
  // Reconciliation (refreshAll)
  // ---------------------------------------------------------------------

  /** The registry after registering, in order, every listed server that the
      GoCD server knows as an agent (last write wins). */
  function RegisterListed(reg: map<Id, Instance>, servers: seq<Server>, agents: seq<Id>): map<Id, Instance>
    decreases |servers|
  {
    if servers == [] then reg
    else
      var before := RegisterListed(reg, servers[..|servers| - 1], agents);
      var s := servers[|servers| - 1];
      if s.id in agents then before[s.id := FromServer(s)] else before
  }

  /** The provider deletes issued, in order, for listed servers that are not agents. */
  function Orphans(servers: seq<Server>, agents: seq<Id>): seq<Call>
    decreases |servers|
  {
    if servers == [] then []
    else
      var s := servers[|servers| - 1];
      Orphans(servers[..|servers| - 1], agents) + (if s.id in agents then [] else [DeleteServer(s.id)])
  }

  /** A listed server whose delete throws. */
  predicate DeleteFails(s: Server, agents: seq<Id>, unreachable: set<Id>) {
    s.id !in agents && s.id in unreachable
  }

  /** The index of the first listed server whose delete throws, or the
      length of the listing when none does. */
  function FirstFailingDelete(servers: seq<Server>, agents: seq<Id>, unreachable: set<Id>): (k: nat)
    ensures k <= |servers|
    ensures forall i :: 0 <= i < k ==> !DeleteFails(servers[i], agents, unreachable)
    ensures k < |servers| ==> DeleteFails(servers[k], agents, unreachable)
    decreases |servers|
  {
    if servers == [] then 0
    else if DeleteFails(servers[0], agents, unreachable) then 0
    else 1 + FirstFailingDelete(servers[1..], agents, unreachable)
  }

  /** Every listed server that is an agent ends up registered. */
  lemma {:induction false} ListedAgentsRegistered(reg: map<Id, Instance>, servers: seq<Server>, agents: seq<Id>)
    ensures forall i :: 0 <= i < |servers| && servers[i].id in agents ==>
              servers[i].id in RegisterListed(reg, servers, agents)
  {
    if servers != [] {
      var n := |servers| - 1;
      ListedAgentsRegistered(reg, servers[..n], agents);
      assert forall i :: 0 <= i < n ==> servers[..n][i] == servers[i];
    }
  }

  /** A listed agent is registered with what its last listing reports. */
  lemma {:induction false} LastListingWins(reg: map<Id, Instance>, servers: seq<Server>, agents: seq<Id>, i: nat)
    requires i < |servers| && servers[i].id in agents
    requires forall j :: i < j < |servers| ==> servers[j].id != servers[i].id
    ensures servers[i].id in RegisterListed(reg, servers, agents)
    ensures RegisterListed(reg, servers, agents)[servers[i].id] == FromServer(servers[i])
  {
    var n := |servers| - 1;
    if i < n {
      assert servers[..n][i] == servers[i];
      assert forall j :: i < j < n ==> servers[..n][j] == servers[j];
      LastListingWins(reg, servers[..n], agents, i);
    }
  }

  /** Ids that are not agents, or not listed, keep their registry entry (or
      their absence). */
  lemma {:induction false} UnaffectedIdsKept(reg: map<Id, Instance>, servers: seq<Server>, agents: seq<Id>, id: Id)
    requires id !in agents || forall i :: 0 <= i < |servers| ==> servers[i].id != id
    ensures id in RegisterListed(reg, servers, agents) <==> id in reg
    ensures id in reg ==> RegisterListed(reg, servers, agents)[id] == reg[id]
  {
    if servers != [] {
      var n := |servers| - 1;
      assert forall i :: 0 <= i < n ==> servers[..n][i] == servers[i];
      UnaffectedIdsKept(reg, servers[..n], agents, id);
    }
  }

  /** Deletes are issued for exactly the listed servers that are not agents. */
  lemma {:induction false} OrphansAreTheListedNonAgents(servers: seq<Server>, agents: seq<Id>)
    ensures forall i :: 0 <= i < |servers| && servers[i].id !in agents ==>
              DeleteServer(servers[i].id) in Orphans(servers, agents)
    ensures forall c :: c in Orphans(servers, agents) ==>
              c.DeleteServer? && c.id !in agents && exists i :: 0 <= i < |servers| && servers[i].id == c.id
  {
    if servers != [] {
      var n := |servers| - 1;
      OrphansAreTheListedNonAgents(servers[..n], agents);
      assert forall i :: 0 <= i < n ==> servers[..n][i] == servers[i];
    }
  }

  /** No listed server is both registered and deleted by one reconciliation. */
  lemma RegisteredAndDeletedAreDisjoint(reg: map<Id, Instance>, servers: seq<Server>, agents: seq<Id>, id: Id)
    requires DeleteServer(id) in Orphans(servers, agents)
    ensures id in RegisterListed(reg, servers, agents) <==> id in reg
    ensures id in reg ==> RegisterListed(reg, servers, agents)[id] == reg[id]
  {
    OrphansAreTheListedNonAgents(servers, agents);
    UnaffectedIdsKept(reg, servers, agents, id);
  }

  lemma {:induction false} RegisterListedKeepsKeying(reg: map<Id, Instance>, servers: seq<Server>, agents: seq<Id>)
    requires KeyedById(reg)
    ensures KeyedById(RegisterListed(reg, servers, agents))
  {
    if servers != [] {
      RegisterListedKeepsKeying(reg, servers[..|servers| - 1], agents);
    }
  }

  // ---------------------------------------------------------------------
  // TTL of registered agents (instancesCreatedAfterTTL)
  // ---------------------------------------------------------------------

  /** No call is issued twice. */
  predicate Distinct(calls: seq<Call>) {
    forall a, b :: 0 <= a < b < |calls| ==> calls[a] != calls[b]
  }

  /** The registry `reg` has lost exactly the `gone` ids of `reg0`, and each
      of them that was registered got exactly one terminate call. */
  ghost predicate TerminatedExactly(reg0: map<Id, Instance>, gone: set<Id>, reg: map<Id, Instance>, terminations: seq<Call>) {
    && reg == reg0 - gone
    && (forall c :: c in terminations <==> c.TerminateServer? && c.id in gone && c.id in reg0)
    && Distinct(terminations)
  }

  /** Appending a terminate for a fresh id keeps the calls distinct. */
  lemma DistinctAfterTerminate(calls: seq<Call>, more: seq<Call>, id: Id)
    requires Distinct(calls) && forall c :: c in calls ==> c != TerminateServer(id)
    requires more == [] || more == [TerminateServer(id)]
    ensures Distinct(calls + more)
  {
    var s := calls + more;
    forall a, b | 0 <= a < b < |s|
      ensures s[a] != s[b]
    {
      assert s[a] == calls[a] && calls[a] in calls;
      if b < |calls| {
        assert s[b] == calls[b];
      }
    }
  }

  /** Terminating one more id (when `stop`) keeps the accounting exact. */
  lemma TerminateStep(reg0: map<Id, Instance>, gone: set<Id>, reg: map<Id, Instance>, terminations: seq<Call>,
                      id: Id, stop: bool)
    requires TerminatedExactly(reg0, gone, reg, terminations) && id !in gone
    ensures TerminatedExactly(reg0, if stop then gone + {id} else gone,
                              if stop then reg - {id} else reg,
                              terminations + (if stop && id in reg then [TerminateServer(id)] else []))
  {
    var calls := if stop && id in reg then [TerminateServer(id)] else [];
    assert forall c :: c in terminations ==> c != TerminateServer(id);
    DistinctAfterTerminate(terminations, calls, id);
    if stop {
      assert reg - {id} == reg0 - (gone + {id});
    }
  }

  /** The agents, in input order, that are in the registry and whose TTL
      (the i-th draw for the i-th agent) has passed. */
  function ExpiredAgents(reg: map<Id, Instance>, agents: seq<Id>, ttls: seq<int>, now: int): seq<Id>
    requires |ttls| == |agents|
    decreases |agents|
  {
    if agents == [] then []
    else
      var n := |agents| - 1;
      var id := agents[n];
      ExpiredAgents(reg, agents[..n], ttls[..n], now)
        + (if id in reg && ExpiredAt(reg[id].createdAt, ttls[n], now) then [id] else [])
  }

  /** `r` is `s` with some elements left out, the rest kept in order. */
  predicate IsSubsequence(r: seq<Id>, s: seq<Id>)
    decreases |s|
  {
    if s == [] then r == []
    else
      IsSubsequence(r, s[..|s| - 1])
      || (r != [] && r[|r| - 1] == s[|s| - 1] && IsSubsequence(r[..|r| - 1], s[..|s| - 1]))
  }

  /** An agent is reported exactly when one of its positions in the input
      names a registered instance whose TTL draw has passed. */
  lemma {:induction false} ExpiredAgentsMembers(reg: map<Id, Instance>, agents: seq<Id>, ttls: seq<int>, now: int)
    requires |ttls| == |agents|
    ensures forall x :: x in ExpiredAgents(reg, agents, ttls, now) <==>
              exists i :: 0 <= i < |agents| && agents[i] == x && x in reg && ExpiredAt(reg[x].createdAt, ttls[i], now)
  {
    if agents != [] {
      var n := |agents| - 1;
      ExpiredAgentsMembers(reg, agents[..n], ttls[..n], now);
      assert forall i :: 0 <= i < n ==> agents[..n][i] == agents[i] && ttls[..n][i] == ttls[i];
    }
  }

  /** Agents absent from the registry are never reported. */
  lemma UnknownAgentsNeverExpire(reg: map<Id, Instance>, agents: seq<Id>, ttls: seq<int>, now: int, x: Id)
    requires |ttls| == |agents| && x !in reg
    ensures x !in ExpiredAgents(reg, agents, ttls, now)
  {
    ExpiredAgentsMembers(reg, agents, ttls, now);
  }

  /** The report keeps the input order. */
  lemma {:induction false} ExpiredAgentsInOrder(reg: map<Id, Instance>, agents: seq<Id>, ttls: seq<int>, now: int)
    requires |ttls| == |agents|
    ensures IsSubsequence(ExpiredAgents(reg, agents, ttls, now), agents)
  {
    if agents != [] {
      var n := |agents| - 1;
      ExpiredAgentsInOrder(reg, agents[..n], ttls[..n], now);
      var e := ExpiredAgents(reg, agents, ttls, now);
      var e0 := ExpiredAgents(reg, agents[..n], ttls[..n], now);
      if e != e0 {
        assert e[..|e| - 1] == e0;
      }
    }
  }

  /** The report only grows as time goes on: an agent reported at `now` is
      reported at every later time, with the same TTL draws. */
  lemma ExpiredAgentsGrowWithTime(reg: map<Id, Instance>, agents: seq<Id>, ttls: seq<int>, now: int, later: int)
    requires |ttls| == |agents| && now <= later
    ensures forall x :: x in ExpiredAgents(reg, agents, ttls, now) ==> x in ExpiredAgents(reg, agents, ttls, later)
  {
    ExpiredAgentsMembers(reg, agents, ttls, now);
    ExpiredAgentsMembers(reg, agents, ttls, later);
    forall x | x in ExpiredAgents(reg, agents, ttls, now)
      ensures x in ExpiredAgents(reg, agents, ttls, later)
    {
      var i :| 0 <= i < |agents| && agents[i] == x && x in reg && ExpiredAt(reg[x].createdAt, ttls[i], now);
      ExpiredAtStaysExpired(reg[x].createdAt, ttls[i], now, later);
    }
  }

  /** A ten-minute TTL: an instance created at t is reported at t + 11
      minutes and not at t + 9 minutes. */
  lemma TenMinuteTTL(reg: map<Id, Instance>, id: Id, t: int)
    requires id in reg && reg[id].createdAt == t
    ensures ExpiredAgents(reg, [id], [10], t + 11 * MillisPerMinute) == [id]
    ensures ExpiredAgents(reg, [id], [10], t + 9 * MillisPerMinute) == []
  {
    assert [id][..0] == [];
    assert [10][..0] == [];
  }

  // ---------------------------------------------------------------------
  // Abandoned servers (unregisteredAfterTimeout)
  // ---------------------------------------------------------------------

  /** The abandoned-server scan over a listing, in order: known agents are
      skipped, an existence check that throws ends the scan with that
      exception, servers that no longer exist are skipped, and the rest are
      collected when the fixed minimum TTL has passed. */
  function Abandoned(servers: seq<Server>, known: seq<Id>, p: Provider, ttlMin: int, now: int): Result<map<Id, Instance>>
    decreases |servers|
  {
    if servers == [] then Success(map[])
    else
      match Abandoned(servers[..|servers| - 1], known, p, ttlMin, now)
      case Failure(e) => Failure(e)
      case Success(m) =>
        var s := servers[|servers| - 1];
        if s.id in known then Success(m)
        else
          match InstanceExists(p, s.id)
          case Failure(e) => Failure(e)
          case Success(present) =>
            if present && ExpiredAt(s.created, ttlMin, now) then Success(m[s.id := FromServer(s)])
            else Success(m)
  }

  lemma {:induction false} AbandonedFailureSticks(servers: seq<Server>, k: nat, known: seq<Id>, p: Provider, ttlMin: int, now: int)
    requires k <= |servers| && Abandoned(servers[..k], known, p, ttlMin, now).Failure?
    ensures Abandoned(servers, known, p, ttlMin, now) == Abandoned(servers[..k], known, p, ttlMin, now)
    decreases |servers| - k
  {
    if k < |servers| {
      var n := |servers| - 1;
      assert servers[..n][..k] == servers[..k];
      AbandonedFailureSticks(servers[..n], k, known, p, ttlMin, now);
    } else {
      assert servers[..k] == servers;
    }
  }

  /** Every flagged entry is a listed server with its id, built from one of
      the listings of that id (the last one that passed the checks). */
  lemma {:induction false} AbandonedFromListing(servers: seq<Server>, known: seq<Id>, p: Provider, ttlMin: int, now: int)
    ensures var r := Abandoned(servers, known, p, ttlMin, now);
      r.Success? ==> forall id :: id in r.value ==>
        exists i :: 0 <= i < |servers| && servers[i].id == id && r.value[id] == FromServer(servers[i])
  {
    if servers != [] {
      var n := |servers| - 1;
      var init := servers[..n];
      AbandonedFromListing(init, known, p, ttlMin, now);
      var r := Abandoned(servers, known, p, ttlMin, now);
      var r0 := Abandoned(init, known, p, ttlMin, now);
      if r.Success? {
        assert r0.Success?;
        forall id | id in r.value
          ensures exists i :: 0 <= i < |servers| && servers[i].id == id && r.value[id] == FromServer(servers[i])
        {
          if id == servers[n].id && r.value[id] == FromServer(servers[n]) {
            assert servers[n].id == id;
          } else {
            assert id in r0.value && r.value[id] == r0.value[id];
            var i :| 0 <= i < |init| && init[i].id == id && r0.value[id] == FromServer(init[i]);
            assert servers[i] == init[i];
          }
        }
      }
    }
  }

  /** The scan fails exactly when some listed server that is not a known
      agent cannot be checked; otherwise it flags exactly the listed servers
      that are not known agents, still exist and are older than the minimum
      TTL, each under its own id and with the same fixed TTL for all. */
  lemma {:induction false} AbandonedSpec(servers: seq<Server>, known: seq<Id>, p: Provider, ttlMin: int, now: int)
    ensures var r := Abandoned(servers, known, p, ttlMin, now);
      && (r.Failure? <==> exists i :: 0 <= i < |servers| && servers[i].id !in known && servers[i].id in p.unreachable)
      && (r.Success? ==> (forall id :: id in r.value ==>
            && r.value[id].id == id && id !in known && id in p.servers && id !in p.unreachable
            && ExpiredAt(r.value[id].createdAt, ttlMin, now)))
      && (r.Success? ==> (forall i ::
            0 <= i < |servers| && servers[i].id !in known
            && servers[i].id in p.servers && ExpiredAt(servers[i].created, ttlMin, now)
            ==> servers[i].id in r.value))
      && (r.Success? ==> forall id :: id in r.value ==>
            exists i :: 0 <= i < |servers| && servers[i].id == id && r.value[id] == FromServer(servers[i]))
  {
    AbandonedFromListing(servers, known, p, ttlMin, now);
    if servers != [] {
      var n := |servers| - 1;
      var init := servers[..n];
      AbandonedSpec(init, known, p, ttlMin, now);
      assert forall i :: 0 <= i < n ==> init[i] == servers[i];
    }
  }

  // ---------------------------------------------------------------------
  // Register timeout of a pending agent (hasAgentRegisterTimedOut)
  // ---------------------------------------------------------------------

  /** `hasAgentRegisterTimedOut` given the period the settings answer with:
      false for ids not in the registry, otherwise whether the creation time
      plus the period lies strictly before now. */
  function RegisterTimedOut(reg: map<Id, Instance>, id: Id, period: Result<int>, now: int): (r: Result<bool>)
    ensures id !in reg ==> r == Success(false)
    ensures id in reg && period.Failure? ==> r == Failure(period.error)
    ensures id in reg && period.Success? ==>
              r == Success(reg[id].createdAt + period.value * MillisPerMinute < now)
  {
    if id !in reg then Success(false)
    else
      match period
      case Failure(e) => Failure(e)
      case Success(minutes) => Success(ExpiredAt(reg[id].createdAt, minutes, now))
  }

  /** Once timed out, an agent stays timed out as time goes on. */
  lemma RegisterTimeoutIsMonotone(reg: map<Id, Instance>, id: Id, period: Result<int>, now: int, later: int)
    requires RegisterTimedOut(reg, id, period, now) == Success(true) && now <= later
    ensures RegisterTimedOut(reg, id, period, later) == Success(true)
  {
    ExpiredAtStaysExpired(reg[id].createdAt, period.value, now, later);
  }

  // ---------------------------------------------------------------------
  // The registry object
  // ---------------------------------------------------------------------

  class OpenStackInstances {
    var instances: map<Id, Instance>
    /** Latch of the one-shot reconciliation; never reset. */
    var refreshed: bool

    ghost predicate Valid()
      reads this
    {
      KeyedById(instances)
    }

    constructor ()
      ensures Valid() && instances == map[] && !refreshed
    {
      instances := map[];
      refreshed := false;
    }

    /** `find`: the registered instance, or null. */
    function Find(id: Id): (r: Option<Instance>)
      reads this
      ensures r.Some? <==> id in instances
      ensures r.Some? ==> r.value == instances[id]
      ensures Valid() && r.Some? ==> r.value.id == id
    {
      if id in instances then Some(instances[id]) else None
    }

    function HasInstance(id: Id): (r: bool)
      reads this
      ensures r <==> id in instances
    {
      Find(id).Some?
    }

    /** `register`: upsert by id, last write wins, other ids untouched. */
    method Register(inst: Instance)
      requires Valid()
      modifies this`instances
      ensures Valid()
      ensures instances == old(instances)[inst.id := inst]
      ensures Find(inst.id) == Some(inst)
      ensures forall id :: id != inst.id ==> Find(id) == old(Find(id))
    {
      instances := instances[inst.id := inst];
    }

    /** `refresh`: fetches and registers the instance only when its id is
        absent; an existing entry is never replaced. */
    method Refresh(id: Id, provider: Provider) returns (outcome: Outcome)
      requires Valid()
      modifies this`instances
      ensures Valid()
      ensures old(id in instances) ==> outcome.Pass? && instances == old(instances)
      ensures !old(id in instances) && id in provider.unreachable ==>
                outcome == Fail(ProviderCallFailed(id)) && instances == old(instances)
      ensures !old(id in instances) && id !in provider.unreachable && id !in provider.servers ==>
                outcome == Fail(InstanceNotFound(id)) && instances == old(instances)
      ensures !old(id in instances) && id !in provider.unreachable && id in provider.servers ==>
                var s := provider.servers[id];
                outcome.Pass?
                && instances == old(instances)[id := Instance(id, s.created, s.environment, s.image, s.flavor, None)]
    {
      if id !in instances {
        if id in provider.unreachable {
          return Fail(ProviderCallFailed(id));
        }
        if id !in provider.servers {
          return Fail(InstanceNotFound(id));
        }
        var s := provider.servers[id];
        Register(Instance(id, s.created, s.environment, s.image, s.flavor, None));
      }
      outcome := Pass;
    }

    /** `terminate`: a provider terminate is issued only for a registered id;
        the id is then removed, unless the terminate threw. */
    method Terminate(id: Id, provider: Provider) returns (outcome: Outcome, issued: seq<Call>)
      requires Valid()
      modifies this`instances
      ensures Valid()
      ensures issued == if id in old(instances) then [TerminateServer(id)] else []
      ensures outcome.Fail? <==> id in old(instances) && id in provider.unreachable
      ensures outcome.Pass? ==> instances == old(instances) - {id} && id !in instances
      ensures outcome.Fail? ==> outcome.error == ProviderCallFailed(id) && instances == old(instances)
    {
      issued := [];
      if id in instances {
        issued := [TerminateServer(id)];
        if id in provider.unreachable {
          return Fail(ProviderCallFailed(id)), issued;
        }
      }
      instances := instances - {id};
      outcome := Pass;
    }

    /** The loop of `refreshAll` over the listing: agents are registered,
        other servers deleted, up to and including the first delete that
        throws. */
    method Reconcile(servers: seq<Server>, agents: seq<Id>, provider: Provider) returns (failed: Option<Id>, deletes: seq<Call>)
      requires Valid()
      modifies this`instances
      ensures Valid()
      ensures var k := FirstFailingDelete(servers, agents, provider.unreachable);
                && instances == RegisterListed(old(instances), servers[..k], agents)
                && deletes == Orphans(servers[..if k < |servers| then k + 1 else k], agents)
                && (failed.None? <==> k == |servers|)
                && (k < |servers| ==> failed == Some(servers[k].id))
    {
      ghost var k := FirstFailingDelete(servers, agents, provider.unreachable);
      ghost var reg0 := instances;
      deletes := [];
      var i := 0;
      while i < |servers|
        invariant 0 <= i <= k
        invariant Valid()
        invariant instances == RegisterListed(reg0, servers[..i], agents)
        invariant deletes == Orphans(servers[..i], agents)
      {
        var s := servers[i];
        assert servers[..i + 1][..i] == servers[..i];
        if s.id in agents {
          Register(FromServer(s));
        } else {
          deletes := deletes + [DeleteServer(s.id)];
          if s.id in provider.unreachable {
            assert DeleteFails(servers[i], agents, provider.unreachable);
            assert i == k;
            return Some(s.id), deletes;
          }
        }
        assert !DeleteFails(servers[i], agents, provider.unreachable);
        i := i + 1;
      }
      assert servers[..i] == servers;
      failed := None;
    }

    /** `refreshAll`: once per lifetime, and only with settings present, lists
        the agents and the prefix-matching servers, registers the servers
        that are agents and deletes the others, then sets the latch. A delete
        that throws ends the pass with the latch still clear. */
    method RefreshAll(settings: PluginSettings, settingsEmpty: bool, agentsReply: Result<seq<Id>>, provider: Provider)
      returns (outcome: Outcome, issued: seq<Call>)
      requires Valid()
      modifies this
      ensures Valid()
      ensures old(refreshed) ==> outcome.Pass? && issued == [] && instances == old(instances) && refreshed
      ensures !old(refreshed) && settingsEmpty ==>
                outcome.Pass? && issued == [] && instances == old(instances) && !refreshed
      ensures !old(refreshed) && !settingsEmpty && agentsReply.Failure? ==>
                outcome == Fail(agentsReply.error) && issued == [ListAgents]
                && instances == old(instances) && !refreshed
      ensures !old(refreshed) && !settingsEmpty && agentsReply.Success? && provider.listing.None? ==>
                outcome == Fail(ListingFailed) && issued == [ListAgents, ListServers(settings.openstackVmPrefix)]
                && instances == old(instances) && !refreshed
      ensures !old(refreshed) && !settingsEmpty && agentsReply.Success? && provider.listing.Some? ==>
                var servers := provider.listing.value;
                var agents := agentsReply.value;
                var k := FirstFailingDelete(servers, agents, provider.unreachable);
                && instances == RegisterListed(old(instances), servers[..k], agents)
                && issued == [ListAgents, ListServers(settings.openstackVmPrefix)]
                              + Orphans(servers[..if k < |servers| then k + 1 else k], agents)
                && (refreshed <==> k == |servers|)
                && (outcome.Pass? <==> k == |servers|)
                && (k < |servers| ==> outcome == Fail(ProviderCallFailed(servers[k].id)))
    {
      if refreshed || settingsEmpty {
        return Pass, [];
      }
      issued := [ListAgents];
      if agentsReply.Failure? {
        return Fail(agentsReply.error), issued;
      }
      issued := issued + [ListServers(settings.openstackVmPrefix)];
      if provider.listing.None? {
        return Fail(ListingFailed), issued;
      }
      var servers := provider.listing.value;
      var failed, deletes := Reconcile(servers, agentsReply.value, provider);
      issued := issued + deletes;
      if failed.Some? {
        return Fail(ProviderCallFailed(failed.value)), issued;
      }
      refreshed := true;
      outcome := Pass;
    }

    /** `matchInstance`: the staged reuse check on the registered instance;
        an unknown id never matches and resolves nothing. */
    function MatchInstance(id: Id, req: Request, res: Resolver): (d: Decision)
      reads this
      ensures id !in instances ==> !d.matched && d.lookups == []
      ensures id in instances ==> (d.matched <==>
                EnvironmentsMatch(req.environment, instances[id].environment)
                && ImageAccepted(req, instances[id], res) && FlavorAccepted(req, instances[id], res))
    {
      if id in instances then MatchExactlyWhenAllStagesAccept(instances[id], req, res); MatchFound(Find(id), req, res)
      else MatchFound(Find(id), req, res)
    }

    /** `hasAgentRegisterTimedOut`: the settings are asked for the period
        (and memoise it) only for a registered id. */
    method HasAgentRegisterTimedOut(settings: PluginSettings, id: Id, now: int) returns (r: Result<bool>)
      modifies settings`agentRegisterPeriod, settings`agentPendingRegisterTimeout
      ensures r == RegisterTimedOut(instances, id, old(settings.PendingRegisterPeriod()), now)
      ensures settings.PendingRegisterPeriod() == old(settings.PendingRegisterPeriod())
      ensures id !in instances ==>
                settings.agentRegisterPeriod == old(settings.agentRegisterPeriod)
                && settings.agentPendingRegisterTimeout == old(settings.agentPendingRegisterTimeout)
      ensures id in instances ==>
                (settings.agentRegisterPeriod, settings.agentPendingRegisterTimeout)
                == PeriodRead(old(settings.agentRegisterPeriod), old(settings.agentPendingRegisterTimeout),
                             old(settings.PendingRegisterPeriod()))
    {
      if id !in instances {
        return Success(false);
      }
      var period := settings.GetAgentPendingRegisterPeriod();
      match period {
        case Failure(e) =>
          r := Failure(e);
        case Success(minutes) =>
          r := Success(ExpiredAt(instances[id].createdAt, minutes, now));
      }
    }

    /** The loop of `instancesCreatedAfterTTL`; `ttls[i]` is the TTL drawn for
        the i-th agent. */
    method CreatedAfterTTL(agents: seq<Id>, ttls: seq<int>, now: int) returns (expired: seq<Id>)
      requires |ttls| == |agents|
      ensures expired == ExpiredAgents(instances, agents, ttls, now)
    {
      expired := [];
      for i := 0 to |agents|
        invariant expired == ExpiredAgents(instances, agents[..i], ttls[..i], now)
      {
        assert agents[..i + 1][..i] == agents[..i];
        assert ttls[..i + 1][..i] == ttls[..i];
        var id := agents[i];
        if id in instances && ExpiredAt(instances[id].createdAt, ttls[i], now) {
          expired := expired + [id];
        }
      }
      assert agents[..|agents|] == agents;
      assert ttls[..|ttls|] == ttls;
    }

    /** `instancesCreatedAfterTTL`: asking the settings for the TTL-min period
        first (which throws on a malformed value), then the loop. */
    method InstancesCreatedAfterTTL(settings: PluginSettings, agents: seq<Id>, ttls: seq<int>, now: int)
      returns (r: Result<seq<Id>>)
      requires |ttls| == |agents|
      modifies settings`agentTTLMinPeriod, settings`agentTTLMin
      ensures old(settings.TTLMinPeriod()).Failure? ==> r == Failure(old(settings.TTLMinPeriod()).error)
      ensures old(settings.TTLMinPeriod()).Success? ==> r == Success(ExpiredAgents(instances, agents, ttls, now))
      ensures settings.TTLMinPeriod() == old(settings.TTLMinPeriod())
      ensures (settings.agentTTLMinPeriod, settings.agentTTLMin)
              == PeriodRead(old(settings.agentTTLMinPeriod), old(settings.agentTTLMin), old(settings.TTLMinPeriod()))
    {
      var period := settings.GetAgentTTLMinPeriod();
      if period.Failure? {
        return Failure(period.error);
      }
      var expired := CreatedAfterTTL(agents, ttls, now);
      r := Success(expired);
    }

    /** The loop of `unregisteredAfterTimeout` over the listed servers. */
    method Unregistered(servers: seq<Server>, known: seq<Id>, provider: Provider, ttlMin: int, now: int)
      returns (r: Result<map<Id, Instance>>)
      ensures r == Abandoned(servers, known, provider, ttlMin, now)
    {
      var found: map<Id, Instance> := map[];
      var i := 0;
      while i < |servers|
        invariant 0 <= i <= |servers|
        invariant Abandoned(servers[..i], known, provider, ttlMin, now) == Success(found)
      {
        var s := servers[i];
        assert servers[..i + 1][..i] == servers[..i];
        if s.id !in known {
          var present := InstanceExists(provider, s.id);
          if present.Failure? {
            AbandonedFailureSticks(servers, i + 1, known, provider, ttlMin, now);
            return Failure(present.error);
          }
          if present.value && ExpiredAt(s.created, ttlMin, now) {
            found := found[s.id := FromServer(s)];
          }
        }
        i := i + 1;
      }
      assert servers[..i] == servers;
      r := Success(found);
    }

    /** `unregisteredAfterTimeout`: the TTL-min period, then the prefix
        listing, then the scan. */
    method UnregisteredAfterTimeout(settings: PluginSettings, known: seq<Id>, provider: Provider, now: int)
      returns (r: Result<map<Id, Instance>>, issued: seq<Call>)
      modifies settings`agentTTLMinPeriod, settings`agentTTLMin
      ensures settings.TTLMinPeriod() == old(settings.TTLMinPeriod())
      ensures settings.openstackVmPrefix == old(settings.openstackVmPrefix)
      ensures (settings.agentTTLMinPeriod, settings.agentTTLMin)
              == PeriodRead(old(settings.agentTTLMinPeriod), old(settings.agentTTLMin), old(settings.TTLMinPeriod()))
      ensures old(settings.TTLMinPeriod()).Failure? ==>
                r == Failure(old(settings.TTLMinPeriod()).error) && issued == []
      ensures old(settings.TTLMinPeriod()).Success? ==>
                issued == [ListServers(settings.openstackVmPrefix)]
                && (provider.listing.None? ==> r == Failure(ListingFailed))
                && (provider.listing.Some? ==>
                      r == Abandoned(provider.listing.value, known, provider, old(settings.TTLMinPeriod()).value, now))
    {
      var prefix := settings.openstackVmPrefix;
      var period := settings.GetAgentTTLMinPeriod();
      if period.Failure? {
        return Failure(period.error), [];
      }
      issued := [ListServers(prefix)];
      if provider.listing.None? {
        return Failure(ListingFailed), issued;
      }
      r := Unregistered(provider.listing.value, known, provider, period.value, now);
    }

    /** The loop of `terminateUnregisteredInstances`: terminates every id of
        `ids`, in no particular order. The ids come from the abandoned-server
        scan, which has just reached each of them at the provider. */
    method TerminateAll(ids: set<Id>, provider: Provider) returns (issued: seq<Call>)
      requires Valid() && ids !! provider.unreachable
      modifies this`instances
      ensures Valid()
      ensures instances == old(instances) - ids
      ensures forall c :: c in issued <==> c.TerminateServer? && c.id in ids && c.id in old(instances)
      ensures Distinct(issued)
    {
      ghost var reg0 := instances;
      issued := [];
      var todo := ids;
      while todo != {}
        invariant todo <= ids
        invariant Valid()
        invariant TerminatedExactly(reg0, ids - todo, instances, issued)
        decreases todo
      {
        var id :| id in todo;
        TerminateStep(reg0, ids - todo, instances, issued, id, true);
        assert (ids - todo) + {id} == ids - (todo - {id});
        var outcome, calls := Terminate(id, provider);
        issued := issued + calls;
        todo := todo - {id};
      }
    }

    /** `terminateUnregisteredInstances`: terminates every abandoned server
        the scan flags that is also registered here; nothing else changes. */
    method TerminateUnregisteredInstances(settings: PluginSettings, known: seq<Id>, provider: Provider, now: int)
      returns (outcome: Outcome, issued: seq<Call>)
      requires Valid()
      modifies this`instances, settings`agentTTLMinPeriod, settings`agentTTLMin
      ensures Valid()
      ensures settings.TTLMinPeriod() == old(settings.TTLMinPeriod())
      ensures (settings.agentTTLMinPeriod, settings.agentTTLMin)
              == PeriodRead(old(settings.agentTTLMinPeriod), old(settings.agentTTLMin), old(settings.TTLMinPeriod()))
      ensures old(settings.TTLMinPeriod()).Failure? ==>
                outcome == Fail(old(settings.TTLMinPeriod()).error) && issued == [] && instances == old(instances)
      ensures old(settings.TTLMinPeriod()).Success? && provider.listing.None? ==>
                outcome == Fail(ListingFailed) && instances == old(instances)
                && issued == [ListServers(old(settings.openstackVmPrefix))]
      ensures old(settings.TTLMinPeriod()).Success? && provider.listing.Some? ==>
                var scan := Abandoned(provider.listing.value, known, provider, old(settings.TTLMinPeriod()).value, now);
                && (scan.Failure? ==>
                      outcome == Fail(scan.error) && instances == old(instances)
                      && issued == [ListServers(old(settings.openstackVmPrefix))])
                && (scan.Success? ==>
                      && outcome.Pass?
                      && instances == old(instances) - scan.value.Keys
                      && |issued| >= 1 && issued[0] == ListServers(old(settings.openstackVmPrefix))
                      && (forall c :: c in issued[1..] <==>
                            c.TerminateServer? && c.id in scan.value && c.id in old(instances))
                      && Distinct(issued[1..]))
    {
      var toTerminate;
      toTerminate, issued := UnregisteredAfterTimeout(settings, known, provider, now);
      if toTerminate.Failure? {
        return Fail(toTerminate.error), issued;
      }
      AbandonedSpec(provider.listing.value, known, provider, old(settings.TTLMinPeriod()).value, now);
      var terminated := TerminateAll(toTerminate.value.Keys, provider);
      assert (issued + terminated)[1..] == terminated;
      issued := issued + terminated;
      outcome := Pass;
    }
  }
}
