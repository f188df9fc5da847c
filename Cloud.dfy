/** The world outside the core, reduced to values: the OpenStack servers the
    provider reports, the instances the plugin keeps, the calls it issues,
    and the "created + minutes strictly before now" rule that every
    expiry decision uses. */
module Cloud {
  import opened Base

  /** Provider-assigned opaque instance id (also the GoCD elastic agent id). */
  type Id = string

  /** Only ERROR matters to the core; every other OpenStack status is alike. */
  datatype Status = ErrorStatus | OtherStatus(name: string)

  /** An OpenStack server as the provider reports it. `environment` is the
      value of the environment metadata key (null when the key is absent);
      `created` is the creation time in milliseconds. */
  datatype Server = Server(
    id: Id,
    created: int,
    environment: Option<string>,
    status: Option<Status>,
    image: string,
    flavor: string)

  /** An elastic agent instance known to the plugin. */
  datatype Instance = Instance(
    id: Id,
    createdAt: int,
    environment: Option<string>,
    imageIdOrName: string,
    flavorIdOrName: string,
    maxCompletedJobs: Option<string>)

  /** The provider answering one call of the core. `servers` is what
      `servers().get(id)` returns (an id outside it is null); a call about an
      id in `unreachable` (get, delete or terminate) throws; `listing` is the
      answer to the prefix-filtered `servers().list(...)`, None when it throws. */
  datatype Provider = Provider(
    servers: map<Id, Server>,
    unreachable: set<Id>,
    listing: Option<seq<Server>>)

  /** The calls the core issues to the GoCD server and to the provider. */
  datatype Call =
    | ListAgents
    | ListServers(prefix: Option<string>)
    | DeleteServer(id: Id)
    | TerminateServer(id: Id)

  /** The instance built from a listed server, as `refreshAll` and
      `unregisteredAfterTimeout` build it (no job cap is attached). */
  function FromServer(s: Server): (inst: Instance)
    ensures inst.id == s.id && inst.createdAt == s.created && inst.environment == s.environment
  {
    Instance(s.id, s.created, s.environment, s.image, s.flavor, None)
  }

  const MillisPerMinute: int := 60_000

  /** `DateUtils.addMinutes(created, minutes).before(now)`. */
  predicate ExpiredAt(created: int, minutes: int, now: int) {
    created + minutes * MillisPerMinute < now
  }

  /** A deadline that has passed stays passed. */
  lemma ExpiredAtStaysExpired(created: int, minutes: int, now: int, later: int)
    requires ExpiredAt(created, minutes, now) && now <= later
    ensures ExpiredAt(created, minutes, later)
  {
  }

  /** `doesInstanceExist`: the provider's get returns non-null. */
  function InstanceExists(p: Provider, id: Id): (r: Result<bool>)
    ensures r.Failure? <==> id in p.unreachable
    ensures r.Success? ==> (r.value <==> id in p.servers)
  {
    if id in p.unreachable then Failure(ProviderCallFailed(id)) else Success(id in p.servers)
  }

  /** `isInstanceInErrorState`: the server exists and its status is ERROR. */
  function InErrorState(p: Provider, id: Id): (r: Result<bool>)
    ensures r.Failure? <==> id in p.unreachable
    ensures r.Success? ==> (r.value <==> id in p.servers && p.servers[id].status == Some(ErrorStatus))
  {
    if id in p.unreachable then Failure(ProviderCallFailed(id))
    else Success(id in p.servers && p.servers[id].status == Some(ErrorStatus))
  }

  /** Every entry is filed under its own id. */
  ghost predicate KeyedById(m: map<Id, Instance>) {
    forall id :: id in m ==> m[id].id == id
  }
}
