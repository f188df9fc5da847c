# OpenStack elastic agents: fleet bookkeeping

A Dafny model of the bookkeeping at the centre of the GoCD OpenStack
elastic-agent plugin. It covers three classes:

- `OpenStackInstances` is the registry of elastic agent instances, keyed by
  instance id. It covers upsert, insert-if-absent refresh and terminate. It
  also covers the one-shot cold-start reconciliation (`refreshAll`), the
  staged reuse check (`matchInstance`), and the three "created + minutes
  strictly before now" rules. Those rules are the register timeout, the TTL
  of registered agents and the abandoned-server scan.
- `PendingAgentsService` holds the agents created on OpenStack that have not
  yet registered with the GoCD server. Its `refreshAll` sweep is guarded by a
  skip-if-running flag. It promotes registered agents, then classifies every
  remaining entry: vanished, then ERROR, then timed out, then still pending.
- `PluginSettings` holds the plugin's settings. Its getters write defaults
  back into null fields, and its two timeout periods are computed once and
  kept.

The world outside these classes is reduced to values:

- The OpenStack provider is a fixed `Cloud.Provider` for the duration of one
  call. It has a map answering `servers().get(id)`, a set of ids whose
  get/delete/terminate calls throw, and the answer to the prefix listing,
  which is None when the listing throws.
- The calls that change something or list something come back as a returned
  log of `Cloud.Call`s. These are the GoCD agent listing, the provider's
  prefix listing, and its delete and terminate calls. The provider's `get`
  behind `doesInstanceExist`, `isInstanceInErrorState` and `refresh` only
  reads the `servers` map and is not logged. The image and flavor lookups of
  `matchInstance` are recorded in the `lookups` of its `Matching.Decision`.
- The agent list from the GoCD server is a `Result` parameter.
- `now` is an integer in milliseconds.
- A period is a number of minutes, and one minute is 60 000 ms.
- Java exceptions are `Result`/`Outcome` failures.
- Java null is `Option`.

Files:

- `Base.dfy`: Option, Result, Outcome and Error.
- `JavaText.dfy`: `stripToEmpty`, `equalsIgnoreCase`, `Integer.parseInt` and
  `Integer.toString`.
- `Cloud.dfy`: servers, instances, the provider, the call log and the time
  rule.
- `Settings.dfy`: the class `PluginSettings`.
- `Matching.dfy`: the `matchInstance` decision chain, which is pure.
- `Registry.dfy`: the class `OpenStackInstances`.
- `Pending.dfy`: the class `PendingAgentsService`.

Each loop in the Java becomes a Dafny method with a loop. Most such methods
are proved equal to a recursive function over a prefix of their input, or to
a map or set comprehension. The properties the Java promises are stated as
lemmas about those functions. `GetAgents` builds a list from a map whose
order is unspecified. It is characterised instead by membership, count and
distinctness: every pending agent appears exactly once, and nothing else
does.

All Java files cited below are under
`src/main/java/cd/go/contrib/elasticagents/openstack/`.

## Model

| member | source | states |
|---|---|---|
| JavaText.StripToEmpty | src/main/java/cd/go/contrib/elasticagents/openstack/OpenStackInstances.java:139-140 | null strips to ""; the result has no whitespace at either end and is no longer than the input |
| JavaText.StripStartSpec | src/main/java/cd/go/contrib/elasticagents/openstack/OpenStackInstances.java:139-140 | stripping the front keeps a suffix that does not start with whitespace, and every dropped character is whitespace |
| JavaText.StripEndSpec | src/main/java/cd/go/contrib/elasticagents/openstack/OpenStackInstances.java:139-140 | stripping the end keeps a prefix that does not end with whitespace, and every dropped character is whitespace |
| JavaText.StripToEmptyIdempotent | src/main/java/cd/go/contrib/elasticagents/openstack/OpenStackInstances.java:139-140 | stripping a stripped environment changes nothing |
| JavaText.LoweredAt | src/main/java/cd/go/contrib/elasticagents/openstack/OpenStackInstances.java:141 | case folding works character by character |
| JavaText.EqualsIgnoreCase | src/main/java/cd/go/contrib/elasticagents/openstack/OpenStackInstances.java:141 | two strings are equal after folding every ASCII letter to lower case |
| JavaText.EqualsIgnoreCaseByCharacters | src/main/java/cd/go/contrib/elasticagents/openstack/OpenStackInstances.java:141 | case-insensitive equality holds iff the lengths agree and every pair of characters agrees after folding (both directions) |
| JavaText.EqualsIgnoreCaseIsEquivalence | src/main/java/cd/go/contrib/elasticagents/openstack/OpenStackInstances.java:141 | case-insensitive equality is reflexive, symmetric and transitive |
| JavaText.ParseInt | src/main/java/cd/go/contrib/elasticagents/openstack/PluginSettings.java:237 | a parsed value fits in a 32-bit int; null and "" fail; a negative value needs a leading '-' |
| JavaText.ParseIntRoundTrip | src/main/java/cd/go/contrib/elasticagents/openstack/PluginSettings.java:237 | every int written in decimal parses back to itself |
| JavaText.ParseIntSpec | src/main/java/cd/go/contrib/elasticagents/openstack/PluginSettings.java:237 | a string parses iff it is an optional sign followed by at least one ASCII digit and its value fits in an int, and then the result is that value; every other string is rejected |
| JavaText.ParseIntOutOfRange | src/main/java/cd/go/contrib/elasticagents/openstack/PluginSettings.java:237 | the decimal string of any value outside the int range is rejected |
| JavaText.ParseIntExamples | src/main/java/cd/go/contrib/elasticagents/openstack/PluginSettings.java:237 | "-", "+", "1a" and " 7" are rejected, "+7" gives 7, "-07" gives -7, and 2147483648 is rejected |
| Cloud.FromServer | src/main/java/cd/go/contrib/elasticagents/openstack/OpenStackInstances.java:98-101 | the instance built from a listed server has the server's id, creation time and environment metadata |
| Cloud.ExpiredAt | src/main/java/cd/go/contrib/elasticagents/openstack/OpenStackInstances.java:281-284 | the time rule shared by the register timeout, the TTL and the scan: created plus the minutes (60 000 ms each) is strictly before now |
| Cloud.InstanceExists | src/main/java/cd/go/contrib/elasticagents/openstack/OpenStackInstances.java:125-127 | fails exactly for an id whose provider call throws; otherwise true iff the provider knows the server |
| Cloud.InErrorState | src/main/java/cd/go/contrib/elasticagents/openstack/OpenStackInstances.java:267-270 | fails exactly for an id whose provider call throws; otherwise true iff the server exists and its status is ERROR |
| Settings.PeriodMinutes | src/main/java/cd/go/contrib/elasticagents/openstack/PluginSettings.java:191-203 | a null timeout gives 10 minutes; a parsed period fits in an int; the only failure is NumberFormatException |
| Settings.PeriodOf | src/main/java/cd/go/contrib/elasticagents/openstack/PluginSettings.java:191-196 | the period a memo and its string stand for: the memo when present, otherwise the parsed string |
| Settings.PeriodRead | src/main/java/cd/go/contrib/elasticagents/openstack/PluginSettings.java:191-203 | the memo and the string after one read: a memo is kept with its string; otherwise the string is defaulted to "10" and written back, and the memo holds the period when it could be read |
| Settings.PeriodReadKeepsPeriod | src/main/java/cd/go/contrib/elasticagents/openstack/PluginSettings.java:191-214 | a read never changes the period, sets the memo exactly when the period can be read, and a second read changes nothing |
| Settings.TTLMaxOf | src/main/java/cd/go/contrib/elasticagents/openstack/PluginSettings.java:234-242 | the result fits in an int, and it is 0 for null or for a string that is not an int |
| Settings.TTLMaxOfDecimal | src/main/java/cd/go/contrib/elasticagents/openstack/PluginSettings.java:234-242 | any int stored as its decimal string is what the TTL-max getter returns |
| Settings.PluginSettings.constructor | src/main/java/cd/go/contrib/elasticagents/openstack/PluginSettings.java:35-118 | fresh settings have every field null, both memoised periods included |
| Settings.PluginSettings.PendingRegisterPeriod | src/main/java/cd/go/contrib/elasticagents/openstack/PluginSettings.java:191-196 | the memoised period wins; with no memo and no timeout string, the period is 10 minutes |
| Settings.PluginSettings.TTLMinPeriod | src/main/java/cd/go/contrib/elasticagents/openstack/PluginSettings.java:209-214 | the memoised period wins; with no memo and no TTL-min string, the period is 10 minutes |
| Settings.PluginSettings.GetAgentPendingRegisterPeriod | src/main/java/cd/go/contrib/elasticagents/openstack/PluginSettings.java:191-196 | returns the period computed from the old state; a memo, once present, is kept with its string; otherwise the string is defaulted to "10" and written back, and the memo is set exactly when parsing succeeds; the new memo and string are `PeriodRead` of the old ones |
| Settings.PluginSettings.GetAgentPendingRegisterTimeout | src/main/java/cd/go/contrib/elasticagents/openstack/PluginSettings.java:198-203 | returns the stored string, or "10", and stores what it returns |
| Settings.PluginSettings.SetAgentPendingRegisterTimeout | src/main/java/cd/go/contrib/elasticagents/openstack/PluginSettings.java:205-207 | stores the string; once memoised, the period is unchanged; equality with any other settings object is unchanged |
| Settings.PluginSettings.GetAgentTTLMinPeriod | src/main/java/cd/go/contrib/elasticagents/openstack/PluginSettings.java:209-214 | the same memoising rule over the TTL-min string: the new memo and string are `PeriodRead` of the old ones |
| Settings.PluginSettings.GetAgentTTLMin | src/main/java/cd/go/contrib/elasticagents/openstack/PluginSettings.java:216-221 | returns the stored string, or "10", and stores what it returns |
| Settings.PluginSettings.SetAgentTTLMin | src/main/java/cd/go/contrib/elasticagents/openstack/PluginSettings.java:223-225 | stores the string; once memoised, the TTL-min period is unchanged |
| Settings.PluginSettings.GetAgentTTLMax | src/main/java/cd/go/contrib/elasticagents/openstack/PluginSettings.java:234-242 | an int; 0 when unset; the stored int when the field holds one written in decimal |
| Settings.PluginSettings.SetAgentTTLMax | src/main/java/cd/go/contrib/elasticagents/openstack/PluginSettings.java:244-246 | stores the string |
| Settings.PluginSettings.GetDefaultMinInstanceLimit | src/main/java/cd/go/contrib/elasticagents/openstack/PluginSettings.java:227-232 | returns the stored value, or "1" when null, and stores what it returns |
| Settings.PluginSettings.GetDefaultMaxInstanceLimit | src/main/java/cd/go/contrib/elasticagents/openstack/PluginSettings.java:248-253 | returns the stored value, or "10" when null, and stores what it returns |
| Settings.PluginSettings.GetOpenstackKeystoneVersion | src/main/java/cd/go/contrib/elasticagents/openstack/PluginSettings.java:267-270 | returns the stored value, or "2" when null, and stores what it returns |
| Settings.PluginSettings.SetOpenstackKeystoneVersion | src/main/java/cd/go/contrib/elasticagents/openstack/PluginSettings.java:325-327 | stores the value |
| Settings.PluginSettings.GetOpenstackDomain | src/main/java/cd/go/contrib/elasticagents/openstack/PluginSettings.java:276-279 | returns the stored value, or "Default" when null, and stores what it returns |
| Settings.PluginSettings.SetOpenstackDomain | src/main/java/cd/go/contrib/elasticagents/openstack/PluginSettings.java:329-331 | stores the value |
| Settings.PluginSettings.GetOpenstackDeleteErrorInstances | src/main/java/cd/go/contrib/elasticagents/openstack/PluginSettings.java:377-381 | true exactly when the flag is set to true; false when unset |
| Settings.PluginSettings.SetDeleteErrorInstances | src/main/java/cd/go/contrib/elasticagents/openstack/PluginSettings.java:383-385 | stores the flag; the getter then returns it |
| Settings.PluginSettings.SetUsePreviousOpenstackImage | src/main/java/cd/go/contrib/elasticagents/openstack/PluginSettings.java:357-359 | stores the flag; `equals` against any other object is unchanged, because this field is not compared |
| Settings.PluginSettings.SetSSLVerificationDisabled | src/main/java/cd/go/contrib/elasticagents/openstack/PluginSettings.java:373-375 | stores the flag; `equals` against any other object is unchanged, because this field is not compared |
| Settings.PluginSettings.Equals | src/main/java/cd/go/contrib/elasticagents/openstack/PluginSettings.java:125-166 | the same object, or equal in every compared field; the pending-register timeout, the previous-image flag, the SSL flag and the memoised periods are not compared |
| Settings.EqualsIsEquivalence | src/main/java/cd/go/contrib/elasticagents/openstack/PluginSettings.java:125-166 | `equals` over its compared fields is reflexive, symmetric and transitive |
| Settings.PeriodSurvivesNewTimeout | src/main/java/cd/go/contrib/elasticagents/openstack/PluginSettings.java:191-207 | once a period has been computed, a new timeout string is stored but the next period returned is the same |
| Settings.DefaultsAreIdempotent | src/main/java/cd/go/contrib/elasticagents/openstack/PluginSettings.java:248-253 | two calls to a defaulting getter return the same value ("10" for a null max limit) and leave it stored |
| Matching.MatchFound | src/main/java/cd/go/contrib/elasticagents/openstack/OpenStackInstances.java:132-145 | an unknown instance, or a mismatched environment, never matches and resolves nothing |
| Matching.EnvironmentsMatch | src/main/java/cd/go/contrib/elasticagents/openstack/OpenStackInstances.java:139-141 | environments agree after stripping (null as "") and ignoring ASCII case |
| Matching.ImageStage | src/main/java/cd/go/contrib/elasticagents/openstack/OpenStackInstances.java:153-181 | the image is accepted literally, else by its resolved id, else (only when enabled) by the previous image id; an image that is not found is a non-match; each resolution made is recorded |
| Matching.FlavorStage | src/main/java/cd/go/contrib/elasticagents/openstack/OpenStackInstances.java:183-197 | the flavor is accepted literally, else by its resolved id, which is then recorded as a lookup |
| Matching.MatchExactlyWhenAllStagesAccept | src/main/java/cd/go/contrib/elasticagents/openstack/OpenStackInstances.java:139-200 | the staged chain matches iff the environment matches and the image and the flavor are each accepted (literally, by resolved id, or by the previous image id when enabled) |
| Matching.LiteralMatchResolvesNothing | src/main/java/cd/go/contrib/elasticagents/openstack/OpenStackInstances.java:153-186 | when image and flavor match literally, no name is resolved |
| Matching.ImageStageLookups | src/main/java/cd/go/contrib/elasticagents/openstack/OpenStackInstances.java:153-181 | the image stage resolves only when the literal differs; it never resolves a flavor; it asks for the previous image id only when that is enabled and the resolved id exists and differs |
| Matching.LookupDiscipline | src/main/java/cd/go/contrib/elasticagents/openstack/OpenStackInstances.java:149-197 | every resolution the whole check makes is justified: the image only when its literal differs, the previous image id only as the policy allows, the flavor only once the image passed and the literal flavor differs |
| Matching.MatchesOwnRequest | src/main/java/cd/go/contrib/elasticagents/openstack/OpenStackInstances.java:132-200 | an instance matches a request for its own environment, image and flavor, with no lookups |
| Matching.EnvironmentsMatchRespectsFolding | src/main/java/cd/go/contrib/elasticagents/openstack/OpenStackInstances.java:139-141 | two request environments that agree after stripping and folding agree with every agent environment alike |
| Matching.EnvironmentCaseInsensitive | src/main/java/cd/go/contrib/elasticagents/openstack/OpenStackInstances.java:139-145 | such request environments also get the same whole decision |
| Matching.AbsentEnvironmentIsEmpty | src/main/java/cd/go/contrib/elasticagents/openstack/OpenStackInstances.java:139-140 | a null request environment behaves as "" |
| Matching.PaddedUpperCaseEnvironmentMatches | src/main/java/cd/go/contrib/elasticagents/openstack/OpenStackInstances.java:139-141 | " PROD " matches "prod" |
| Matching.ResolvedImageNameMatches | src/main/java/cd/go/contrib/elasticagents/openstack/OpenStackInstances.java:149-200 | a request for image "web-image", which resolves to the stored "img-123", matches after one image lookup and no flavor lookup |
| Registry.FirstFailingDelete | src/main/java/cd/go/contrib/elasticagents/openstack/OpenStackInstances.java:96-105 | the index of the first listed server whose delete throws: none before it fails, and the one at it fails |
| Registry.RegisterListed | src/main/java/cd/go/contrib/elasticagents/openstack/OpenStackInstances.java:96-101 | the registry after registering, in listing order, every listed server the GoCD server knows as an agent; the last listing wins |
| Registry.Orphans | src/main/java/cd/go/contrib/elasticagents/openstack/OpenStackInstances.java:102-104 | the deletes issued, in listing order, for the listed servers that are not agents |
| Registry.ListedAgentsRegistered | src/main/java/cd/go/contrib/elasticagents/openstack/OpenStackInstances.java:96-101 | every listed server that is an agent ends up registered |
| Registry.LastListingWins | src/main/java/cd/go/contrib/elasticagents/openstack/OpenStackInstances.java:96-101 | a listed agent is registered with what its last listing reports, environment metadata included |
| Registry.UnaffectedIdsKept | src/main/java/cd/go/contrib/elasticagents/openstack/OpenStackInstances.java:96-105 | ids that are not agents, or not listed, keep their registry entry or their absence |
| Registry.OrphansAreTheListedNonAgents | src/main/java/cd/go/contrib/elasticagents/openstack/OpenStackInstances.java:102-104 | a delete is issued for every listed non-agent, and every delete is for a listed non-agent |
| Registry.RegisteredAndDeletedAreDisjoint | src/main/java/cd/go/contrib/elasticagents/openstack/OpenStackInstances.java:96-105 | a deleted server is left as it was in the registry, so no server is both registered and deleted |
| Registry.RegisterListedKeepsKeying | src/main/java/cd/go/contrib/elasticagents/openstack/OpenStackInstances.java:98-101 | reconciliation keeps every registry entry under its own id |
| Registry.ExpiredAgents | src/main/java/cd/go/contrib/elasticagents/openstack/OpenStackInstances.java:238-253 | the agents, in input order, that are registered and whose drawn TTL has strictly passed |
| Registry.ExpiredAgentsMembers | src/main/java/cd/go/contrib/elasticagents/openstack/OpenStackInstances.java:238-253 | an agent is reported iff one of its positions names a registered instance whose drawn TTL has passed strictly (both directions) |
| Registry.UnknownAgentsNeverExpire | src/main/java/cd/go/contrib/elasticagents/openstack/OpenStackInstances.java:240-243 | agents absent from the registry are never reported |
| Registry.ExpiredAgentsInOrder | src/main/java/cd/go/contrib/elasticagents/openstack/OpenStackInstances.java:237-254 | the report is a subsequence of the input, in input order |
| Registry.TenMinuteTTL | src/main/java/cd/go/contrib/elasticagents/openstack/OpenStackInstances.java:246-251 | with a 10-minute TTL an instance is reported 11 minutes after creation and not 9 minutes after |
| Registry.ExpiredAgentsGrowWithTime | src/main/java/cd/go/contrib/elasticagents/openstack/OpenStackInstances.java:238-253 | an agent reported as expired at one time is reported at every later time |
| Registry.Abandoned | src/main/java/cd/go/contrib/elasticagents/openstack/OpenStackInstances.java:217-229 | the scan in listing order: known agents are skipped, an existence check that throws ends it with that exception, vanished servers are skipped, and the rest are collected once the minimum TTL has passed |
| Registry.AbandonedFailureSticks | src/main/java/cd/go/contrib/elasticagents/openstack/OpenStackInstances.java:217-229 | an existence check that throws ends the scan with that exception |
| Registry.AbandonedSpec | src/main/java/cd/go/contrib/elasticagents/openstack/OpenStackInstances.java:217-230 | the scan fails iff some unknown listed server cannot be checked; otherwise it flags only unknown, existing, reachable servers past the fixed minimum TTL, each under its own id, and every such listed server is flagged; each flagged entry is a listed server with its id, built from one of that id's listings |
| Registry.AbandonedFromListing | src/main/java/cd/go/contrib/elasticagents/openstack/OpenStackInstances.java:217-229 | every flagged id is the id of some listed server, and its entry is the instance built from one such server; when an id is listed more than once, that need not be its last listing |
| Registry.RegisterTimedOut | src/main/java/cd/go/contrib/elasticagents/openstack/OpenStackInstances.java:273-289 | false for unregistered ids; the period's failure for a registered id when the period cannot be read; otherwise created + period strictly before now |
| Registry.RegisterTimeoutIsMonotone | src/main/java/cd/go/contrib/elasticagents/openstack/OpenStackInstances.java:281-287 | once timed out, an agent stays timed out |
| Registry.OpenStackInstances.constructor | src/main/java/cd/go/contrib/elasticagents/openstack/OpenStackInstances.java:41-42 | a new registry is empty and not yet refreshed |
| Registry.OpenStackInstances.Find | src/main/java/cd/go/contrib/elasticagents/openstack/OpenStackInstances.java:258-260 | returns the registered instance iff the id is present; on a valid registry the answer is keyed by the id asked for |
| Registry.OpenStackInstances.HasInstance | src/main/java/cd/go/contrib/elasticagents/openstack/OpenStackInstances.java:262-264 | true iff the id is registered |
| Registry.OpenStackInstances.Register | src/main/java/cd/go/contrib/elasticagents/openstack/OpenStackInstances.java:203-205 | upsert by id, last write wins: `find` returns the new instance and every other id's answer is unchanged |
| Registry.OpenStackInstances.Refresh | src/main/java/cd/go/contrib/elasticagents/openstack/OpenStackInstances.java:57-61 | an existing entry is never replaced; an absent id is fetched and registered, or the fetch's failure is returned and nothing changes |
| Registry.OpenStackInstances.Terminate | src/main/java/cd/go/contrib/elasticagents/openstack/OpenStackInstances.java:70-80 | a provider terminate is issued iff the id was registered; the id is then absent unless that terminate threw |
| Registry.OpenStackInstances.Reconcile | src/main/java/cd/go/contrib/elasticagents/openstack/OpenStackInstances.java:96-105 | the registry and the deletes are those of the listing up to the first failing delete, and the loop stops there with its id |
| Registry.OpenStackInstances.RefreshAll | src/main/java/cd/go/contrib/elasticagents/openstack/OpenStackInstances.java:83-110 | once refreshed, or with empty settings, nothing is listed or changed; a failing agent or server listing changes nothing; otherwise agents are registered and other servers deleted, and the latch is set iff no delete threw |
| Registry.OpenStackInstances.MatchInstance | src/main/java/cd/go/contrib/elasticagents/openstack/OpenStackInstances.java:129-201 | an unregistered id never matches and resolves nothing; a registered one matches iff all three stages accept |
| Registry.OpenStackInstances.HasAgentRegisterTimedOut | src/main/java/cd/go/contrib/elasticagents/openstack/OpenStackInstances.java:273-289 | returns the register-timeout rule on the old settings; the settings are consulted only for a registered id, and then the memo and string are `PeriodRead` of the old ones |
| Registry.OpenStackInstances.CreatedAfterTTL | src/main/java/cd/go/contrib/elasticagents/openstack/OpenStackInstances.java:237-254 | the loop returns exactly the expired agents, in order |
| Registry.OpenStackInstances.InstancesCreatedAfterTTL | src/main/java/cd/go/contrib/elasticagents/openstack/OpenStackInstances.java:234-255 | a malformed TTL-min string fails before the loop; otherwise exactly the expired agents are returned; the TTL-min memo and string are `PeriodRead` of the old ones |
| Registry.OpenStackInstances.Unregistered | src/main/java/cd/go/contrib/elasticagents/openstack/OpenStackInstances.java:217-230 | the loop computes the abandoned-server scan |
| Registry.OpenStackInstances.UnregisteredAfterTimeout | src/main/java/cd/go/contrib/elasticagents/openstack/OpenStackInstances.java:207-231 | the TTL-min period is read first (no listing when it fails), then the prefix listing, then the scan; the TTL-min memo and string are `PeriodRead` of the old ones |
| Registry.OpenStackInstances.TerminateAll | src/main/java/cd/go/contrib/elasticagents/openstack/OpenStackInstances.java:120-122 | every given id is removed; a terminate is issued exactly once for each of them that was registered |
| Registry.OpenStackInstances.TerminateUnregisteredInstances | src/main/java/cd/go/contrib/elasticagents/openstack/OpenStackInstances.java:113-123 | a failing period returns its error with no call issued; a failing listing or scan issues only the listing; in each failure case the registry is unchanged; otherwise exactly the flagged servers leave the registry, and each registered one is terminated once; the TTL-min period is unchanged, and its memo and string are `PeriodRead` of the old ones |
| Pending.Classify | src/main/java/cd/go/contrib/elasticagents/openstack/PendingAgentsService.java:52-72 | the verdict for one pending id: an unreachable server fails the check; otherwise vanished, then ERROR, then timed out (a period that cannot be read fails the check), else still pending |
| Pending.ClassifyFollowsTheChecks | src/main/java/cd/go/contrib/elasticagents/openstack/PendingAgentsService.java:52-72 | each verdict is what the chain of checks yields (exists, then ERROR, then timeout, first wins), and any exception in the chain is a failed check (both directions) |
| Pending.PromotedAgentsAreLeftAlone | src/main/java/cd/go/contrib/elasticagents/openstack/PendingAgentsService.java:44-50 | an agent listed by the GoCD server is neither pending nor terminated after the sweep |
| Pending.SweepOnlyRemoves | src/main/java/cd/go/contrib/elasticagents/openstack/PendingAgentsService.java:45-73 | the sweep never adds entries, and the entries it keeps are unchanged |
| Pending.VanishedLeaveQuietlyAndWaitingStay | src/main/java/cd/go/contrib/elasticagents/openstack/PendingAgentsService.java:54-69 | a vanished server's entry leaves with no terminate; an existing, healthy, not-yet-timed-out one stays untouched and is not terminated |
| Pending.UncheckableEntriesAreKept | src/main/java/cd/go/contrib/elasticagents/openstack/PendingAgentsService.java:52-72 | an entry whose check throws stays pending and is not terminated |
| Pending.ErrorInstancesLeaveAndMayBeDeleted | src/main/java/cd/go/contrib/elasticagents/openstack/PendingAgentsService.java:57-63 | an ERROR instance leaves the pending set and is terminated iff the settings ask for error instances to be deleted |
| Pending.TimedOutTerminatedOnce | src/main/java/cd/go/contrib/elasticagents/openstack/PendingAgentsService.java:64-66 | a timed-out instance is terminated but stays pending; on the next sweep it no longer times out |
| Pending.ReadsPeriod | src/main/java/cd/go/contrib/elasticagents/openstack/PendingAgentsService.java:54-64 | the sweep reads the pending-register period iff the server can be asked about, exists, is not in ERROR (so the register-timeout check is called) and is registered (so that check gets past its null test) |
| Pending.PeriodsAfterMemoises | src/main/java/cd/go/contrib/elasticagents/openstack/PendingAgentsService.java:64 | after a sweep in which some id reached the timeout check, an unmemoised period has its string written back and is memoised exactly when it can be read, and the period is unchanged; a sweep in which none did leaves both fields alone |
| Pending.PendingAgentsService.constructor | src/main/java/cd/go/contrib/elasticagents/openstack/PendingAgentsService.java:20-26 | starts with nothing pending, the flag clear, and the given registry |
| Pending.PendingAgentsService.AddPending | src/main/java/cd/go/contrib/elasticagents/openstack/PendingAgentsService.java:28-30 | insert-if-absent: a second add for the same id leaves the first entry |
| Pending.PendingAgentsService.GetAgents | src/main/java/cd/go/contrib/elasticagents/openstack/PendingAgentsService.java:32-35 | every pending agent exactly once, and nothing else |
| Pending.PendingAgentsService.Promote | src/main/java/cd/go/contrib/elasticagents/openstack/PendingAgentsService.java:45-49 | every id the GoCD server lists is no longer pending, and nothing else changes |
| Pending.PendingAgentsService.SweepOne | src/main/java/cd/go/contrib/elasticagents/openstack/PendingAgentsService.java:51-72 | one entry is kept or dropped, and terminated or not, by its verdict; the registry loses only that id; the period memo and string are `PeriodRead` of the old ones iff the checks reached the timeout, and are unchanged otherwise |
| Pending.PendingAgentsService.Sweep | src/main/java/cd/go/contrib/elasticagents/openstack/PendingAgentsService.java:50-73 | afterwards the pending map is exactly the kept entries, and the registry has lost exactly the terminated ids, each terminated once; the period is unchanged; the memo and string are read once some entry reached the timeout check, and are untouched otherwise |
| Pending.PendingAgentsService.RefreshAll | src/main/java/cd/go/contrib/elasticagents/openstack/PendingAgentsService.java:37-78 | while the flag is set nothing is listed or changed, the settings included; a failed agent listing leaves the flag set and nothing else changed; otherwise promotion, then the sweep, and the flag is cleared; the period is unchanged on every path, and its memo and string follow the sweep of the entries left after promotion |
| Pending.PendingAgentsService.RefreshAllReleasingLatch | src/main/java/cd/go/contrib/elasticagents/openstack/PendingAgentsService.java:37-78 | the same, with the flag restored on every exit, and the same statements about the settings |
| Pending.FailedListingDisablesSweep | src/main/java/cd/go/contrib/elasticagents/openstack/PendingAgentsService.java:42-44 | as written, after one failed agent listing the next call lists nothing and changes nothing |
| Pending.FailedListingThenRetry | src/main/java/cd/go/contrib/elasticagents/openstack/PendingAgentsService.java:42-44 | with the flag released, the next call lists the agents again |

## Left out

- `PluginRequest` and the GoCD API transport are not modelled. `listAgents()`
  is a parameter that either lists agent ids or fails.
- openstack4j and `OpenstackClientWrapper` become a fixed `Provider` value and
  a `Resolver` value. Neither can change within one call, so a server deleted
  by another client halfway through a sweep is not modelled.
- One set, `unreachable`, covers every provider call about an id that throws:
  get, delete and terminate alike. A server whose get succeeds but whose
  terminate throws cannot be expressed.
- `create()` is not modelled. It builds an instance through the provider and
  then calls `register`, which is modelled.
- `OpenStackInstance.find`, its constructor and its `terminate` are not part
  of this model. The instance `refresh` registers, and the image/flavor of
  the instances `refreshAll` registers, are taken from the provider's server
  record.
- `Util.calculateTTL` is not part of this model. Its random per-agent draws
  are a sequence `ttls` parallel to the agents. Nothing is claimed about
  their lying within [min, max].
- Registry.OpenStackInstances.InstancesCreatedAfterTTL: the calls to
  `getAgentTTLMax` and to `getAgentTTLMinPeriod` inside the loop are not
  modelled. After the first call, which is modelled, they cannot fail and
  have no effect on the result.
- Registry.OpenStackInstances.TerminateAll requires that the given ids can
  be reached at the provider. Its caller's ids come from the scan, which has
  just reached each of them. So the terminate that throws, and the abort
  that would follow, are not covered.
- `getImageId` and `getFlavorId` are total functions. An image-not-found is
  a non-match. Any other exception from the resolvers, and a null resolved
  image id, are not modelled.
- `equals`: the `getClass()` check and `o == null` are not modelled. The
  argument is always a `PluginSettings`.
- `deleteErrorInstances` is a `Boolean` compared by reference. It is
  modelled as comparing values, which is what `Boolean.valueOf` caching
  yields for autoboxed values.
- `hashCode` is not modelled. It relies on Java's `String.hashCode` and int
  overflow. It hashes `agentPendingRegisterTimeout`, which `equals` ignores,
  so two equal settings objects can hash differently. This is not stated as
  a proof, because hashing is outside the model.
- `fromJSON`, `toString`, logging, timing lines and the plain pass-through
  getters and setters are not modelled.
- Concurrency is not modelled. `ConcurrentHashMap` becomes a Dafny `map`.
  The static, non-atomic `REFRESH_RUNNING` becomes a field of the service.
  The order in which `getAgents` and the sweep visit entries is not
  specified, and neither is any other order.
- `isEmpty(clusterProfileProperties.toString())` becomes a boolean
  parameter.
- Wall-clock time is an integer parameter `now`, in milliseconds. Joda
  `Period` is a number of minutes. `DateUtils.addMinutes` is exact integer
  arithmetic, so overflow of `Date` is not modelled.
- Text handling covers ASCII only:
  - Whitespace for `stripToEmpty` is Java's ASCII whitespace.
  - Case folding for `equalsIgnoreCase` covers ASCII letters only.
  - `Integer.parseInt` accepts ASCII digits only.
  - Other Unicode whitespace, letters and digits are not modelled.

## Findings

| source | as written | input that shows it | evidently intended | confidence | as-written member | corrected member |
|---|---|---|---|---|---|---|
| src/main/java/cd/go/contrib/elasticagents/openstack/PendingAgentsService.java:42-44 | `REFRESH_RUNNING` is set before `listAgents()`, and nothing clears it when `listAgents()` throws `ServerRequestFailedException` | a first `refreshAll` whose agent listing fails; every later `refreshAll` returns at once, so no pending agent is ever promoted, classified or terminated again | the flag is cleared on every exit, for example by a `finally` | medium, not executed | Pending.FailedListingDisablesSweep | Pending.FailedListingThenRetry |
