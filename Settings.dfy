/** The plugin settings object. Its fields are Java references, so every one
    may be null (None). The defaulting getters write their default back into
    the field, and the two timeout periods are computed once and then kept. */
module Settings {
  import opened Base
  import opened JavaText

  /** Default of both timeout strings, in minutes. */
  const DefaultTimeoutMinutes: string := "10"
  const DefaultMinInstanceLimit: string := "1"
  const DefaultMaxInstanceLimit: string := "10"
  const DefaultKeystoneVersion: string := "2"
  const DefaultDomain: string := "Default"

  /** The period parsed from a timeout string, with a null string read as the default. */
  function PeriodMinutes(timeout: Option<string>): (r: Result<int>)
    ensures timeout.None? ==> r == Success(10)
    ensures r.Success? ==> InIntRange(r.value)
    ensures r.Failure? ==> r.error == NumberFormat
  {
    ParseIntRoundTrip(10);
    assert IntToString(10) == DefaultTimeoutMinutes;
    match ParseInt(Some(timeout.GetOr(DefaultTimeoutMinutes)))
    case Some(n) => Success(n)
    case None => Failure(NumberFormat)
  }

  /** The period a memoised value and its timeout string stand for: the memo
      when there is one, otherwise the parsed string. */
  function PeriodOf(memo: Option<int>, timeout: Option<string>): Result<int> {
    if memo.Some? then Success(memo.value) else PeriodMinutes(timeout)
  }

  /** The memo and the string after one read of a period, given the period
      that state stands for: with no memo the string is defaulted to "10" and
      written back, and the memo is set when the period could be read. */
  function PeriodRead(memo: Option<int>, timeout: Option<string>, period: Result<int>): (Option<int>, Option<string>) {
    if memo.Some? then (memo, timeout)
    else (if period.Success? then Some(period.value) else None, Some(timeout.GetOr(DefaultTimeoutMinutes)))
  }

  /** A read never changes the period, memoises it when it can be read, and
      reading again changes nothing more. */
  lemma PeriodReadKeepsPeriod(memo: Option<int>, timeout: Option<string>)
    ensures var after := PeriodRead(memo, timeout, PeriodOf(memo, timeout));
      && PeriodOf(after.0, after.1) == PeriodOf(memo, timeout)
      && (PeriodOf(memo, timeout).Success? <==> after.0.Some?)
      && (after.0.Some? ==> after.0.value == PeriodOf(memo, timeout).value)
      && PeriodRead(after.0, after.1, PeriodOf(after.0, after.1)) == after
  {
  }

  /** `getAgentTTLMax` on a given string: the parsed value, or 0 when the
      string is null or not an `int`. */
  function TTLMaxOf(s: Option<string>): (r: int)
    ensures InIntRange(r)
    ensures s.None? ==> r == 0
    ensures ParseInt(s).None? ==> r == 0
  {
    ParseInt(s).GetOr(0)
  }

  /** Any `int` written as a decimal string comes back from the TTL-max getter. */
  lemma TTLMaxOfDecimal(n: int)
    requires InIntRange(n)
    ensures TTLMaxOf(Some(IntToString(n))) == n
  {
    ParseIntRoundTrip(n);
  }

  class PluginSettings {
    var goServerUrl: Option<string>
    var openstackEndpoint: Option<string>
    var openstackKeystoneVersion: Option<string>
    var openstackDomain: Option<string>
    var agentPendingRegisterTimeout: Option<string>
    var agentTTLMin: Option<string>
    var agentTTLMax: Option<string>
    var defaultMinInstanceLimit: Option<string>
    var defaultMaxInstanceLimit: Option<string>
    var openstackTenant: Option<string>
    var openstackUser: Option<string>
    var openstackPassword: Option<string>
    var openstackVmPrefix: Option<string>
    var openstackImage: Option<string>
    var openstackImageCacheTTL: Option<string>
    var usePreviousOpenstackImage: Option<bool>
    var openstackFlavor: Option<string>
    var openstackNetwork: Option<string>
    var openstackUserdata: Option<string>
    var sslVerificationDisabled: Option<bool>
    var deleteErrorInstances: Option<bool>
    /** Memoised periods, in minutes (Joda `Period` objects in the Java). */
    var agentRegisterPeriod: Option<int>
    var agentTTLMinPeriod: Option<int>

    /** Settings with every field null, as deserialisation of "{}" leaves them. */
    constructor ()
      ensures goServerUrl.None? && openstackEndpoint.None? && openstackKeystoneVersion.None? && openstackDomain.None?
      ensures agentPendingRegisterTimeout.None? && agentTTLMin.None? && agentTTLMax.None?
      ensures defaultMinInstanceLimit.None? && defaultMaxInstanceLimit.None?
      ensures openstackTenant.None? && openstackUser.None? && openstackPassword.None? && openstackVmPrefix.None?
      ensures openstackImage.None? && openstackImageCacheTTL.None? && usePreviousOpenstackImage.None?
      ensures openstackFlavor.None? && openstackNetwork.None? && openstackUserdata.None?
      ensures sslVerificationDisabled.None? && deleteErrorInstances.None?
      ensures agentRegisterPeriod.None? && agentTTLMinPeriod.None?
    {
      goServerUrl, openstackEndpoint, openstackKeystoneVersion, openstackDomain := None, None, None, None;
      agentPendingRegisterTimeout, agentTTLMin, agentTTLMax := None, None, None;
      defaultMinInstanceLimit, defaultMaxInstanceLimit := None, None;
      openstackTenant, openstackUser, openstackPassword, openstackVmPrefix := None, None, None, None;
      openstackImage, openstackImageCacheTTL, usePreviousOpenstackImage := None, None, None;
      openstackFlavor, openstackNetwork, openstackUserdata := None, None, None;
      sslVerificationDisabled, deleteErrorInstances := None, None;
      agentRegisterPeriod, agentTTLMinPeriod := None, None;
    }

    /** What `getAgentPendingRegisterPeriod` returns from the current state. */
    function PendingRegisterPeriod(): (r: Result<int>)
      reads this
      ensures agentRegisterPeriod.Some? ==> r == Success(agentRegisterPeriod.value)
      ensures agentRegisterPeriod.None? && agentPendingRegisterTimeout.None? ==> r == Success(10)
    {
      PeriodOf(agentRegisterPeriod, agentPendingRegisterTimeout)
    }

    /** What `getAgentTTLMinPeriod` returns from the current state. */
    function TTLMinPeriod(): (r: Result<int>)
      reads this
      ensures agentTTLMinPeriod.Some? ==> r == Success(agentTTLMinPeriod.value)
      ensures agentTTLMinPeriod.None? && agentTTLMin.None? ==> r == Success(10)
    {
      PeriodOf(agentTTLMinPeriod, agentTTLMin)
    }

    /** `getAgentPendingRegisterPeriod`: on the first call the timeout string
        (defaulted to "10" and written back) is parsed and the period kept; a
        string that is not an `int` throws and nothing is kept. */
    method GetAgentPendingRegisterPeriod() returns (r: Result<int>)
      modifies this`agentRegisterPeriod, this`agentPendingRegisterTimeout
      ensures r == old(PendingRegisterPeriod())
      ensures PendingRegisterPeriod() == old(PendingRegisterPeriod())
      ensures old(agentRegisterPeriod).Some? ==>
                agentRegisterPeriod == old(agentRegisterPeriod)
                && agentPendingRegisterTimeout == old(agentPendingRegisterTimeout)
      ensures old(agentRegisterPeriod).None? ==>
                agentPendingRegisterTimeout == Some(old(agentPendingRegisterTimeout).GetOr(DefaultTimeoutMinutes))
                && (r.Success? <==> agentRegisterPeriod.Some?)
      ensures (agentRegisterPeriod, agentPendingRegisterTimeout)
              == PeriodRead(old(agentRegisterPeriod), old(agentPendingRegisterTimeout), old(PendingRegisterPeriod()))
    {
      if agentRegisterPeriod.None? {
        var timeout := GetAgentPendingRegisterTimeout();
        match ParseInt(Some(timeout)) {
          case None =>
            return Failure(NumberFormat);
          case Some(n) =>
            agentRegisterPeriod := Some(n);
        }
      }
      r := Success(agentRegisterPeriod.value);
    }

    /** The private defaulting getter behind the pending-register period. */
    method GetAgentPendingRegisterTimeout() returns (r: string)
      modifies this`agentPendingRegisterTimeout
      ensures r == old(agentPendingRegisterTimeout).GetOr(DefaultTimeoutMinutes)
      ensures agentPendingRegisterTimeout == Some(r)
    {
      if agentPendingRegisterTimeout.None? {
        agentPendingRegisterTimeout := Some(DefaultTimeoutMinutes);
      }
      r := agentPendingRegisterTimeout.value;
    }

    /** Once the period has been computed, a new timeout string is stored but
        the period the getter returns stays the one computed before. */
    method SetAgentPendingRegisterTimeout(value: Option<string>)
      modifies this`agentPendingRegisterTimeout
      ensures agentPendingRegisterTimeout == value
      ensures old(agentRegisterPeriod).Some? ==> PendingRegisterPeriod() == old(PendingRegisterPeriod())
      ensures forall o: PluginSettings :: old(allocated(o)) && o != this ==> (Equals(o) <==> old(Equals(o)))
    {
      agentPendingRegisterTimeout := value;
    }

    /** `getAgentTTLMinPeriod`, the same memoising rule over `agentTTLMin`. */
    method GetAgentTTLMinPeriod() returns (r: Result<int>)
      modifies this`agentTTLMinPeriod, this`agentTTLMin
      ensures r == old(TTLMinPeriod())
      ensures TTLMinPeriod() == old(TTLMinPeriod())
      ensures old(agentTTLMinPeriod).Some? ==>
                agentTTLMinPeriod == old(agentTTLMinPeriod) && agentTTLMin == old(agentTTLMin)
      ensures old(agentTTLMinPeriod).None? ==>
                agentTTLMin == Some(old(agentTTLMin).GetOr(DefaultTimeoutMinutes))
                && (r.Success? <==> agentTTLMinPeriod.Some?)
      ensures (agentTTLMinPeriod, agentTTLMin) == PeriodRead(old(agentTTLMinPeriod), old(agentTTLMin), old(TTLMinPeriod()))
    {
      if agentTTLMinPeriod.None? {
        var ttlMin := GetAgentTTLMin();
        match ParseInt(Some(ttlMin)) {
          case None =>
            return Failure(NumberFormat);
          case Some(n) =>
            agentTTLMinPeriod := Some(n);
        }
      }
      r := Success(agentTTLMinPeriod.value);
    }

    /** The private defaulting getter behind the TTL-min period. */
    method GetAgentTTLMin() returns (r: string)
      modifies this`agentTTLMin
      ensures r == old(agentTTLMin).GetOr(DefaultTimeoutMinutes)
      ensures agentTTLMin == Some(r)
    {
      if agentTTLMin.None? {
        agentTTLMin := Some(DefaultTimeoutMinutes);
      }
      r := agentTTLMin.value;
    }

    method SetAgentTTLMin(value: Option<string>)
      modifies this`agentTTLMin
      ensures agentTTLMin == value
      ensures old(agentTTLMinPeriod).Some? ==> TTLMinPeriod() == old(TTLMinPeriod())
    {
      agentTTLMin := value;
    }

    /** `getAgentTTLMax`: no default is written back. */
    function GetAgentTTLMax(): (r: int)
      reads this
      ensures InIntRange(r)
      ensures agentTTLMax.None? ==> r == 0
      ensures forall n :: InIntRange(n) && agentTTLMax == Some(IntToString(n)) ==> r == n
    {
      var r := TTLMaxOf(agentTTLMax);
      assert forall n :: InIntRange(n) && agentTTLMax == Some(IntToString(n)) ==> r == n by {
        forall n | InIntRange(n) && agentTTLMax == Some(IntToString(n)) {
          TTLMaxOfDecimal(n);
        }
      }
      r
    }

    method SetAgentTTLMax(value: Option<string>)
      modifies this`agentTTLMax
      ensures agentTTLMax == value
    {
      agentTTLMax := value;
    }

    method GetDefaultMinInstanceLimit() returns (r: string)
      modifies this`defaultMinInstanceLimit
      ensures old(defaultMinInstanceLimit).Some? ==> r == old(defaultMinInstanceLimit).value
      ensures old(defaultMinInstanceLimit).None? ==> r == DefaultMinInstanceLimit
      ensures defaultMinInstanceLimit == Some(r)
    {
      if defaultMinInstanceLimit.None? {
        defaultMinInstanceLimit := Some(DefaultMinInstanceLimit);
      }
      r := defaultMinInstanceLimit.value;
    }

    method GetDefaultMaxInstanceLimit() returns (r: string)
      modifies this`defaultMaxInstanceLimit
      ensures old(defaultMaxInstanceLimit).Some? ==> r == old(defaultMaxInstanceLimit).value
      ensures old(defaultMaxInstanceLimit).None? ==> r == DefaultMaxInstanceLimit
      ensures defaultMaxInstanceLimit == Some(r)
    {
      if defaultMaxInstanceLimit.None? {
        defaultMaxInstanceLimit := Some(DefaultMaxInstanceLimit);
      }
      r := defaultMaxInstanceLimit.value;
    }

    method GetOpenstackKeystoneVersion() returns (r: string)
      modifies this`openstackKeystoneVersion
      ensures old(openstackKeystoneVersion).Some? ==> r == old(openstackKeystoneVersion).value
      ensures old(openstackKeystoneVersion).None? ==> r == DefaultKeystoneVersion
      ensures openstackKeystoneVersion == Some(r)
    {
      openstackKeystoneVersion := Some(openstackKeystoneVersion.GetOr(DefaultKeystoneVersion));
      r := openstackKeystoneVersion.value;
    }

    method SetOpenstackKeystoneVersion(value: Option<string>)
      modifies this`openstackKeystoneVersion
      ensures openstackKeystoneVersion == value
    {
      openstackKeystoneVersion := value;
    }

    method GetOpenstackDomain() returns (r: string)
      modifies this`openstackDomain
      ensures old(openstackDomain).Some? ==> r == old(openstackDomain).value
      ensures old(openstackDomain).None? ==> r == DefaultDomain
      ensures openstackDomain == Some(r)
    {
      openstackDomain := Some(openstackDomain.GetOr(DefaultDomain));
      r := openstackDomain.value;
    }

    method SetOpenstackDomain(value: Option<string>)
      modifies this`openstackDomain
      ensures openstackDomain == value
    {
      openstackDomain := value;
    }

    /** `getOpenstackDeleteErrorInstances`: false when unset. */
    function GetOpenstackDeleteErrorInstances(): (r: bool)
      reads this
      ensures r <==> deleteErrorInstances == Some(true)
    {
      deleteErrorInstances.GetOr(false)
    }

    method SetDeleteErrorInstances(value: bool)
      modifies this`deleteErrorInstances
      ensures deleteErrorInstances == Some(value)
      ensures GetOpenstackDeleteErrorInstances() == value
    {
      deleteErrorInstances := Some(value);
    }

    method SetUsePreviousOpenstackImage(value: Option<bool>)
      modifies this`usePreviousOpenstackImage
      ensures usePreviousOpenstackImage == value
      ensures forall o: PluginSettings :: old(allocated(o)) && o != this ==> (Equals(o) <==> old(Equals(o)))
    {
      usePreviousOpenstackImage := value;
    }

    method SetSSLVerificationDisabled(value: Option<bool>)
      modifies this`sslVerificationDisabled
      ensures sslVerificationDisabled == value
      ensures forall o: PluginSettings :: old(allocated(o)) && o != this ==> (Equals(o) <==> old(Equals(o)))
    {
      sslVerificationDisabled := value;
    }

    /** `equals`: the same object, or the same value in each compared field.
        The pending-register timeout, the previous-image flag, the SSL flag
        and the memoised periods are not compared. */
    predicate Equals(that: PluginSettings)
      reads this, that
    {
      this == that
      || (goServerUrl == that.goServerUrl
          && openstackEndpoint == that.openstackEndpoint
          && openstackKeystoneVersion == that.openstackKeystoneVersion
          && agentTTLMin == that.agentTTLMin
          && agentTTLMax == that.agentTTLMax
          && openstackDomain == that.openstackDomain
          && defaultMinInstanceLimit == that.defaultMinInstanceLimit
          && defaultMaxInstanceLimit == that.defaultMaxInstanceLimit
          && openstackTenant == that.openstackTenant
          && openstackUser == that.openstackUser
          && openstackPassword == that.openstackPassword
          && openstackVmPrefix == that.openstackVmPrefix
          && openstackImage == that.openstackImage
          && openstackImageCacheTTL == that.openstackImageCacheTTL
          && openstackFlavor == that.openstackFlavor
          && openstackNetwork == that.openstackNetwork
          && deleteErrorInstances == that.deleteErrorInstances
          && openstackUserdata == that.openstackUserdata)
    }
  }

  /** `equals` is an equivalence relation. */
  lemma EqualsIsEquivalence(a: PluginSettings, b: PluginSettings, c: PluginSettings)
    ensures a.Equals(a)
    ensures a.Equals(b) ==> b.Equals(a)
    ensures a.Equals(b) && b.Equals(c) ==> a.Equals(c)
  {
  }

  /** A caller's view of memoisation: after the period has been computed, a
      new timeout string does not change the period the getter returns. */
  method PeriodSurvivesNewTimeout(s: PluginSettings, later: Option<string>)
    returns (first: Result<int>, second: Result<int>)
    modifies s
    ensures first == old(s.PendingRegisterPeriod())
    ensures first.Success? ==> second == first
    ensures first.Success? ==> s.agentPendingRegisterTimeout == later
  {
    first := s.GetAgentPendingRegisterPeriod();
    s.SetAgentPendingRegisterTimeout(later);
    second := s.GetAgentPendingRegisterPeriod();
  }

  /** A caller's view of the defaulting getters: a second call returns what
      the first returned and leaves the field as the first left it. */
  method DefaultsAreIdempotent(s: PluginSettings) returns (first: string, second: string)
    modifies s
    ensures first == second
    ensures old(s.defaultMaxInstanceLimit).None? ==> first == DefaultMaxInstanceLimit
    ensures s.defaultMaxInstanceLimit == Some(first)
  {
    first := s.GetDefaultMaxInstanceLimit();
    second := s.GetDefaultMaxInstanceLimit();
  }
}
