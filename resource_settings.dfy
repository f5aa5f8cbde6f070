/** The resource configuration (internal/config/resource.go). */
module ResourceSettings {
  import opened Wrappers
  import opened Errors
  import Consts

  datatype ResourceConfig = ResourceConfig(serviceName: string, serviceVersion: string, attributes: map<string, string>)

  datatype ResourceOption =
    | WithServiceName(name: string)
    | WithServiceVersion(version: string)
    | WithAttributes(attrs: map<string, string>)

  const Default := ResourceConfig(Consts.DefaultServiceName, Consts.DefaultServiceVersion, map[])

  /** Names are overwritten only when non-empty, attributes only by a non-empty map. */
  function Apply(o: ResourceOption, rc: ResourceConfig): ResourceConfig
  {
    match o
    case WithServiceName(x) => if x != "" then rc.(serviceName := x) else rc
    case WithServiceVersion(x) => if x != "" then rc.(serviceVersion := x) else rc
    case WithAttributes(m) => if |m| > 0 then rc.(attributes := m) else rc
  }

  function ApplyAll(rc: ResourceConfig, options: seq<ResourceOption>): ResourceConfig
    decreases |options|
  {
    if options == [] then rc else ApplyAll(Apply(options[0], rc), options[1..])
  }

  /** `NewResourceConfig(options...)`. */
  method NewResourceConfig(options: seq<ResourceOption>) returns (rc: ResourceConfig)
    ensures rc == ApplyAll(Default, options)
  {
    rc := Default;
    for i := 0 to |options|
      invariant ApplyAll(rc, options[i..]) == ApplyAll(Default, options)
    {
      assert options[i..][1..] == options[i + 1..];
      rc := Apply(options[i], rc);
    }
  }

  function Validate(rc: ResourceConfig): Option<Error>
  {
    if rc.serviceName == "" then Some(EmptyServiceName) else None
  }

  /** Only an empty service name fails validation. */
  lemma ValidateAccepts(rc: ResourceConfig)
    ensures Validate(rc) == None <==> rc.serviceName != ""
    ensures Validate(rc).Some? ==> Validate(rc) == Some(EmptyServiceName)
  {
  }

  /**
   * No sequence of options can empty the service name, so every record
   * NewResourceConfig builds validates.
   */
  lemma {:induction false} OptionsKeepServiceName(rc: ResourceConfig, options: seq<ResourceOption>)
    requires rc.serviceName != ""
    ensures ApplyAll(rc, options).serviceName != ""
    ensures Validate(ApplyAll(rc, options)) == None
    decreases |options|
  {
    if options != [] {
      OptionsKeepServiceName(Apply(options[0], rc), options[1..]);
    }
  }

  /** Empty arguments override nothing. */
  lemma {:induction false} EmptyOptionsKeep(rc: ResourceConfig, options: seq<ResourceOption>)
    requires forall i :: 0 <= i < |options| ==>
      options[i] == WithServiceName("") || options[i] == WithServiceVersion("") || options[i] == WithAttributes(map[])
    ensures ApplyAll(rc, options) == rc
    decreases |options|
  {
    if options != [] {
      EmptyOptionsKeep(rc, options[1..]);
    }
  }

  /** Each option is idempotent. */
  lemma ApplyIdempotent(o: ResourceOption, rc: ResourceConfig)
    ensures Apply(o, Apply(o, rc)) == Apply(o, rc)
  {
  }

  /** The defaults, which validate. */
  lemma DefaultValidates()
    ensures Default == ResourceConfig("szgen", "0.1.0", map[])
    ensures Validate(Default) == None
  {
  }
}
