/** The export configuration (internal/config/export.go). */
module ExportSettings {
  import opened Wrappers
  import opened Errors
  import Consts
  import Validator

  /** `ExportConfig`; `interval` is a `time.Duration` in nanoseconds. */
  datatype ExportConfig = ExportConfig(
    mode: string,
    endpoint: string,
    file: string,
    temporality: string,
    insecure: bool,
    interval: int,
    caCert: string,
    clientCert: string,
    clientKey: string)

  datatype ExportOption =
    | WithExportMode(mode: string)
    | WithEndpoint(endpoint: string)
    | WithExportFile(file: string)
    | WithTemporality(temporality: string)
    | WithInsecure(insecure: bool)
    | WithInterval(interval: int)
    | WithCACert(caCert: string)
    | WithClientCert(clientCert: string)
    | WithClientKey(clientKey: string)

  const Default := ExportConfig(
    Consts.DefaultExportMode, Consts.DefaultOTLPEndpoint, "", Consts.DefaultExportTemporality,
    false, Consts.DefaultOTLPInterval, "", "", "")

  /** String options write only a non-empty value, the interval only a non-zero one; `insecure` always. */
  function Apply(o: ExportOption, ec: ExportConfig): ExportConfig
  {
    match o
    case WithExportMode(x) => if x != "" then ec.(mode := x) else ec
    case WithEndpoint(x) => if x != "" then ec.(endpoint := x) else ec
    case WithExportFile(x) => if x != "" then ec.(file := x) else ec
    case WithTemporality(x) => if x != "" then ec.(temporality := x) else ec
    case WithInsecure(x) => ec.(insecure := x)
    case WithInterval(x) => if x != 0 then ec.(interval := x) else ec
    case WithCACert(x) => if x != "" then ec.(caCert := x) else ec
    case WithClientCert(x) => if x != "" then ec.(clientCert := x) else ec
    case WithClientKey(x) => if x != "" then ec.(clientKey := x) else ec
  }

  /** Whether the option leaves the record as it was. */
  predicate IsEmpty(o: ExportOption)
  {
    match o
    case WithExportMode(x) => x == ""
    case WithEndpoint(x) => x == ""
    case WithExportFile(x) => x == ""
    case WithTemporality(x) => x == ""
    case WithInsecure(_) => false
    case WithInterval(x) => x == 0
    case WithCACert(x) => x == ""
    case WithClientCert(x) => x == ""
    case WithClientKey(x) => x == ""
  }

  function ApplyAll(ec: ExportConfig, options: seq<ExportOption>): ExportConfig
    decreases |options|
  {
    if options == [] then ec else ApplyAll(Apply(options[0], ec), options[1..])
  }

  /** `NewExportConfig(options...)`. */
  method NewExportConfig(options: seq<ExportOption>) returns (ec: ExportConfig)
    ensures ec == ApplyAll(Default, options)
  {
    ec := Default;
    for i := 0 to |options|
      invariant ApplyAll(ec, options[i..]) == ApplyAll(Default, options)
    {
      assert options[i..][1..] == options[i + 1..];
      ec := Apply(options[i], ec);
    }
  }

  /** `ExportConfig.Validate`: the mode, then the temporality. */
  function Validate(ec: ExportConfig): Option<Error>
  {
    FirstError([Validator.ValidateMode(ec.mode), Validator.ValidateTemporality(ec.temporality)])
  }

  /**
   * Valid exactly when mode and temporality are known; a bad mode is reported
   * first, and file, endpoint, certificates, interval and `insecure` are never looked at.
   */
  lemma ValidateOutcome(ec: ExportConfig)
    ensures Validate(ec) == None <==>
      ec.mode in {"execute", "execute-and-save", "save"} && ec.temporality in {"cumulative", "delta"}
    ensures Validator.ValidateMode(ec.mode).Some? ==> Validate(ec) == Some(InvalidMode(ec.mode))
    ensures Validator.ValidateMode(ec.mode) == None ==> Validate(ec) == Validator.ValidateTemporality(ec.temporality)
    ensures Validate(ec) == Validate(ExportConfig(ec.mode, "", "", ec.temporality, false, 0, "", "", ""))
  {
    var errs := [Validator.ValidateMode(ec.mode), Validator.ValidateTemporality(ec.temporality)];
    if errs[0].None? && errs[1].None? {
      forall j | 0 <= j < |errs| ensures errs[j].None? {
        assert j in {0, 1};
      }
    }
    if errs[0].None? && errs[1].Some? {
      FirstErrorAt(errs, 1);
    }
  }

  /** Empty arguments override nothing. */
  lemma {:induction false} EmptyOptionsKeep(ec: ExportConfig, options: seq<ExportOption>)
    requires forall i :: 0 <= i < |options| ==> IsEmpty(options[i])
    ensures ApplyAll(ec, options) == ec
    decreases |options|
  {
    if options != [] {
      EmptyOptionsKeep(ec, options[1..]);
    }
  }

  /** `WithInsecure` always overrides, false included. */
  lemma InsecureAlwaysOverrides(ec: ExportConfig, insecure: bool)
    ensures Apply(WithInsecure(insecure), ec) == ec.(insecure := insecure)
    ensures !IsEmpty(WithInsecure(insecure))
  {
  }

  /** Each option is idempotent. */
  lemma ApplyIdempotent(o: ExportOption, ec: ExportConfig)
    ensures Apply(o, Apply(o, ec)) == Apply(o, ec)
  {
  }

  /** The defaults, which validate. */
  lemma DefaultValidates()
    ensures Default.mode == "execute" && Default.endpoint == "127.0.0.1:4317"
    ensures Default.temporality == "delta" && Default.interval == 1_000_000_000
    ensures Validate(Default) == None
  {
    ValidateOutcome(Default);
  }
}
