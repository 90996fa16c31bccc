/** The driver's configuration API group: its names and the CpuConfig object with its defaulting and validation. */
module CpuApi {
  import opened Wrappers

  const GroupName := "cpu.nvidia.com"
  const Version := "v1alpha1"
  const CpuConfigKind := "CpuConfig"

  /** The error both checks return for a nil config. */
  const NilConfigError := "config is 'nil'"

  /** The type header every API object carries. */
  datatype TypeMeta = TypeMeta(apiVersion: string, kind: string)

  /** The CPU configuration; `count` is the optional unit count (a nil pointer is None). */
  datatype CpuConfig = CpuConfig(typeMeta: TypeMeta, count: Option<int>)

  /** A config after a check that may update it in place, with the error the check returned. */
  datatype Checked = Checked(config: Option<CpuConfig>, err: Option<string>)

  /** The default configuration: this group's version, kind CpuConfig, 16 units. */
  function DefaultCpuConfig(): CpuConfig
  {
    CpuConfig(TypeMeta(GroupName + "/" + Version, CpuConfigKind), Some(16))
  }

  lemma DefaultCpuConfigValues()
    ensures DefaultCpuConfig().typeMeta.apiVersion == "cpu.nvidia.com/v1alpha1"
    ensures DefaultCpuConfig().typeMeta.kind == "CpuConfig"
    ensures DefaultCpuConfig().count == Some(16)
    ensures Validate(Some(DefaultCpuConfig())) == None
  {
  }

  /**
   * Normalize on a config pointer that may be nil: fails on nil and otherwise
   * succeeds; no implied default is filled in, so the config comes back as it was.
   */
  function Normalize(c: Option<CpuConfig>): (r: Checked)
    ensures r.config == c
    ensures r.err.Some? <==> c.None?
    ensures r.err.Some? ==> r.err.value == NilConfigError
  {
    if c.None? then Checked(c, Some(NilConfigError)) else Checked(c, None)
  }

  /** Validate on a config pointer that may be nil: an error exactly when it is nil; it returns no new config, so it cannot change one. */
  function Validate(c: Option<CpuConfig>): (err: Option<string>)
    ensures err.Some? <==> c.None?
    ensures err.Some? ==> err.value == NilConfigError
  {
    if c.None? then Some(NilConfigError) else None
  }

  /** Normalizing twice is normalizing once. */
  lemma NormalizeIdempotent(c: Option<CpuConfig>)
    ensures Normalize(Normalize(c).config) == Normalize(c)
  {
  }

  /** A normalized config validates exactly when normalization succeeded. */
  lemma ValidateAfterNormalize(c: Option<CpuConfig>)
    ensures Validate(Normalize(c).config) == Normalize(c).err
  {
  }
}
