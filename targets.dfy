/** The target description of the build script: the parsed target specification
    file (`Spec`, build.rs:23-58) and the target it describes (`Target`,
    build.rs:60-135), with the queries the build asks of it and the resolution of
    cross-compilation tools. */
module Targets {
  import opened Wrappers
  import opened Strings

  /** A parsed target specification: a flat object whose fields are strings.
      A field holding anything but a string is unrepresentable here; the build
      script treats it as unreachable. */
  type Spec = map<string, string>

  /** A field the build script requires; reading one that is missing panics. */
  function Mandatory(spec: Spec, field: string): string
    requires field in spec
  {
    spec[field]
  }

  /** A field that may be missing. */
  function Optional(spec: Spec, field: string): (r: Option<string>)
    ensures r.Some? <==> field in spec
    ensures r.Some? ==> r.value == spec[field]
  {
    if field in spec then Some(spec[field]) else None
  }

  /** A target name plus the specification file found for it, if any. */
  datatype Target = Target(name: string, spec: Option<Spec>)
  {
    /** The mandatory `field` can be read: there is no spec, or it has the field. */
    predicate Has(field: string)
    {
      spec.Some? ==> field in spec.value
    }

    /** Every mandatory field the build reads is there. */
    predicate WellFormed()
    {
      Has("arch") && Has("os") && Has("llvm-target")
    }

    /** `arch_is`: the spec's "arch" field, or else a substring test on the name. */
    function ArchIs(arch: string): (r: bool)
      requires Has("arch")
      ensures spec.Some? ==> (r <==> spec.value["arch"] == arch)
      ensures spec.None? ==> (r <==> exists k :: OccursAt(name, arch, k))
    {
      match spec
      case Some(s) => Mandatory(s, "arch") == arch
      case None => ContainsIffOccurs(name, arch); Contains(name, arch)
    }

    /** `os_is`: the spec's "os" field, or else a substring test on the name. */
    function OsIs(os: string): (r: bool)
      requires Has("os")
      ensures spec.Some? ==> (r <==> spec.value["os"] == os)
      ensures spec.None? ==> (r <==> exists k :: OccursAt(name, os, k))
    {
      match spec
      case Some(s) => Mandatory(s, "os") == os
      case None => ContainsIffOccurs(name, os); Contains(name, os)
    }

    /** `cpu`: only a spec can name one; the name never implies a CPU. */
    function Cpu(): (r: Option<string>)
      ensures r.Some? <==> spec.Some? && "cpu" in spec.value
      ensures r.Some? ==> r.value == spec.value["cpu"]
    {
      match spec
      case Some(s) => Optional(s, "cpu")
      case None => None
    }

    /** `features`: only a spec can list them. */
    function Features(): (r: Option<string>)
      ensures r.Some? <==> spec.Some? && "features" in spec.value
      ensures r.Some? ==> r.value == spec.value["features"]
    {
      match spec
      case Some(s) => Optional(s, "features")
      case None => None
    }

    /** `llvm_target`: the spec's mandatory "llvm-target" field, or else the name. */
    function LlvmTarget(): (r: string)
      requires Has("llvm-target")
      ensures spec.None? ==> r == name
      ensures spec.Some? ==> r == spec.value["llvm-target"]
    {
      match spec
      case Some(s) => Mandatory(s, "llvm-target")
      case None => name
    }

    /** `features().map(|f| f.contains("+soft-float")) == Some(true)`: missing
        features do not ask for soft float. */
    predicate SoftFloatRequested()
    {
      match Features()
      case Some(f) => Contains(f, "+soft-float")
      case None => false
    }

    /** The spec's optional "linker" field. */
    function Linker(): Option<string>
    {
      match spec
      case Some(s) => Optional(s, "linker")
      case None => None
    }

    /** The environment variable that overrides tool `env` for this target:
        `env`, an underscore, and the name with every '-' turned into '_'. */
    function ToolVar(env: string): (r: string)
      ensures |r| == |env| + 1 + |name|
      ensures r[..|env| + 1] == env + "_"
      ensures forall i :: 0 <= i < |name| ==>
        r[|env| + 1 + i] == (if name[i] == '-' then '_' else name[i])
      ensures '-' !in r[|env| + 1..]
    {
      ReplaceCharAt(name, '-', '_');
      var r := env + "_" + ReplaceAll(name, "-", "_");
      assert r[|env| + 1..] == ReplaceAll(name, "-", "_");
      r
    }

    /** `tool`: the path of the cross tool `tool` (role `env`, e.g. "AR" or "CC").
        A set override variable wins; otherwise a linker ending in "gcc" gives the
        path with every "gcc" replaced by `tool`; otherwise the build stops with
        "<variable> not set". */
    function Tool(vars: map<string, string>, env: string, tool: string): (r: Result<string, string>)
      ensures ToolVar(env) in vars ==> r == Success(vars[ToolVar(env)])
      ensures r.Success? <==>
        ToolVar(env) in vars || (Linker().Some? && EndsWith(Linker().value, "gcc"))
      ensures ToolVar(env) !in vars && r.Success? ==>
        var l := Linker().value;
        r.value == ReplaceAll(l[..|l| - 3], "gcc", tool) + tool && EndsWith(r.value, tool)
      ensures r.Failure? ==> r.error == ToolVar(env) + " not set"
    {
      var v := ToolVar(env);
      if v in vars then Success(vars[v])
      else match Linker()
        case Some(l) =>
          if EndsWith(l, "gcc") then
            assert l == l[..|l| - 3] + "gcc";
            ReplaceTrailingGcc(l[..|l| - 3], tool);
            Success(ReplaceAll(l, "gcc", tool))
          else Failure(v + " not set")
        case None => Failure(v + " not set")
    }
  }

  /** Without a linker whose text contains "gcc" only at its end, the derived
      path is the linker with that suffix swapped for the tool name. */
  lemma ToolFromPlainGccLinker(t: Target, vars: map<string, string>, env: string, tool: string, prefix: string)
    requires t.ToolVar(env) !in vars
    requires t.Linker() == Some(prefix + "gcc") && !Contains(prefix, "gcc")
    ensures t.Tool(vars, env, tool) == Success(prefix + tool)
  {
    var l := prefix + "gcc";
    assert l[..|l| - 3] == prefix;
    ReplaceAllNoMatch(prefix, "gcc", tool);
  }
}
