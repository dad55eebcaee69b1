/** The `build` step of the build script (build.rs:157-560) without the compiler
    invocation: the file list, the cross tools and the flags it hands to the C
    compiler, and two targets worked through end to end. */
module Build {
  import opened Wrappers
  import opened Strings
  import opened Targets
  import opened Catalog
  import opened Sources
  import opened CompilerFlags

  /** What the build configures before compiling: the files (relative to
      lib/builtins), the archiver and compiler (only when cross-compiling), and
      the flags. */
  datatype BuildPlan = BuildPlan(
    files: seq<string>,
    archiver: Option<string>,
    compiler: Option<string>,
    flags: seq<string>)

  /** build.rs:484-557. The host name is a parameter; the cross tools are looked
      up only when the target is not the host, the archiver before the compiler,
      and the first one that cannot be resolved stops the build with its message. */
  method Build(t: Target, vars: map<string, string>, host: string) returns (r: Result<BuildPlan, string>)
    requires t.WellFormed()
    ensures t.name == host ==> r == Success(BuildPlan(SourceSet(t), None, None, Flags(t)))
    ensures t.name != host ==>
      var ar, cc := t.Tool(vars, "AR", "ar"), t.Tool(vars, "CC", "gcc");
      && (r.Success? <==> ar.Success? && cc.Success?)
      && (r.Success? ==> r.value == BuildPlan(SourceSet(t), Some(ar.value), Some(cc.value), Flags(t)))
      && (r.Failure? ==> r.error == if ar.Failure? then ar.error else cc.error)
  {
    var files := ComposeSources(t);
    var archiver, compiler := None, None;
    if t.name != host {
      var ar := t.Tool(vars, "AR", "ar");
      if ar.Failure? {
        return Failure(ar.error);
      }
      var cc := t.Tool(vars, "CC", "gcc");
      if cc.Failure? {
        return Failure(cc.error);
      }
      archiver, compiler := Some(ar.value), Some(cc.value);
    }
    var flags := ComposeFlags(t);
    r := Success(BuildPlan(files, archiver, compiler, flags));
  }

  /** A bare-metal x86 target without a spec file. */
  const BareMetalX86: Target := Target("i686-unknown-none", None)

  /** "none" is found in its name and "arm" is not. */
  lemma BareMetalX86Queries()
    ensures BareMetalX86.OsIs("none") && !BareMetalX86.ArchIs("arm")
  {
    var name := BareMetalX86.name;
    assert OccursAt(name, "none", 13);
    assert 'a' !in name;
    NotContainsMissingChar(name, "arm", 0);
  }

  /** A target without a spec names no CPU; if its name neither contains "arm"
      nor starts with "thumb", the build adds no flag. */
  lemma NoSpecNoFlags(t: Target)
    requires t.spec.None? && !t.ArchIs("arm") && !StartsWith(t.name, "thumb")
    ensures Flags(t) == []
  {
  }

  /** The bare-metal x86 target gets no flag. */
  lemma BareMetalX86Flags()
    ensures Flags(BareMetalX86) == []
  {
    BareMetalX86Queries();
    assert BareMetalX86.name[..5][0] != "thumb"[0];
    NoSpecNoFlags(BareMetalX86);
  }

  /** So the build compiles the generic catalog minus OS_NONE_BLACKLIST and no
      ARM file. */
  lemma BareMetalX86Sources()
    ensures SourceSet(BareMetalX86) == Without(GenericSources, OsNoneBlacklist)
  {
    BareMetalX86Queries();
    SourceSetSpec(BareMetalX86);
  }

  /** The llvm-target of a Cortex-M4F with a hardware FPU. */
  const CortexM4FLlvm := "thumbv7em-none-eabihf"

  /** A Cortex-M4F target whose spec names its CPU and no features. */
  const CortexM4F: Target := Target(CortexM4FLlvm, Some(map[
    "arch" := "arm",
    "os" := "none",
    "cpu" := "cortex-m4",
    "llvm-target" := CortexM4FLlvm]))

  /** What the spec of CortexM4F answers. */
  lemma CortexM4FQueries()
    ensures CortexM4F.WellFormed() && CortexM4F.ArchIs("arm")
    ensures CortexM4F.LlvmTarget() == CortexM4FLlvm
    ensures CortexM4F.Cpu() == Some("cortex-m4") && !CortexM4F.SoftFloatRequested()
  {
  }

  /** Its llvm-target is a Thumb, ARMv7E-M one. */
  lemma CortexM4FThumb()
    ensures StartsWith(CortexM4FLlvm, "thumbv7em") && StartsWith(CortexM4FLlvm, "thumb")
  {
    assert CortexM4FLlvm[..9] == "thumbv7em";
    assert CortexM4FLlvm[..5] == "thumb";
  }

  /** Its llvm-target names ARMv7E-M ... */
  lemma CortexM4FNamesV7em()
    ensures Contains(CortexM4FLlvm, "v7em")
  {
    assert CortexM4FLlvm[5..9] == "v7em";
    ContainsAt(CortexM4FLlvm, "v7em", 5);
  }

  /** ... and neither ARMv6-M ... */
  lemma CortexM4FNoV6m()
    ensures !Contains(CortexM4FLlvm, "v6m")
  {
    assert '6' !in CortexM4FLlvm;
    NotContainsMissingChar(CortexM4FLlvm, "v6m", 1);
  }

  /** ... nor ARMv7-M: its only 'v' starts "v7e". */
  lemma CortexM4FNoV7m()
    ensures !Contains(CortexM4FLlvm, "v7m")
  {
    var llvm := CortexM4FLlvm;
    assert llvm[..5] == "thumb" && 'v' !in "thumb";
    assert llvm[6..] == "7em-none-eabihf" && 'v' !in "7em-none-eabihf";
    assert llvm[5..][2] == 'e';
    NotContainsSingleCandidate(llvm, "v7m", 5);
  }

  /** The flags of an ARM target whose llvm-target is a Thumb one naming
      ARMv7E-M only, on a cortex-m4 without soft float. */
  lemma ThumbV7emM4Flags(t: Target)
    requires t.Has("arch") && t.Has("llvm-target")
    requires t.ArchIs("arm") && StartsWith(t.LlvmTarget(), "thumb")
    requires Contains(t.LlvmTarget(), "v7em")
    requires !Contains(t.LlvmTarget(), "v6m") && !Contains(t.LlvmTarget(), "v7m")
    requires t.Cpu() == Some("cortex-m4") && !t.SoftFloatRequested()
    ensures Flags(t) == ["-march=armv7e-m", "-mcpu=cortex-m4", "-mthumb", FpuFlag]
  {
    assert "-mcpu=" + "cortex-m4" == "-mcpu=cortex-m4";
  }

  /** The flags select ARMv7E-M, the CPU, Thumb mode and the FPU. */
  lemma CortexM4FFlags()
    ensures Flags(CortexM4F) == ["-march=armv7e-m", "-mcpu=cortex-m4", "-mthumb", FpuFlag]
  {
    CortexM4FQueries();
    CortexM4FThumb();
    CortexM4FNamesV7em();
    CortexM4FNoV6m();
    CortexM4FNoV7m();
    ThumbV7emM4Flags(CortexM4F);
  }

  /** With the CPU named, the soft-float blacklist does not apply: the ARM part
      is ARM_SOURCES minus THUMB_BLACKLIST and SP_FPU_BLACKLIST, so the VFP
      routines blacklisted for soft float only are compiled and those needing a
      double-precision unit are not. */
  lemma CortexM4FSources()
    ensures ArmPart(CortexM4F) == Without(ArmSources, ThumbBlacklist + SpFpuBlacklist)
    ensures forall f ::
      (f in ArmSources && f in SoftFloatBlacklist && f !in ThumbBlacklist && f !in SpFpuBlacklist)
      ==> f in ArmPart(CortexM4F)
    ensures forall f :: f in SpFpuBlacklist ==> f !in ArmPart(CortexM4F)
  {
    CortexM4FQueries();
    CortexM4FThumb();
    assert ArmExclusions(CortexM4F) == ThumbBlacklist + SpFpuBlacklist;
    ArmPartSpec(CortexM4F);
  }
}
