/** Which catalog files the build compiles for a target (build.rs:484-521): every
    generic file except, on a target without an operating system, those in
    OS_NONE_BLACKLIST; then, on ARM, the ARM files that pass four exclusion tests. */
module Sources {
  import opened Wrappers
  import opened Strings
  import opened Targets
  import opened Catalog

  /** `cat` with every entry of `bl` deleted, the rest in their original order. */
  function Without(cat: seq<string>, bl: seq<string>): (r: seq<string>)
    ensures forall f :: f in r <==> f in cat && f !in bl
    ensures IsSubsequence(r, cat)
  {
    if cat == [] then []
    else if cat[0] in bl then Without(cat[1..], bl)
    else [cat[0]] + Without(cat[1..], bl)
  }

  /** `r` is `s` with some entries deleted. */
  ghost predicate IsSubsequence(r: seq<string>, s: seq<string>)
  {
    r == [] ||
    (s != [] && ((r[0] == s[0] && IsSubsequence(r[1..], s[1..])) || IsSubsequence(r, s[1..])))
  }

  /** Deleting from a catalog with one more entry at its end. */
  lemma {:induction false} WithoutSnoc(cat: seq<string>, f: string, bl: seq<string>)
    ensures Without(cat + [f], bl) == Without(cat, bl) + (if f in bl then [] else [f])
  {
    if cat != [] {
      assert (cat + [f])[1..] == cat[1..] + [f];
      WithoutSnoc(cat[1..], f, bl);
    }
  }

  /** build.rs:486-492: a generic file is compiled unless the target has no
      operating system and the file is in OS_NONE_BLACKLIST. */
  predicate KeepGeneric(t: Target, f: string)
    requires t.Has("os")
  {
    if t.OsIs("none") then f !in OsNoneBlacklist else true
  }

  /** build.rs:497-517: an ARM file is compiled unless one of the four `continue`
      tests fires. The third is read as Rust parses it: `&&` binds tighter than
      `||`, so a target whose llvm-target does not start with "thumbv7em", or
      that asks for soft float, skips every ARM file. */
  predicate KeepArm(t: Target, f: string)
    requires t.Has("llvm-target")
  {
    var llvm := t.LlvmTarget();
    && !(StartsWith(llvm, "thumb") && f in ThumbBlacklist)
    && !(StartsWith(llvm, "thumbv6m") && f in Armv6mBlacklist)
    && !(!StartsWith(llvm, "thumbv7em") || t.SoftFloatRequested() ||
         (t.Cpu().None? && f in SoftFloatBlacklist))
    && !(t.Cpu() == Some("cortex-m4") && f in SpFpuBlacklist)
  }

  /** The generic files of `cat` the build keeps, in order. */
  function SelectGeneric(t: Target, cat: seq<string>): (r: seq<string>)
    requires t.Has("os")
    ensures |r| <= |cat|
    ensures forall f :: f in r <==> f in cat && KeepGeneric(t, f)
    decreases |cat|
  {
    if cat == [] then []
    else
      var n := |cat| - 1;
      assert cat == cat[..n] + [cat[n]];
      SelectGeneric(t, cat[..n]) + (if KeepGeneric(t, cat[n]) then [cat[n]] else [])
  }

  /** The ARM files of `cat` the build keeps, in order. */
  function SelectArm(t: Target, cat: seq<string>): (r: seq<string>)
    requires t.Has("llvm-target")
    ensures |r| <= |cat|
    ensures forall f :: f in r <==> f in cat && KeepArm(t, f)
    decreases |cat|
  {
    if cat == [] then []
    else
      var n := |cat| - 1;
      assert cat == cat[..n] + [cat[n]];
      SelectArm(t, cat[..n]) + (if KeepArm(t, cat[n]) then [cat[n]] else [])
  }

  /** The ARM part of the build: empty unless the target's arch is "arm". */
  function ArmPart(t: Target): seq<string>
    requires t.WellFormed()
  {
    if t.ArchIs("arm") then SelectArm(t, ArmSources) else []
  }

  /** The whole ordered file list of the build: generic part, then ARM part. */
  function SourceSet(t: Target): seq<string>
    requires t.WellFormed()
  {
    SelectGeneric(t, GenericSources) + ArmPart(t)
  }

  /** build.rs:485-493: the loop over the generic catalog, appending every file
      that passes the operating-system test. */
  method FilterGeneric(t: Target, cat: seq<string>) returns (files: seq<string>)
    requires t.Has("os")
    ensures files == SelectGeneric(t, cat)
  {
    files := [];
    for i := 0 to |cat|
      invariant files == SelectGeneric(t, cat[..i])
    {
      var source := cat[i];
      assert cat[..i + 1][..i] == cat[..i];
      if t.OsIs("none") {
        if source !in OsNoneBlacklist {
          files := files + [source];
        }
      } else {
        files := files + [source];
      }
    }
    assert cat[..|cat|] == cat;
  }

  /** build.rs:496-520: the loop over the ARM catalog, where each exclusion test
      skips the file with `continue`. */
  method FilterArm(t: Target, cat: seq<string>) returns (files: seq<string>)
    requires t.Has("llvm-target")
    ensures files == SelectArm(t, cat)
  {
    files := [];
    for i := 0 to |cat|
      invariant files == SelectArm(t, cat[..i])
    {
      var source := cat[i];
      assert cat[..i + 1][..i] == cat[..i];
      var llvm := t.LlvmTarget();
      if StartsWith(llvm, "thumb") && source in ThumbBlacklist {
        continue;
      }
      if StartsWith(llvm, "thumbv6m") && source in Armv6mBlacklist {
        continue;
      }
      if !StartsWith(llvm, "thumbv7em") || t.SoftFloatRequested() ||
         (t.Cpu().None? && source in SoftFloatBlacklist) {
        continue;
      }
      if t.Cpu() == Some("cortex-m4") && source in SpFpuBlacklist {
        continue;
      }
      files := files + [source];
    }
    assert cat[..|cat|] == cat;
  }

  /** build.rs:484-521: the generic loop, then the ARM loop on an ARM target. */
  method ComposeSources(t: Target) returns (files: seq<string>)
    requires t.WellFormed()
    ensures files == SourceSet(t)
  {
    files := FilterGeneric(t, GenericSources);
    if t.ArchIs("arm") {
      var arm := FilterArm(t, ArmSources);
      files := files + arm;
    }
  }

  /** Generic selection: on a target without an operating system, exactly the
      catalog minus OS_NONE_BLACKLIST, in catalog order; otherwise the catalog
      unchanged. */
  lemma {:induction false} SelectGenericSpec(t: Target, cat: seq<string>)
    requires t.Has("os")
    ensures SelectGeneric(t, cat) == if t.OsIs("none") then Without(cat, OsNoneBlacklist) else cat
    decreases |cat|
  {
    if cat != [] {
      var n := |cat| - 1;
      assert cat == cat[..n] + [cat[n]];
      SelectGenericSpec(t, cat[..n]);
      WithoutSnoc(cat[..n], cat[n], OsNoneBlacklist);
    }
  }

  /** When the keep test amounts to "not in `bl`", the ARM selection is the
      catalog minus `bl`, in order. */
  lemma {:induction false} SelectArmIsWithout(t: Target, cat: seq<string>, bl: seq<string>)
    requires t.Has("llvm-target")
    requires forall f :: f in cat ==> (KeepArm(t, f) <==> f !in bl)
    ensures SelectArm(t, cat) == Without(cat, bl)
    decreases |cat|
  {
    if cat != [] {
      var n := |cat| - 1;
      assert cat == cat[..n] + [cat[n]];
      SelectArmIsWithout(t, cat[..n], bl);
      WithoutSnoc(cat[..n], cat[n], bl);
    }
  }

  /** When no file passes the keep test, the ARM selection is empty. */
  lemma {:induction false} SelectArmNoneKept(t: Target, cat: seq<string>)
    requires t.Has("llvm-target")
    requires forall f :: f in cat ==> !KeepArm(t, f)
    ensures SelectArm(t, cat) == []
    decreases |cat|
  {
    if cat != [] {
      var n := |cat| - 1;
      assert cat[n] in cat;
      SelectArmNoneKept(t, cat[..n]);
    }
  }

  /** The ARM files excluded for a thumbv7em target that does not ask for soft
      float: the THUMB_BLACKLIST; SOFT_FLOAT_BLACKLIST when no CPU is named;
      SP_FPU_BLACKLIST when the CPU is the single-precision cortex-m4. */
  function ArmExclusions(t: Target): seq<string>
  {
    ThumbBlacklist
    + (if t.Cpu().None? then SoftFloatBlacklist else [])
    + (if t.Cpu() == Some("cortex-m4") then SpFpuBlacklist else [])
  }

  /** The keep test for ARM files, simplified: the file is kept exactly when the
      llvm-target starts with "thumbv7em", soft float is not asked for, and the
      file is not in ArmExclusions. Such an llvm-target always starts with
      "thumb" and never with "thumbv6m", so ARMV6M_BLACKLIST never decides. */
  lemma KeepArmSpec(t: Target, f: string)
    requires t.Has("llvm-target")
    ensures KeepArm(t, f) <==>
      StartsWith(t.LlvmTarget(), "thumbv7em") && !t.SoftFloatRequested() && f !in ArmExclusions(t)
  {
    var llvm := t.LlvmTarget();
    if StartsWith(llvm, "thumbv7em") {
      assert llvm[..5] == llvm[..9][..5] == "thumb";
      assert llvm[6] == '7';
    }
  }

  /** ARM selection: empty unless the arch is "arm", the llvm-target starts with
      "thumbv7em" and soft float is not asked for; then exactly ARM_SOURCES minus
      ArmExclusions, in catalog order. */
  lemma ArmPartSpec(t: Target)
    requires t.WellFormed()
    ensures ArmPart(t) ==
      if t.ArchIs("arm") && StartsWith(t.LlvmTarget(), "thumbv7em") && !t.SoftFloatRequested()
      then Without(ArmSources, ArmExclusions(t))
      else []
  {
    forall f ensures KeepArm(t, f) <==>
      StartsWith(t.LlvmTarget(), "thumbv7em") && !t.SoftFloatRequested() && f !in ArmExclusions(t)
    {
      KeepArmSpec(t, f);
    }
    if t.ArchIs("arm") {
      if StartsWith(t.LlvmTarget(), "thumbv7em") && !t.SoftFloatRequested() {
        SelectArmIsWithout(t, ArmSources, ArmExclusions(t));
      } else {
        SelectArmNoneKept(t, ArmSources);
      }
    }
  }

  /** Every selected ARM file comes from ARM_SOURCES, keeps catalog order, and
      passes the keep test; a thumbv6m target gets none at all. */
  lemma ArmPartShape(t: Target)
    requires t.WellFormed()
    ensures IsSubsequence(ArmPart(t), ArmSources)
    ensures forall f :: f in ArmPart(t) <==> t.ArchIs("arm") && f in ArmSources && KeepArm(t, f)
    ensures StartsWith(t.LlvmTarget(), "thumbv6m") ==> ArmPart(t) == []
  {
    ArmPartSpec(t);
    var llvm := t.LlvmTarget();
    if StartsWith(llvm, "thumbv6m") {
      assert llvm[6] == '6';
      assert !StartsWith(llvm, "thumbv7em");
    }
  }

  /** The file list is the generic selection followed by the ARM selection, and
      a target whose arch is not "arm" gets generic files only. */
  lemma SourceSetSpec(t: Target)
    requires t.WellFormed()
    ensures SourceSet(t) ==
      (if t.OsIs("none") then Without(GenericSources, OsNoneBlacklist) else GenericSources)
      + ArmPart(t)
    ensures !t.ArchIs("arm") ==> (SourceSet(t) ==
      (if t.OsIs("none") then Without(GenericSources, OsNoneBlacklist) else GenericSources))
  {
    SelectGenericSpec(t, GenericSources);
  }
}
