/** The compiler flags the build adds for a target (build.rs:528-557): an
    architecture flag per ARM profile named in the llvm-target, a CPU flag, the
    Thumb flag, and the single-precision FPU flag. */
module CompilerFlags {
  import opened Wrappers
  import opened Strings
  import opened Targets

  const FpuFlag := "-mfpu=fpv4-sp-d16"

  /** build.rs:529-541: one `-march` flag per ARM profile the llvm-target names.
      The tests are independent, so an llvm-target naming several profiles gets
      several flags. */
  function MarchFlags(t: Target): seq<string>
    requires t.Has("arch") && t.Has("llvm-target")
  {
    var arm := t.ArchIs("arm");
    var llvm := t.LlvmTarget();
    (if arm && Contains(llvm, "v6m") then ["-march=armv6-m"] else [])
    + (if arm && Contains(llvm, "v7m") then ["-march=armv7-m"] else [])
    + (if arm && Contains(llvm, "v7em") then ["-march=armv7e-m"] else [])
  }

  /** build.rs:544-546: `-mcpu=<cpu>` when the spec names a CPU. */
  function CpuFlags(t: Target): seq<string>
  {
    match t.Cpu()
    case Some(cpu) => ["-mcpu=" + cpu]
    case None => []
  }

  /** build.rs:549-551: `-mthumb` when the llvm-target starts with "thumb". */
  function ThumbFlags(t: Target): seq<string>
    requires t.Has("llvm-target")
  {
    if StartsWith(t.LlvmTarget(), "thumb") then ["-mthumb"] else []
  }

  /** build.rs:554-557: the single-precision FPU flag for a cortex-m4 that does
      not ask for soft float. */
  function FpuFlags(t: Target): seq<string>
  {
    if t.Cpu() == Some("cortex-m4") && !t.SoftFloatRequested() then [FpuFlag] else []
  }

  /** All flags of build.rs:528-557, in the order the build adds them. */
  function Flags(t: Target): seq<string>
    requires t.Has("arch") && t.Has("llvm-target")
  {
    MarchFlags(t) + CpuFlags(t) + ThumbFlags(t) + FpuFlags(t)
  }

  /** build.rs:528-557: the flags appended one test at a time. */
  method ComposeFlags(t: Target) returns (flags: seq<string>)
    requires t.Has("arch") && t.Has("llvm-target")
    ensures flags == Flags(t)
  {
    var llvm := t.LlvmTarget();
    flags := [];
    if t.ArchIs("arm") {
      if Contains(llvm, "v6m") {
        flags := flags + ["-march=armv6-m"];
      }
      if Contains(llvm, "v7m") {
        flags := flags + ["-march=armv7-m"];
      }
      if Contains(llvm, "v7em") {
        flags := flags + ["-march=armv7e-m"];
      }
    }
    assert flags == MarchFlags(t);
    match t.Cpu() {
      case Some(cpu) => flags := flags + ["-mcpu=" + cpu];
      case None =>
    }
    assert flags == MarchFlags(t) + CpuFlags(t);
    if StartsWith(llvm, "thumb") {
      flags := flags + ["-mthumb"];
    }
    assert flags == MarchFlags(t) + CpuFlags(t) + ThumbFlags(t);
    if t.Cpu() == Some("cortex-m4") && !t.SoftFloatRequested() {
      flags := flags + [FpuFlag];
    }
  }

  /** The position of each kind of flag in the order the build adds them. */
  function FlagRank(f: string): nat
  {
    if f == "-march=armv6-m" then 0
    else if f == "-march=armv7-m" then 1
    else if f == "-march=armv7e-m" then 2
    else if StartsWith(f, "-mcpu=") then 3
    else if f == "-mthumb" then 4
    else 5
  }

  /** Every flag comes strictly after every flag of an earlier kind. */
  ghost predicate Ranked(flags: seq<string>)
  {
    forall i, j :: 0 <= i < j < |flags| ==> FlagRank(flags[i]) < FlagRank(flags[j])
  }

  /** The rank of each flag the build can add. */
  lemma FlagRanks(cpu: string)
    ensures FlagRank("-march=armv6-m") == 0
    ensures FlagRank("-march=armv7-m") == 1
    ensures FlagRank("-march=armv7e-m") == 2
    ensures FlagRank("-mcpu=" + cpu) == 3
    ensures FlagRank("-mthumb") == 4
    ensures FlagRank(FpuFlag) == 5
  {
    assert "-march=armv7-m"[11] != "-march=armv6-m"[11];
    assert "-march=armv7e-m"[12] != "-march=armv6-m"[12];
    assert "-march=armv7e-m"[12] != "-march=armv7-m"[12];
    var f := "-mcpu=" + cpu;
    assert f[2] == 'c';
    assert f[..6] == "-mcpu=";
    assert "-mthumb"[2] == 't';
    assert FpuFlag[2] == 'f';
  }

  /** Appending a flag of a later kind keeps the list ranked. */
  lemma RankedAppend(flags: seq<string>, more: seq<string>, k: nat)
    requires Ranked(flags) && |more| <= 1
    requires forall f :: f in flags ==> FlagRank(f) < k
    requires forall f :: f in more ==> FlagRank(f) == k
    ensures Ranked(flags + more)
    ensures forall f :: f in flags + more ==> FlagRank(f) <= k
  {
    var s := flags + more;
    forall i, j | 0 <= i < j < |s| ensures FlagRank(s[i]) < FlagRank(s[j]) {
      if j >= |flags| {
        assert s[i] in flags && s[j] in more;
      } else {
        assert s[i] == flags[i] && s[j] == flags[j];
      }
    }
  }

  /** The `-march` flags come in append order, each at most once. */
  lemma MarchRanks(t: Target)
    requires t.Has("arch") && t.Has("llvm-target")
    ensures Ranked(MarchFlags(t)) && forall f :: f in MarchFlags(t) ==> FlagRank(f) <= 2
  {
    var arm := t.ArchIs("arm");
    var llvm := t.LlvmTarget();
    var p0 := if arm && Contains(llvm, "v6m") then ["-march=armv6-m"] else [];
    var p1 := if arm && Contains(llvm, "v7m") then ["-march=armv7-m"] else [];
    var p2 := if arm && Contains(llvm, "v7em") then ["-march=armv7e-m"] else [];
    assert MarchFlags(t) == p0 + p1 + p2;
    FlagRanks("");
    RankedAppend([], p0, 0);
    RankedAppend(p0, p1, 1);
    RankedAppend(p0 + p1, p2, 2);
  }

  /** The kinds of flag each part of the build adds. */
  lemma PartRanks(t: Target)
    requires t.Has("arch") && t.Has("llvm-target")
    ensures Ranked(MarchFlags(t)) && forall f :: f in MarchFlags(t) ==> FlagRank(f) <= 2
    ensures |CpuFlags(t)| <= 1 && forall f :: f in CpuFlags(t) ==> FlagRank(f) == 3
    ensures |ThumbFlags(t)| <= 1 && forall f :: f in ThumbFlags(t) ==> FlagRank(f) == 4
    ensures |FpuFlags(t)| <= 1 && forall f :: f in FpuFlags(t) ==> FlagRank(f) == 5
  {
    MarchRanks(t);
    FlagRanks(if t.Cpu().Some? then t.Cpu().value else "");
  }

  /** The flags come in the build's order, each kind at most once. */
  lemma FlagsRanked(t: Target)
    requires t.Has("arch") && t.Has("llvm-target")
    ensures Ranked(Flags(t))
    ensures |Flags(t)| <= 6
  {
    PartRanks(t);
    var march, cpu, thumb := MarchFlags(t), CpuFlags(t), ThumbFlags(t);
    RankedAppend(march, cpu, 3);
    RankedAppend(march + cpu, thumb, 4);
    RankedAppend(march + cpu + thumb, FpuFlags(t), 5);
  }

  /** The build adds no flag besides the four kinds it names. */
  lemma FlagsKnown(t: Target)
    requires t.Has("arch") && t.Has("llvm-target")
    ensures forall f :: f in Flags(t) ==>
      f in ["-march=armv6-m", "-march=armv7-m", "-march=armv7e-m", "-mthumb", FpuFlag] ||
      StartsWith(f, "-mcpu=")
  {
    forall f | f in Flags(t)
      ensures f in ["-march=armv6-m", "-march=armv7-m", "-march=armv7e-m", "-mthumb", FpuFlag] ||
        StartsWith(f, "-mcpu=")
    {
      if f in CpuFlags(t) {
        assert ("-mcpu=" + t.Cpu().value)[..6] == "-mcpu=";
      }
    }
  }

  /** Which flags the build adds, each condition in both directions, and that it
      adds no other flag. */
  lemma FlagsSpec(t: Target)
    requires t.Has("arch") && t.Has("llvm-target")
    ensures ("-march=armv6-m" in Flags(t)) <==> t.ArchIs("arm") && Contains(t.LlvmTarget(), "v6m")
    ensures ("-march=armv7-m" in Flags(t)) <==> t.ArchIs("arm") && Contains(t.LlvmTarget(), "v7m")
    ensures ("-march=armv7e-m" in Flags(t)) <==> t.ArchIs("arm") && Contains(t.LlvmTarget(), "v7em")
    ensures forall cpu :: ("-mcpu=" + cpu in Flags(t)) <==> t.Cpu() == Some(cpu)
    ensures ("-mthumb" in Flags(t)) <==> StartsWith(t.LlvmTarget(), "thumb")
    ensures (FpuFlag in Flags(t)) <==> t.Cpu() == Some("cortex-m4") && !t.SoftFloatRequested()
    ensures forall f :: f in Flags(t) ==>
      f in ["-march=armv6-m", "-march=armv7-m", "-march=armv7e-m", "-mthumb", FpuFlag] ||
      StartsWith(f, "-mcpu=")
  {
    PartRanks(t);
    FlagRanks("");
    FlagsKnown(t);
    forall cpu ensures ("-mcpu=" + cpu in Flags(t)) <==> t.Cpu() == Some(cpu) {
      FlagRanks(cpu);
      var f := "-mcpu=" + cpu;
      if f in CpuFlags(t) {
        var c := t.Cpu().value;
        assert f == "-mcpu=" + c;
        assert cpu == f[6..] == c;
      }
    }
  }
}
