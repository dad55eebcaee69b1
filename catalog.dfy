/** The fixed source catalogs and blacklists of the builtins build (build.rs:160-482).
    Entries are paths relative to compiler-rt's lib/builtins directory; a blacklist
    is decided by exact membership. */
module Catalog {

  /** GENERIC_SOURCES (build.rs:160-294), 134 entries; "atomic.c" is commented out there. */
  const GenericSources: seq<string> := [
    "absvdi2.c",
    "absvsi2.c",
    "absvti2.c",
    "adddf3.c",
    "addsf3.c",
    "addtf3.c",
    "addvdi3.c",
    "addvsi3.c",
    "addvti3.c",
    "apple_versioning.c",
    "ashldi3.c",
    "ashlti3.c",
    "ashrdi3.c",
    "ashrti3.c",
    "clear_cache.c",
    "clzdi2.c",
    "clzsi2.c",
    "clzti2.c",
    "cmpdi2.c",
    "cmpti2.c",
    "comparedf2.c",
    "comparesf2.c",
    "ctzdi2.c",
    "ctzsi2.c",
    "ctzti2.c",
    "divdc3.c",
    "divdf3.c",
    "divdi3.c",
    "divmoddi4.c",
    "divmodsi4.c",
    "divsc3.c",
    "divsf3.c",
    "divsi3.c",
    "divtc3.c",
    "divti3.c",
    "divtf3.c",
    "divxc3.c",
    "enable_execute_stack.c",
    "eprintf.c",
    "extendsfdf2.c",
    "extendhfsf2.c",
    "ffsdi2.c",
    "ffsti2.c",
    "fixdfdi.c",
    "fixdfsi.c",
    "fixdfti.c",
    "fixsfdi.c",
    "fixsfsi.c",
    "fixsfti.c",
    "fixunsdfdi.c",
    "fixunsdfsi.c",
    "fixunsdfti.c",
    "fixunssfdi.c",
    "fixunssfsi.c",
    "fixunssfti.c",
    "fixunsxfdi.c",
    "fixunsxfsi.c",
    "fixunsxfti.c",
    "fixxfdi.c",
    "fixxfti.c",
    "floatdidf.c",
    "floatdisf.c",
    "floatdixf.c",
    "floatsidf.c",
    "floatsisf.c",
    "floattidf.c",
    "floattisf.c",
    "floattixf.c",
    "floatundidf.c",
    "floatundisf.c",
    "floatundixf.c",
    "floatunsidf.c",
    "floatunsisf.c",
    "floatuntidf.c",
    "floatuntisf.c",
    "floatuntixf.c",
    "int_util.c",
    "lshrdi3.c",
    "lshrti3.c",
    "moddi3.c",
    "modsi3.c",
    "modti3.c",
    "muldc3.c",
    "muldf3.c",
    "muldi3.c",
    "mulodi4.c",
    "mulosi4.c",
    "muloti4.c",
    "mulsc3.c",
    "mulsf3.c",
    "multi3.c",
    "multf3.c",
    "mulvdi3.c",
    "mulvsi3.c",
    "mulvti3.c",
    "mulxc3.c",
    "negdf2.c",
    "negdi2.c",
    "negsf2.c",
    "negti2.c",
    "negvdi2.c",
    "negvsi2.c",
    "negvti2.c",
    "paritydi2.c",
    "paritysi2.c",
    "parityti2.c",
    "popcountdi2.c",
    "popcountsi2.c",
    "popcountti2.c",
    "powidf2.c",
    "powisf2.c",
    "powitf2.c",
    "powixf2.c",
    "subdf3.c",
    "subsf3.c",
    "subvdi3.c",
    "subvsi3.c",
    "subvti3.c",
    "subtf3.c",
    "trampoline_setup.c",
    "truncdfhf2.c",
    "truncdfsf2.c",
    "truncsfhf2.c",
    "ucmpdi2.c",
    "ucmpti2.c",
    "udivdi3.c",
    "udivmoddi4.c",
    "udivmodsi4.c",
    "udivmodti4.c",
    "udivsi3.c",
    "udivti3.c",
    "umoddi3.c",
    "umodsi3.c",
    "umodti3.c"
  ]

  /** ARM_SOURCES (build.rs:296-384), 89 entries. */
  const ArmSources: seq<string> := [
    "arm/adddf3vfp.S",
    "arm/addsf3vfp.S",
    "arm/aeabi_cdcmp.S",
    "arm/aeabi_cdcmpeq_check_nan.c",
    "arm/aeabi_cfcmp.S",
    "arm/aeabi_cfcmpeq_check_nan.c",
    "arm/aeabi_dcmp.S",
    "arm/aeabi_div0.c",
    "arm/aeabi_drsub.c",
    "arm/aeabi_fcmp.S",
    "arm/aeabi_frsub.c",
    "arm/aeabi_idivmod.S",
    "arm/aeabi_ldivmod.S",
    "arm/aeabi_memcmp.S",
    "arm/aeabi_memcpy.S",
    "arm/aeabi_memmove.S",
    "arm/aeabi_memset.S",
    "arm/aeabi_uidivmod.S",
    "arm/aeabi_uldivmod.S",
    "arm/bswapdi2.S",
    "arm/bswapsi2.S",
    "arm/clzdi2.S",
    "arm/clzsi2.S",
    "arm/comparesf2.S",
    "arm/divdf3vfp.S",
    "arm/divmodsi4.S",
    "arm/divsf3vfp.S",
    "arm/divsi3.S",
    "arm/eqdf2vfp.S",
    "arm/eqsf2vfp.S",
    "arm/extendsfdf2vfp.S",
    "arm/fixdfsivfp.S",
    "arm/fixsfsivfp.S",
    "arm/fixunsdfsivfp.S",
    "arm/fixunssfsivfp.S",
    "arm/floatsidfvfp.S",
    "arm/floatsisfvfp.S",
    "arm/floatunssidfvfp.S",
    "arm/floatunssisfvfp.S",
    "arm/gedf2vfp.S",
    "arm/gesf2vfp.S",
    "arm/gtdf2vfp.S",
    "arm/gtsf2vfp.S",
    "arm/ledf2vfp.S",
    "arm/lesf2vfp.S",
    "arm/ltdf2vfp.S",
    "arm/ltsf2vfp.S",
    "arm/modsi3.S",
    "arm/muldf3vfp.S",
    "arm/mulsf3vfp.S",
    "arm/nedf2vfp.S",
    "arm/negdf2vfp.S",
    "arm/negsf2vfp.S",
    "arm/nesf2vfp.S",
    "arm/restore_vfp_d8_d15_regs.S",
    "arm/save_vfp_d8_d15_regs.S",
    "arm/subdf3vfp.S",
    "arm/subsf3vfp.S",
    "arm/switch16.S",
    "arm/switch32.S",
    "arm/switch8.S",
    "arm/switchu8.S",
    "arm/sync_fetch_and_add_4.S",
    "arm/sync_fetch_and_add_8.S",
    "arm/sync_fetch_and_and_4.S",
    "arm/sync_fetch_and_and_8.S",
    "arm/sync_fetch_and_max_4.S",
    "arm/sync_fetch_and_max_8.S",
    "arm/sync_fetch_and_min_4.S",
    "arm/sync_fetch_and_min_8.S",
    "arm/sync_fetch_and_nand_4.S",
    "arm/sync_fetch_and_nand_8.S",
    "arm/sync_fetch_and_or_4.S",
    "arm/sync_fetch_and_or_8.S",
    "arm/sync_fetch_and_sub_4.S",
    "arm/sync_fetch_and_sub_8.S",
    "arm/sync_fetch_and_umax_4.S",
    "arm/sync_fetch_and_umax_8.S",
    "arm/sync_fetch_and_umin_4.S",
    "arm/sync_fetch_and_umin_8.S",
    "arm/sync_fetch_and_xor_4.S",
    "arm/sync_fetch_and_xor_8.S",
    "arm/sync_synchronize.S",
    "arm/truncdfsf2vfp.S",
    "arm/udivmodsi4.S",
    "arm/udivsi3.S",
    "arm/umodsi3.S",
    "arm/unorddf2vfp.S",
    "arm/unordsf2vfp.S"
  ]

  /** THUMB_BLACKLIST (build.rs:387-398), 12 entries. */
  const ThumbBlacklist: seq<string> := [
    "arm/aeabi_cdcmp.S",
    "arm/aeabi_cfcmp.S",
    "arm/eqdf2vfp.S",
    "arm/gedf2vfp.S",
    "arm/gtdf2vfp.S",
    "arm/ledf2vfp.S",
    "arm/ltdf2vfp.S",
    "arm/ltsf2vfp.S",
    "arm/nedf2vfp.S",
    "arm/nesf2vfp.S",
    "arm/unorddf2vfp.S",
    "arm/unordsf2vfp.S"
  ]

  /** ARMV6M_BLACKLIST (build.rs:400-428), 29 entries. */
  const Armv6mBlacklist: seq<string> := [
    "arm/aeabi_dcmp.S",
    "arm/aeabi_fcmp.S",
    "arm/aeabi_ldivmod.S",
    "arm/aeabi_uldivmod.S",
    "arm/clzdi2.S",
    "arm/clzsi2.S",
    "arm/comparesf2.S",
    "arm/divmodsi4.S",
    "arm/divsi3.S",
    "arm/modsi3.S",
    "arm/negdf2vfp.S",
    "arm/negsf2vfp.S",
    "arm/switch16.S",
    "arm/switch32.S",
    "arm/switch8.S",
    "arm/switchu8.S",
    "arm/sync_fetch_and_add_4.S",
    "arm/sync_fetch_and_and_4.S",
    "arm/sync_fetch_and_max_4.S",
    "arm/sync_fetch_and_min_4.S",
    "arm/sync_fetch_and_nand_4.S",
    "arm/sync_fetch_and_or_4.S",
    "arm/sync_fetch_and_sub_4.S",
    "arm/sync_fetch_and_umax_4.S",
    "arm/sync_fetch_and_umin_4.S",
    "arm/sync_fetch_and_xor_4.S",
    "arm/udivmodsi4.S",
    "arm/udivsi3.S",
    "arm/umodsi3.S"
  ]

  /** OS_NONE_BLACKLIST (build.rs:430-430), 1 entry. */
  const OsNoneBlacklist: seq<string> := [
    "enable_execute_stack.c"
  ]

  /** SOFT_FLOAT_BLACKLIST (build.rs:432-466), 35 entries. */
  const SoftFloatBlacklist: seq<string> := [
    "arm/adddf3vfp.S",
    "arm/addsf3vfp.S",
    "arm/divdf3vfp.S",
    "arm/divsf3vfp.S",
    "arm/eqdf2vfp.S",
    "arm/eqsf2vfp.S",
    "arm/extendsfdf2vfp.S",
    "arm/fixdfsivfp.S",
    "arm/fixdfsivfp.S",
    "arm/fixsfsivfp.S",
    "arm/fixunsdfsivfp.S",
    "arm/fixunssfsivfp.S",
    "arm/floatsidfvfp.S",
    "arm/floatsisfvfp.S",
    "arm/floatunssidfvfp.S",
    "arm/floatunssisfvfp.S",
    "arm/gedf2vfp.S",
    "arm/gesf2vfp.S",
    "arm/gtdf2vfp.S",
    "arm/gtsf2vfp.S",
    "arm/ledf2vfp.S",
    "arm/lesf2vfp.S",
    "arm/ltdf2vfp.S",
    "arm/ltsf2vfp.S",
    "arm/muldf3vfp.S",
    "arm/mulsf3vfp.S",
    "arm/nedf2vfp.S",
    "arm/nesf2vfp.S",
    "arm/restore_vfp_d8_d15_regs.S",
    "arm/save_vfp_d8_d15_regs.S",
    "arm/subdf3vfp.S",
    "arm/subsf3vfp.S",
    "arm/truncdfsf2vfp.S",
    "arm/unorddf2vfp.S",
    "arm/unordsf2vfp.S"
  ]

  /** SP_FPU_BLACKLIST (build.rs:469-482), 14 entries. */
  const SpFpuBlacklist: seq<string> := [
    "arm/adddf3vfp.S",
    "arm/divdf3vfp.S",
    "arm/eqsf2vfp.S",
    "arm/extendsfdf2vfp.S",
    "arm/fixdfsivfp.S",
    "arm/fixunsdfsivfp.S",
    "arm/floatsidfvfp.S",
    "arm/floatunssidfvfp.S",
    "arm/gesf2vfp.S",
    "arm/gtsf2vfp.S",
    "arm/lesf2vfp.S",
    "arm/muldf3vfp.S",
    "arm/subdf3vfp.S",
    "arm/truncdfsf2vfp.S"
  ]

  /** The number of entries of each catalog, as listed in build.rs. */
  lemma CatalogSizes()
    ensures |GenericSources| == 134 && |ArmSources| == 89
    ensures |ThumbBlacklist| == 12 && |Armv6mBlacklist| == 29
    ensures |OsNoneBlacklist| == 1 && |SoftFloatBlacklist| == 35 && |SpFpuBlacklist| == 14
  {
  }

  /** SOFT_FLOAT_BLACKLIST lists "arm/fixdfsivfp.S" twice, at its eighth and ninth
      entries; since every blacklist is read by membership only, the repetition
      changes nothing. */
  lemma SoftFloatBlacklistRepeats()
    ensures SoftFloatBlacklist[7] == SoftFloatBlacklist[8] == "arm/fixdfsivfp.S"
  {
  }
}
