# compiler-rt.rs build script, modelled in Dafny

The build script of compiler-rt.rs compiles the intrinsics of LLVM's compiler-rt
("builtins") into a static archive for a Rust target. Before it hands anything
to the C compiler it decides four things. This project models those four
decisions and proves what they promise:

- **Target properties.** A target is a name plus an optional target
  specification file: a flat map of string fields. `arch_is`, `os_is`, `cpu`,
  `features` and `llvm_target` answer from the spec when there is one. Without
  a spec, `arch_is` and `os_is` test whether their argument is a substring of
  the name, and `llvm_target` is the name itself.
- **Cross tools.** `tool` builds the override variable `<ROLE>_<name with '-'
  turned into '_'>`. If that variable is set, its value wins. Otherwise a spec
  linker ending in `gcc` gives the tool path, with every `gcc` replaced by the
  tool name. Otherwise the build stops with `<variable> not set`. Tools are
  resolved only when the target is not the host.
- **Source files.** The generic catalog is filtered by `OS_NONE_BLACKLIST` on a
  target whose OS is `none`. On an ARM target, the ARM catalog is then filtered
  by four `continue` tests built from `THUMB_BLACKLIST`, `ARMV6M_BLACKLIST`,
  `SOFT_FLOAT_BLACKLIST` and `SP_FPU_BLACKLIST`.
- **Compiler flags.** `-march=…` per ARM profile, `-mcpu=<cpu>`, `-mthumb`, and
  `-mfpu=fpv4-sp-d16`, in that order.

Modules, one per component:

| file | module | what |
|---|---|---|
| wrappers.dfy | `Wrappers` | `Option`, `Result` |
| strings.dfy | `Strings` | `starts_with`, `ends_with`, `contains`, `replace` on `seq<char>` |
| targets.dfy | `Targets` | `Spec`, `Target` and its queries, `tool` |
| catalog.dfy | `Catalog` | the seven literal catalogs and blacklists, copied verbatim |
| sources.dfy | `Sources` | the two filtering loops and their specification |
| flags.dfy | `CompilerFlags` | the flag appends and their specification |
| build.dfy | `Build` | `build` up to the compiler call, plus two worked targets |

The two loops of `build` and its flag appends are methods (`FilterGeneric`,
`FilterArm`, `ComposeFlags`) that append to a `seq` step by step. Each is proved equal to a specification
function (`SelectGeneric`, `SelectArm`, `Flags`). The lemmas then say what those
functions mean: "catalog minus blacklist, in order", "exactly these flags, in
this order".

### The soft-float test as Rust parses it

build.rs:507-510 reads
`!starts_with("thumbv7em") || soft-float || cpu.is_none() && in SOFT_FLOAT_BLACKLIST`.
Since `&&` binds tighter than `||`, the file is skipped whenever the llvm-target
does not start with `thumbv7em` or soft float is requested. The model keeps that
reading (`Sources.KeepArm`). `Sources.KeepArmSpec` and `Sources.ArmPartSpec`
prove what follows from it:

- an ARM target gets ARM files only when its llvm-target starts with `thumbv7em`
  and it does not ask for `+soft-float`;
- such an llvm-target always starts with `thumb`, so `THUMB_BLACKLIST` always applies;
- it never starts with `thumbv6m`, so `ARMV6M_BLACKLIST` never decides anything;
- a `thumbv6m` target gets no ARM file at all (`Sources.ArmPartShape`).

As written, a `thumbv6m` target loses every ARM file, and the model follows
the code as written. The FIXME at build.rs:505-506 speaks of a test on an
llvm-target ending in `hf`. No such test is in the code, so none is modelled.

### Other readings of the code

- `llvm-target` is read as a mandatory field (build.rs:35-37). A spec without it
  makes the build panic, just as one without `arch` or `os` does. All three are
  therefore preconditions (`Target.WellFormed`).
- The `-march` flags are appended independently, so an llvm-target naming
  several profiles gets several flags (build.rs:530-540).

## Model

| member | source | states |
|---|---|---|
| `Targets.Optional` | build.rs:46-53 | an optional spec field is present exactly when the key is in the spec, and then holds its value |
| `Targets.Target.ArchIs` | build.rs:93-98 | with a spec: true iff its `arch` field equals the argument; without one: true iff the argument occurs at some position of the name |
| `Targets.Mandatory` | build.rs:39-44 | a mandatory field is the spec's value for it; reading a missing one panics, so its presence is the precondition |
| `Targets.Target.OsIs` | build.rs:114-116 | the same rule with the `os` field |
| `Targets.Target.Cpu` | build.rs:100-102 | present exactly when a spec has a `cpu` field, and then equal to it; never inferred from the name |
| `Targets.Target.Features` | build.rs:104-106 | present exactly when a spec has a `features` field, and then equal to it |
| `Targets.Target.LlvmTarget` | build.rs:108-112 | the spec's mandatory `llvm-target` field, or the name when there is no spec |
| `Targets.Target.Has` | build.rs:39-44 | a mandatory field can be read: there is no spec, or the spec has the field |
| `Targets.Target.WellFormed` | build.rs:27-37 | the three mandatory fields the build reads (`arch`, `os`, `llvm-target`) can all be read |
| `Targets.Target.SoftFloatRequested` | build.rs:508 | the soft-float test: the features field exists and contains `+soft-float`; missing features do not ask for soft float (also build.rs:555) |
| `Targets.Target.Linker` | build.rs:31-33 | the spec's optional `linker` field; `None` when there is no spec |
| `Targets.Target.ToolVar` | build.rs:119 | the variable is the role, `_`, then the name character by character with every `-` turned into `_`; no `-` is left after the prefix |
| `Targets.Target.Tool` | build.rs:118-134 | a set override variable wins over any linker; the tool resolves iff the variable is set or the spec linker ends in `gcc`; a linker-derived path is the linker before its final `gcc` rewritten, followed by the tool name, so it ends with the tool name; failure carries `<variable> not set` |
| `Targets.ToolFromPlainGccLinker` | build.rs:124-129 | a linker `<prefix>gcc` whose prefix holds no `gcc` yields exactly `<prefix><tool>` |
| `Strings.StartsWith` | build.rs:497 | `str::starts_with`: the pattern is no longer than the string and equals its prefix of that length |
| `Strings.EndsWith` | build.rs:125 | `str::ends_with`: the pattern is no longer than the string and equals its suffix of that length |
| `Strings.Contains` | build.rs:97 | `str::contains`: the string starts with the pattern, or its tail contains it (also build.rs:115 and 530-538) |
| `Strings.OccursAt` | build.rs:97 | the positional reading of a substring: the pattern equals the slice of the string at index k |
| `Strings.OccursAtShift` | build.rs:97 | an occurrence at index k+1 of a string is an occurrence at index k of its tail |
| `Strings.ContainsIffOccurs` | build.rs:97 | the `contains` used by `arch_is`/`os_is` holds iff the pattern occurs at some index |
| `Strings.ContainsAt` | build.rs:530-538 | an occurrence at a known index makes `contains` true |
| `Strings.NotContainsMissingChar` | build.rs:530-538 | a string lacking one of the pattern's characters does not contain the pattern |
| `Strings.NotContainsSingleCandidate` | build.rs:530-538 | if the pattern's first character occurs only at index k and the pattern does not start there, the string does not contain it |
| `Strings.ReplaceAll` | build.rs:126 | `str::replace`: every leftmost non-overlapping match of a non-empty pattern, found from left to right, is replaced; the rest is copied (also build.rs:119) |
| `Strings.ReplaceCharAt` | build.rs:119 | replacing one character by another keeps the length and rewrites exactly the matching positions |
| `Strings.ReplaceTrailingGcc` | build.rs:126 | since `gcc` cannot overlap itself, `replace` turns a trailing `gcc` into the tool name and rewrites the rest on its own |
| `Strings.ReplaceAllNoMatch` | build.rs:126 | `replace` leaves a string without the pattern unchanged |
| `Catalog.CatalogSizes` | build.rs:160-482 | the seven catalogs (`GENERIC_SOURCES`, `ARM_SOURCES`, `THUMB_BLACKLIST`, `ARMV6M_BLACKLIST`, `OS_NONE_BLACKLIST`, `SOFT_FLOAT_BLACKLIST`, `SP_FPU_BLACKLIST`), copied entry by entry, have 134, 89, 12, 29, 1, 35 and 14 entries |
| `Catalog.SoftFloatBlacklistRepeats` | build.rs:439-440 | `SOFT_FLOAT_BLACKLIST` lists `arm/fixdfsivfp.S` twice, as its eighth and ninth entries |
| `Sources.Without` | build.rs:487 | the reference "catalog minus blacklist": the members are exactly the catalog entries not in the blacklist, as a subsequence of the catalog |
| `Sources.IsSubsequence` | build.rs:485-520 | the first list is the second with some entries deleted, the rest in the same order |
| `Sources.WithoutSnoc` | build.rs:485-493 | deleting from a catalog extended at its end extends the result by that entry unless it is blacklisted |
| `Sources.KeepGeneric` | build.rs:486-492 | a generic file is compiled unless `os_is("none")` and the file is in `OS_NONE_BLACKLIST` |
| `Sources.KeepArm` | build.rs:497-517 | an ARM file is compiled unless one of the four `continue` tests fires: `thumb` prefix and `THUMB_BLACKLIST`; `thumbv6m` prefix and `ARMV6M_BLACKLIST`; the soft-float test as Rust parses it (no `thumbv7em` prefix, or soft float requested, or no CPU and `SOFT_FLOAT_BLACKLIST`); CPU `cortex-m4` and `SP_FPU_BLACKLIST` |
| `Sources.SelectGeneric` | build.rs:485-493 | the kept generic files are exactly the catalog entries passing the OS test, no more of them than in the catalog |
| `Sources.SelectArm` | build.rs:496-520 | the kept ARM files are exactly the catalog entries passing the four exclusion tests |
| `Sources.ArmPart` | build.rs:495-521 | the ARM selection of `ARM_SOURCES` when `arch_is("arm")`, else no file |
| `Sources.SourceSet` | build.rs:484-521 | the generic selection of `GENERIC_SOURCES` followed by the ARM part, in the order the build adds them |
| `Sources.FilterGeneric` | build.rs:485-493 | the generic loop returns the generic selection of its catalog |
| `Sources.FilterArm` | build.rs:496-520 | the ARM loop with its four `continue` tests returns the ARM selection of its catalog |
| `Sources.ComposeSources` | build.rs:484-521 | the two loops produce the generic selection followed by the ARM selection (the latter only when `arch_is("arm")`) |
| `Sources.SelectGenericSpec` | build.rs:485-493 | with OS `none`: exactly the catalog minus `OS_NONE_BLACKLIST`, in catalog order; otherwise the catalog unchanged |
| `Sources.SelectArmIsWithout` | build.rs:496-520 | when the keep test is "not in bl", the ARM selection is exactly the catalog minus bl, in order |
| `Sources.SelectArmNoneKept` | build.rs:507-513 | when no file passes, the ARM selection is empty |
| `Sources.ArmExclusions` | build.rs:497-517 | the blacklists that apply to a `thumbv7em` target: `THUMB_BLACKLIST`, `SOFT_FLOAT_BLACKLIST` when no CPU is named, `SP_FPU_BLACKLIST` when the CPU is `cortex-m4` |
| `Sources.KeepArmSpec` | build.rs:497-517 | an ARM file is kept iff the llvm-target starts with `thumbv7em`, `+soft-float` is not requested, and the file is in none of `THUMB_BLACKLIST`, `SOFT_FLOAT_BLACKLIST` (when no CPU is named), `SP_FPU_BLACKLIST` (when the CPU is `cortex-m4`) |
| `Sources.ArmPartSpec` | build.rs:495-521 | the ARM part is empty unless arch is `arm`, the llvm-target starts with `thumbv7em` and soft float is not requested; then it is exactly `ARM_SOURCES` minus those exclusions, in catalog order |
| `Sources.ArmPartShape` | build.rs:495-521 | the ARM part is a subsequence of `ARM_SOURCES`; a file is in it iff arch is `arm` and the file passes the tests; a `thumbv6m` llvm-target gets none |
| `Sources.SourceSetSpec` | build.rs:484-521 | the file list is the generic selection (catalog minus `OS_NONE_BLACKLIST` on OS `none`, else the whole catalog) followed by the ARM part; a non-ARM target gets generic files only |
| `CompilerFlags.MarchFlags` | build.rs:529-541 | on an ARM target, `-march=armv6-m`, `-march=armv7-m`, `-march=armv7e-m` for each of `v6m`, `v7m`, `v7em` the llvm-target contains, each test independent |
| `CompilerFlags.CpuFlags` | build.rs:544-546 | `-mcpu=<cpu>` when the target names a CPU, else nothing |
| `CompilerFlags.ThumbFlags` | build.rs:549-551 | `-mthumb` when the llvm-target starts with `thumb`, else nothing |
| `CompilerFlags.FpuFlags` | build.rs:554-557 | `-mfpu=fpv4-sp-d16` when the CPU is `cortex-m4` and soft float is not requested, else nothing |
| `CompilerFlags.Flags` | build.rs:528-557 | the `-march` flags, then the CPU flag, the Thumb flag and the FPU flag, in the order the build adds them |
| `CompilerFlags.ComposeFlags` | build.rs:528-557 | the step-by-step appends produce the flag list of the target |
| `CompilerFlags.FlagRank` | build.rs:528-557 | the position of a flag's kind in the order of the appends: the three `-march` flags 0-2, `-mcpu=` 3, `-mthumb` 4, anything else 5 |
| `CompilerFlags.Ranked` | build.rs:528-557 | every flag of the list has a strictly higher kind than every flag before it |
| `CompilerFlags.FlagRanks` | build.rs:531-556 | each flag the build can add has its own kind, ranked in the order of the appends |
| `CompilerFlags.RankedAppend` | build.rs:528-557 | appending a flag of a later kind keeps the list in append order |
| `CompilerFlags.MarchRanks` | build.rs:529-541 | the `-march` flags come in append order, `armv6-m` before `armv7-m` before `armv7e-m`, each at most once |
| `CompilerFlags.PartRanks` | build.rs:528-557 | each step adds at most one flag of its own kind; the `-march` step adds its flags in order |
| `CompilerFlags.FlagsRanked` | build.rs:528-557 | the flags come in append order (`-march`, `-mcpu`, `-mthumb`, `-mfpu`), each kind at most once, at most six flags |
| `CompilerFlags.FlagsKnown` | build.rs:528-557 | every flag the build adds is one of the three `-march` flags, `-mthumb`, the FPU flag, or starts with `-mcpu=` |
| `CompilerFlags.FlagsSpec` | build.rs:528-557 | each `-march` flag iff arch is `arm` and the llvm-target contains `v6m`/`v7m`/`v7em`; `-mcpu=c` iff the cpu is `c`; `-mthumb` iff the llvm-target starts with `thumb`; the FPU flag iff the cpu is `cortex-m4` and `+soft-float` is not requested (absent features are not soft float); and no flag of any other kind is added |
| `Build.Build` | build.rs:484-557 | a native build resolves no tool and configures the file list and flags; a cross build succeeds iff both AR and CC resolve, AR first, and otherwise fails with the first failing tool's message |
| `Build.BareMetalX86Queries` | build.rs:486 | for `i686-unknown-none` with no spec, `os_is("none")` holds by substring and `arch_is("arm")` does not |
| `Build.NoSpecNoFlags` | build.rs:528-557 | a target without a spec whose name neither contains `arm` nor starts with `thumb` gets no flag |
| `Build.BareMetalX86Flags` | build.rs:528-557 | `i686-unknown-none` gets no flag |
| `Build.BareMetalX86Sources` | build.rs:484-521 | `i686-unknown-none` compiles exactly the generic catalog minus `OS_NONE_BLACKLIST`, and no ARM file |
| `Build.CortexM4FQueries` | build.rs:93-112 | the spec of `thumbv7em-none-eabihf` (arch `arm`, cpu `cortex-m4`, no features) answers the queries from its fields |
| `Build.CortexM4FThumb` | build.rs:497 | its llvm-target starts with `thumbv7em` and with `thumb` |
| `Build.CortexM4FNamesV7em` | build.rs:538 | its llvm-target contains `v7em` |
| `Build.CortexM4FNoV6m` | build.rs:530 | its llvm-target does not contain `v6m` |
| `Build.CortexM4FNoV7m` | build.rs:534 | its llvm-target does not contain `v7m` |
| `Build.ThumbV7emM4Flags` | build.rs:528-557 | a Thumb ARMv7E-M cortex-m4 target without soft float gets `-march=armv7e-m`, `-mcpu=cortex-m4`, `-mthumb`, `-mfpu=fpv4-sp-d16`, in that order |
| `Build.CortexM4FFlags` | build.rs:528-557 | `thumbv7em-none-eabihf` with cpu `cortex-m4` gets exactly those four flags |
| `Build.CortexM4FSources` | build.rs:495-521 | with a CPU named, its ARM part is `ARM_SOURCES` minus `THUMB_BLACKLIST` and `SP_FPU_BLACKLIST`: soft-float-only VFP files are kept, double-precision ones are dropped |

## Left out

- `fetch` (build.rs:147-155) clones the upstream repository with `git`. It is
  network I/O and is not modelled.
- `main` (build.rs:137-145) reads `TARGET` and creates a temporary directory.
  `config.compile` (build.rs:559) runs the C compiler and archiver through the
  `gcc` crate. Both are process and tool invocation and are not modelled.
  `Build.Build` returns the configuration it would hand to the compiler instead.
- `Target::new` (build.rs:68-91) looks the spec file up in the working directory,
  then in `RUST_TARGET_PATH`, and parses its JSON. The model takes the parsed
  spec as an `Option<map<string, string>>`. A non-string field
  (`unreachable!()` at build.rs:42 and 50) cannot be represented. A missing
  mandatory field (`arch`, `os`, `llvm-target`) is a precondition, not a panic.
- Environment reads (build.rs:121 and 523) are parameters: a map of variables
  and the host name. `env::var` also fails on a value that is not valid
  Unicode; model strings are always valid, so that case is not represented.
- Source paths are the relative catalog strings. Joining them onto
  `src/lib/builtins` (build.rs:488, 491, 519) is not modelled.
- The `try!` macro (build.rs:17-21) turns errors into panics with a message.
  Tool failure is a `Failure` carrying the `expect` message; the other panics
  are preconditions.
- `Strings.ReplaceAll` requires a non-empty pattern. Rust's `replace` with an
  empty pattern inserts between characters, but build.rs only replaces `-` and
  `gcc`.
- Determinism (composing twice gives the same list) holds because every
  selection is a function of the target. It gets no separate lemma.
