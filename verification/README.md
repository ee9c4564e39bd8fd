# Verified models of the eBPF loader generator, CFG builder, BTF minimiser, hash map and policy filter

This project models the parts of the repository that compute something hard: the algorithms inside the
bundled bpftool and libbpf, and the microsegmentation data plane. Each model takes the form the C code
has. A structure whose functions update its fields is a class with methods; what its methods do is stated
by functions, and the promises are proved about those functions, over every input, run or interleaving.

The parts, hardest first:

- **Loader generator** (`Loader*.dfy`, from `gen_loader.c`). `LoaderBpfGen.BpfGen` is the emitter with its
  instruction and data buffers. `LoaderMachine` is a small-step semantics of the emitted eBPF subset
  (RFC 9669, section 4 for arithmetic, jumps and calls, section 5.4 for 64-bit immediates) in which every
  helper and system call may return anything. `LoaderIR` gives each emitting helper its code and, apart
  from registers and jumps, its meaning. `LoaderLedger` is an independent account of the API calls: what
  the kernel is asked for and given, where each descriptor goes and when it is closed. The results are
  about runs of the emitted program: it does what its groups mean, every jump lands, and for every sequence
  of API calls it follows the account, relocations against kernel symbols and attach targets included.
- **CFG builder** (`Cfg*.dfy`, from `cfg.c` and `list.h`). The partition into functions and blocks as
  sets, and the agreement of the drawn edges with the instruction step relation over whole runs, from the
  entry node to the exit node of the finished graph.
- **BTF minimiser** (`Btf*.dfy`, from `gen.c`). Mark, copy and renumber, and the theorems that a recorded
  access path means the same in the output, that a recorded type matches, or is compatible, exactly as in
  the source, and that the output has the fewest types and members that serve the relocations.
  `SectionLayout.dfy` is the layout loop of the same file.
- **Hash map** (`Hash*.dfy`), a chained table with four insertion strategies against lists per key, and
  its capacity over whole runs.
- **Microsegmentation filter** (`Filter*.dfy`): the verdict cache run by several CPUs, with arbitrary
  eviction, failed inserts, and policy changes at any time, between two lookups of one scan too, and
  which flows a rule covers (`Masks.dfy` for its address masks).
- **JSON writer** (`Json*.dfy`) against a parser for RFC 8259, **line info** (`Linfo*.dfy`), and the
  **bitfield printer** (`Bitfield.dfy`) with 128-bit arithmetic on two words.

## Where the code does less than its comments say

The models keep the code as it is. For each of these there is an input that shows it and the exact
condition under which the promise is met.

- An inner map's descriptor is closed when an outer map has used it, but its stack word is not cleared, so
  a later failure closes it again: `LoaderCases.InnerClosedTwice` is a run that is given descriptors 3 and
  4 and closes 3, 3 and 4. `LoaderExact.UnwoundOnce` says exactly when the close events of a failing run
  are the descriptors obtained, each once.
- A failing strong relocation leaves for the cleanup code before the code of `cleanup_relos`: in
  `LoaderCases.ModuleLeftOpen` a run is given descriptor 5 and closes nothing. A failing run leaves a
  module's descriptor open if and only if its lookup, attach targets included, was for the program that is
  unfinished (`LoaderSlots.UnwoundModules`, `LoaderSlots.AllModulesClosed`).
- A kernel function's slot is closed but not cleared after a program: in `LoaderCases.StaleSlotClosed` a
  run of two programs closes descriptor 5 twice. A descriptor is closed more than once if and only if a
  later program's lookup used the same slot and neither it nor any user of the slot in between found a
  module (`LoaderSlots.UnwoundModules`, `LoaderSlots.LoadedModules`).
- For a repeated typed symbol the jump tests the copied descriptor, not the type id. In every run the
  repeated use ends up like the first if and only if the lookup's result is not in [0, 2^32), that is,
  unless the symbol was found outside modules (`LoaderRepeated.RepeatedVariable`).
- EXIT in the middle of a function gets a fall-through edge, a CALL at the end of a block is treated as a
  conditional jump, and a JA whose next instruction is no target lies inside a block
  (`CfgSteps.StepsAgree`, `CfgSteps.EdgesTaken`, `CfgSteps.MissingEdges`, `CfgSteps.CallEdgeNotTaken`).
- Marking types follows references without looking where it has been. It ends, wherever it starts, if and
  only if no way leads back (`BtfMark.MarkEnds`, `BtfMatch.MatchEnds`); for a type match it does not end on
  a structure that holds a pointer to an array of itself (`BtfMatch.NeverEnds`).
- `hashmap.h` promises that a find returns the last inserted entry. Each growth reverses the order of a
  key's entries, so while only other keys are inserted and deleted the promise holds if and only if the
  table has grown an even number of times since, or the oldest entry is the same (`HashRuns.NewestFound`,
  `HashRuns.OldestFound`).
- A packet's decision takes one lookup per policy slot, and policies can change in between. A scan decides
  by policies that were in force at one moment, whatever they are, if and only if no change falls between
  its first and its last read (`FilterScan.SnapshotExact`). In `FilterSteps.TornScan` the policies deny a
  flow at every moment, and the filter allows it and caches that.
- The packets and the bytes of a session are each loaded and stored on their own, without a lock. Below
  wrap-around, and for bytes without empty packets, each of the two counters is exact if and only if no
  other CPU stores it between a CPU's load and store of it (`FilterExact.CountersExact`). Two CPUs can lose
  an update of both (`FilterLost.UpdateLost`) or of the packets only (`FilterLost.PacketsOnlyLost`), and
  can look the session up together and lose none (`FilterLost.FoundBusyAndExact`).
- The instruction dump does not know how many function records there are, and waits for one that it has
  passed: a record is printed if and only if it and all before it lie on instructions in strictly
  increasing order (`LinfoDump.FuncOnce`).
- A backslash is printed as `\n` and a single quote as `\'`, which is no JSON escape
  (`JsonRound.TwoBadStrings`; `JsonRound.RoundTrip` says for exactly which trees the text reads back).
- The lines of the last jited function are not checked for order. The search is right there, for every
  address and start, if and only if they do not decrease (`LinfoIndex.FoundInLast`); a table for which it
  gives the wrong line is `LinfoIndex.LastOutOfOrder`.

## Model

| member | source | states |
|---|---|---|
| LoaderMain.LoaderRuns | bpftool/libbpf/src/gen_loader.c:113-154 | For every API sequence that finishes without error, with relocations against functions, typed and typeless variables, weak symbols, attach targets and inner maps, every result of the kernel, every context and log level: the emitted program halts without a memory fault; either it exits with 0, every command and lookup was made with exactly what its call asked for and succeeded, and each map and program descriptor stands in its own context slot with nothing else changed, or it exits with the first failing result; its whole trace of calls and closes is the one the account plays |
| LoaderMain.MeaningGood | bpftool/libbpf/src/gen_loader.c:370-406 | The structured reading of a finished program ends in one of those two outcomes |
| LoaderMain.CleanupRun | bpftool/libbpf/src/gen_loader.c:133-152 | The cleanup code closes the nonzero words of the stack frame, then the map slots, and changes nothing else: BTF, inner map, programs and maps of the account |
| LoaderMain.UnwindRun | bpftool/libbpf/src/gen_loader.c:282-295 | From a failed request on, what the account has in stack words and map slots is closed, the context is untouched and R7 is the failing result |
| LoaderMain.FinishRun | bpftool/libbpf/src/gen_loader.c:370-390 | After a run without failures bpf_gen__finish's code closes the BTF descriptor and copies each program and map descriptor to its place |
| LoaderExact.UnwoundOnce | bpftool/libbpf/src/gen_loader.c:498-524 | The close events of a failing run are those of the account's owners. They are the descriptors of all lookups and commands that brought one, each once, if and only if at most one BTF was loaded, no inner map was used or overwritten since the last was created, no lookup of the program that is unfinished had found a module, and no slot closed was stale, provided no command brought descriptor 0, which is never closed |
| LoaderExact.LoadedOnce | bpftool/libbpf/src/gen_loader.c:370-390 | A run in which everything succeeds closes or hands out each descriptor exactly once if and only if at most one BTF was loaded, the last inner map was used, and no slot closed was stale, under the same proviso |
| LoaderSlots.UnwoundModules | bpftool/libbpf/src/gen_loader.c:675-680 | After any API calls and a failing request: a module's descriptor, found for a function, a variable or an attach target, is left open exactly if it was looked up for the unfinished program, and closed more than once exactly if a later lookup of a finished program found no module and left it in the same slot |
| LoaderSlots.AllModulesClosed | bpftool/libbpf/src/gen_loader.c:902-917 | A failing run closes the descriptors of all modules if and only if it fails at loading a program, or no lookup of the unfinished program found a module |
| LoaderSlots.CleanByRequests | bpftool/libbpf/src/gen_loader.c:902-917 | The condition of UnwoundOnce in terms of requests and answers alone: a stale close is one of a slot in which a later lookup without a module has left what an earlier one found |
| LoaderSlots.LoadedModules | bpftool/libbpf/src/gen_loader.c:902-917 | A run in which everything succeeds closes each module's descriptor, and more than once exactly if a later lookup left it in its slot |
| LoaderCases.InnerClosedTwice | bpftool/libbpf/src/gen_loader.c:522-523 | An inner map, an outer map that uses it, and a third map that the kernel refuses: the finished program exits with -1, is given descriptors 3 and 4, and closes 3, 3 and 4 |
| LoaderCases.ModuleLeftOpen | bpftool/libbpf/src/gen_loader.c:675-680 | A program with two kernel functions, the first in a module, the second missing: the finished program is given descriptor 5, closes nothing and exits with -ENOENT |
| LoaderCases.StaleSlotClosed | bpftool/libbpf/src/gen_loader.c:902-917 | Two programs with a kernel function each, only the first in a module: the finished program exits with 0 and closes descriptor 5 twice |
| LoaderOnce.RightOrWrong | bpftool/libbpf/src/gen_loader.c:448-524 | In the account of any requests each descriptor is closed once or in one place, or else some descriptor is closed twice or in no place, by the number of BTFs and the use of inner maps |
| LoaderTheorem.RunOps | bpftool/libbpf/src/gen_loader.c:417-524 | The groups of any API sequence either follow the account to its end or stop at a request that failed, with all earlier ones accounted for |
| LoaderTheorem.AccountOf | bpftool/libbpf/src/gen_loader.c:178-186 | After any API calls the account has as many maps and programs as the generator, and no lookup is left unfinished between two programs |
| LoaderLoad.LoadRun | bpftool/libbpf/src/gen_loader.c:932-1030 | One program with its symbols and attach target: the lookups, the load and the closes behind it follow the account or stop at a request that failed |
| LoaderLoad.ProgGiven | bpftool/libbpf/src/gen_loader.c:932-1030 | What the kernel sees of a program: in its attribute, field by field, the caller's type, flags, name, interface, attach type, record sizes and counts of function, line and CO-RE information and the number of instructions, pointers at license, these pieces and the descriptor array, the context's log fields, the BTF descriptor and the attach target's type and descriptor; and its instructions are the given ones with every relocation done (a typeless symbol's first use holds the lower and upper half of the address that its lookup wrote) and nothing else changed |
| LoaderProg.RelosRun | bpftool/libbpf/src/gen_loader.c:885-891 | The first n relocations of a program, for every n: lookups of first uses only, each result stored where its instruction and slot want it, everything else untouched |
| LoaderRelos.ReloAt | bpftool/libbpf/src/gen_loader.c:861-883 | One relocation: a new name emits a lookup and the store of its kind, a known one a copy from the first use, and both the prints |
| LoaderRelos.AttachAt | bpftool/libbpf/src/gen_loader.c:540-560 | An attach target emits its lookup, a check and the stores into the attribute |
| LoaderLookups.FunctionBlobIs | bpftool/libbpf/src/gen_loader.c:690-714 | A kernel function: its instruction gets the type, and the slot's index exactly if it is in a module, whose descriptor then stands in the slot; nothing else changes |
| LoaderLookups.VariableBlobIs | bpftool/libbpf/src/gen_loader.c:815-840 | A typed variable: type and descriptor with src_reg kept, or zeros with src_reg cleared when it was not found; nothing else changes |
| LoaderLookups.AddressBlobIs | bpftool/libbpf/src/gen_loader.c:750-781 | A typeless symbol: the two immediates of its instruction are the lower and the upper half of the address that the lookup wrote |
| LoaderLookups.CopyFunctionIs | bpftool/libbpf/src/gen_loader.c:669-675 | A repeated function gets the type and the index that the first use has |
| LoaderLookups.CopyVariableIs | bpftool/libbpf/src/gen_loader.c:805-813 | A repeated variable gets type and descriptor of the first use, and loses src_reg exactly if the descriptor is 0 |
| LoaderRepeated.RepeatedVariable | bpftool/libbpf/src/gen_loader.c:805-813 | Whenever a program is loaded in any run, a repeated typed variable has become like its first use, given the same src_reg, if and only if the lookup's result is not in [0, 2^32) |
| LoaderClose.AllShut | bpftool/libbpf/src/gen_loader.c:902-930 | The code behind a program's load closes everything its symbols and its attach target obtained, in order |
| LoaderGiven.MapGiven | bpftool/libbpf/src/gen_loader.c:448-496 | A map's attribute as the kernel sees it, field by field at its offset in union bpf_attr: the caller's type, key size, value size, flags, NUMA node, interface, BTF type ids and map_extra, the name cut to 15 bytes and padded with zeros, BTF and inner descriptors of the requests they came from or 0, and for max_entries the map's own or, for a nonnegative index, the context's if it is not 0 |
| LoaderGiven.UpdateGiven | bpftool/libbpf/src/gen_loader.c:1032-1077 | An update names the map's descriptor, points at a zero key and at the given value, or, if the caller supplies an address, at the bytes that the helper call right before it copied from that address, by the helper that the caller's flags choose; the rest of the attribute is zero |
| LoaderGiven.PopulateGiven | bpftool/libbpf/src/gen_loader.c:1079-1104 | Populating an outer map names its descriptor, points at the key and at the slot that holds the inner map's descriptor |
| LoaderGiven.FreezeGiven | bpftool/libbpf/src/gen_loader.c:1106-1121 | Freezing names the map's descriptor |
| LoaderGiven.BtfGiven | bpftool/libbpf/src/gen_loader.c:417-446 | Loading the BTF: the attribute consists of a pointer at the raw bytes, their length in btf_size, and the context's log fields |
| LoaderAttr.MapAsked | bpftool/libbpf/src/gen_loader.c:448-496 | An attribute that is like the one built at generation time, except where something is filled in at run time, has each of the caller's values in the field of that name |
| LoaderAttr.ProgAsked | bpftool/libbpf/src/gen_loader.c:932-983 | The same for a program's attribute |
| LoaderAttr.BtfAsked | bpftool/libbpf/src/gen_loader.c:417-446 | The same for that of a BTF |
| LoaderAttr.FieldsPacked | bpftool/libbpf/src/skel_internal.h:37-58 | The offsets used are those of fields that fill the attributes, the context and the stack frame, one right behind the other in the order of their declarations |
| LoaderRun.ProgramCorrect | bpftool/libbpf/src/gen_loader.c:113-154 | For every sequence of groups (relocations, attach targets and weak symbols included) and every outcome of the helpers, the program's run halts with exactly the code, memory and trace that the meaning of the groups gives |
| LoaderRun.CleanupLength | bpftool/libbpf/src/gen_loader.c:130-133 | The computed jump over the cleanup code lands just behind it |
| LoaderRun.ErrHasNegativeR7 | bpftool/libbpf/src/gen_loader.c:282-295 | Whatever group goes to the cleanup code leaves a negative result in R7 |
| LoaderExec.ExecGroup | bpftool/libbpf/src/gen_loader.c:211-275 | The machine runs the code of any group from its first slot to its end, or to the cleanup label, in the state its meaning gives |
| LoaderExec.ExecAll | bpftool/libbpf/src/gen_loader.c:96-108 | Groups placed one after the other run one after the other |
| LoaderIR.DenAppend | bpftool/libbpf/src/gen_loader.c:282-295 | Meaning of concatenated groups: the second part is reached unless the first fails |
| LoaderIR.FlatAppend | bpftool/libbpf/src/gen_loader.c:96-108 | Code of concatenated groups is the concatenation at the right positions |
| LoaderJumps.JumpsLand | bpftool/libbpf/src/gen_loader.c:282-295 | Every jump of every finished program, at every log level and with all kinds of relocations, fits 16 bits and lands on the first slot of an instruction inside the program |
| LoaderJumps.SkipsLand | bpftool/libbpf/src/gen_loader.c:691-714 | The literal skip counts land exactly behind their group, and each error check on the cleanup label |
| LoaderJumps.GroupTidy | bpftool/libbpf/src/gen_loader.c:812-840 | No jump of a group leads outside it except to the cleanup label, and none into the second slot of a 64-bit load |
| LoaderJumps.PrologueTidy | bpftool/libbpf/src/gen_loader.c:113-154 | The same for the setup and cleanup code, for every number of programs and maps the loader admits |
| LoaderKfunc.KfuncSlots | bpftool/libbpf/src/gen_loader.c:583-607 | Across any number of programs: between programs no symbol and no reserved slot is in use, and at every point of resolving a program's symbols each kernel function has a slot of its own behind the map slots, one of the reserved ones in use or a stretch of the blob of its own, which shares no byte with any other stretch that add_data returned (license, instructions, attribute, names, prints) or with another slot, also after the 256 reserved ones run out |
| LoaderKfunc.KnownSlot | bpftool/libbpf/src/gen_loader.c:669-675 | A known kernel function takes no further slot, and its code copies the index that the first use has stored |
| LoaderKfunc.FreshSlot | bpftool/libbpf/src/gen_loader.c:188-197 | A new slot is the next reserved one, or past 256 of them the end of the blob, whose index leads back to that place |
| LoaderKfunc.GivenBack | bpftool/libbpf/src/gen_loader.c:902-917 | cleanup_relos lowers nr_fd_array by the reserved slots the symbols hold |
| LoaderKfunc.RefCount | bpftool/libbpf/src/gen_loader.c:583-607 | A symbol's reference count exceeds one exactly if its name was known; a new one is appended with count one |
| LoaderBytes.ReadBack | bpftool/libbpf/src/gen_loader.c:211-218 | Reading n little-endian bytes gives the written value modulo 256^n |
| LoaderBpfGen.BpfGen.InitLoader | bpftool/libbpf/src/gen_loader.c:113-154 | bpf_gen__init builds the initial generator: descriptor area, setup, jump, closes of stack words and map slots, return of R7 |
| LoaderBpfGen.BpfGen.EmitInsn | bpftool/libbpf/src/gen_loader.c:50-102 | Appends one instruction if it fits and no error is set; otherwise writes nothing and sets the error |
| LoaderBpfGen.BpfGen.AddBytes | bpftool/libbpf/src/gen_loader.c:156-173 | add_data: the bytes, padded with zeros to a multiple of 8, at the end of the blob, and their offset |
| LoaderBpfGen.BpfGen.AddMapFd | bpftool/libbpf/src/gen_loader.c:178-186 | The next map slot, or an error after 64 |
| LoaderBpfGen.BpfGen.AddKfuncBtfFd | bpftool/libbpf/src/gen_loader.c:188-197 | The next reserved slot or one added to the blob |
| LoaderBpfGen.BpfGen.EmitRelStore | bpftool/libbpf/src/gen_loader.c:211-218 | The generator gains exactly the group that stores the run-time address of one blob offset at another, or its error is set if the group does not fit |
| LoaderBpfGen.BpfGen.MoveBlob2Blob | bpftool/libbpf/src/gen_loader.c:220-228 | The generator gains exactly the group that copies size bytes within the blob, or its error is set |
| LoaderBpfGen.BpfGen.MoveBlob2Ctx | bpftool/libbpf/src/gen_loader.c:230-236 | The generator gains exactly the group that copies size bytes of the blob to the context, or its error is set |
| LoaderBpfGen.BpfGen.MoveCtx2Blob | bpftool/libbpf/src/gen_loader.c:238-250 | The generator gains exactly the group that copies size bytes of the context to the blob, unless they are zero and the check is asked for, or its error is set |
| LoaderBpfGen.BpfGen.MoveStack2Blob | bpftool/libbpf/src/gen_loader.c:252-258 | The generator gains exactly the group that copies size bytes of the stack to the blob, or its error is set |
| LoaderBpfGen.BpfGen.MoveStack2Ctx | bpftool/libbpf/src/gen_loader.c:260-264 | The generator gains exactly the group that copies size bytes of the stack to the context, or its error is set |
| LoaderBpfGen.BpfGen.EmitSysBpf | bpftool/libbpf/src/gen_loader.c:266-275 | The generator gains exactly the group that issues the command with that attribute and leaves its result in R7, or its error is set |
| LoaderBpfGen.BpfGen.EmitCheckErr | bpftool/libbpf/src/gen_loader.c:282-295 | The generator gains the jump that reaches the cleanup label on a negative R7; its error is set exactly if the distance exceeds 16 bits or the code does not fit |
| LoaderBpfGen.BpfGen.EmitDebug | bpftool/libbpf/src/gen_loader.c:298-324 | Code and format string of a print with up to two registers are added, nothing at log level 0, and nothing is written once an error is set |
| LoaderBpfGen.BpfGen.EmitSysClose | bpftool/libbpf/src/gen_loader.c:344-354 | Code that closes a positive R1 and whose skip covers the print as well, at every log level |
| LoaderBpfGen.BpfGen.EmitSysCloseStack | bpftool/libbpf/src/gen_loader.c:356-360 | The generator gains exactly the group that closes the descriptor in a stack word unless it is 0, and its print |
| LoaderBpfGen.BpfGen.EmitSysCloseBlob | bpftool/libbpf/src/gen_loader.c:362-368 | The generator gains exactly the group that closes the descriptor in a word of the blob unless it is 0, and its print |
| LoaderBpfGen.BpfGen.FinishLoader | bpftool/libbpf/src/gen_loader.c:370-406 | Hands out a program and a blob exactly if no error is set and the counts match; they are the ones the theorems above speak of |
| LoaderBpfGen.BpfGen.LoadBtf | bpftool/libbpf/src/gen_loader.c:417-446 | The call does to buffers, counters and error exactly what the specified generation of a BTF load does, for which LoaderGiven.BtfGiven states what runs see |
| LoaderBpfGen.BpfGen.MapCreate | bpftool/libbpf/src/gen_loader.c:448-524 | The call does to buffers, counters and error exactly what the specified generation of a map does (inner or with the next slot, -EDOM for a wrong index); LoaderGiven.MapGiven states, per field, what the kernel then gets of the caller's values |
| LoaderBpfGen.BpfGen.RecordAttachTarget | bpftool/libbpf/src/gen_loader.c:526-538 | The target is remembered for the next program, and nothing is emitted |
| LoaderBpfGen.BpfGen.EmitFindAttachTarget | bpftool/libbpf/src/gen_loader.c:540-560 | Lookup, check and the stores of type id and descriptor into the attribute, or nothing without a target |
| LoaderBpfGen.BpfGen.RecordExternRelo | bpftool/libbpf/src/gen_loader.c:562-580 | The relocation is appended to the list, and nothing is emitted |
| LoaderBpfGen.BpfGen.GetKsymDesc | bpftool/libbpf/src/gen_loader.c:583-607 | The entry of the name, created or with one more reference |
| LoaderBpfGen.BpfGen.EmitFindByNameKind | bpftool/libbpf/src/gen_loader.c:612-625 | The name goes to the blob with its terminator, and the lookup names it by kind and length |
| LoaderBpfGen.BpfGen.EmitKallsymsLookup | bpftool/libbpf/src/gen_loader.c:631-648 | Name and room for the address go to the blob, and the lookup uses both |
| LoaderBpfGen.BpfGen.EmitReloKfuncBtf | bpftool/libbpf/src/gen_loader.c:660-729 | First use: lookup, slot and store; repeated use: copy; an index above INT16_MAX sets the error |
| LoaderBpfGen.BpfGen.EmitReloKsymTypeless | bpftool/libbpf/src/gen_loader.c:750-781 | First use: address lookup in which a missing symbol is no error; repeated use: copy |
| LoaderBpfGen.BpfGen.EmitReloKsymBtf | bpftool/libbpf/src/gen_loader.c:797-843 | First use: lookup and store; repeated use: copy with the src_reg quirk of LoaderRepeated.RepeatedVariable |
| LoaderBpfGen.BpfGen.RecordReloCore | bpftool/libbpf/src/gen_loader.c:845-859 | The CO-RE relocation is appended for the next program, and nothing is emitted |
| LoaderBpfGen.BpfGen.EmitReloc | bpftool/libbpf/src/gen_loader.c:861-883 | Dispatches on the kind of symbol; an unknown kind is an error |
| LoaderBpfGen.BpfGen.EmitAllRelos | bpftool/libbpf/src/gen_loader.c:885-891 | All recorded relocations are generated in order |
| LoaderBpfGen.BpfGen.CleanupAllRelos | bpftool/libbpf/src/gen_loader.c:902-930 | Closes exactly for typed variables and kernel functions, slots given back, all lists empty |
| LoaderBpfGen.BpfGen.LoadProg | bpftool/libbpf/src/gen_loader.c:932-1030 | The call does to buffers, counters and error exactly what the specified generation of a program load does, relocations and attach target included; LoaderLoad.LoadRun and LoaderLoad.ProgGiven state what runs see |
| LoaderBpfGen.BpfGen.MapUpdateElem | bpftool/libbpf/src/gen_loader.c:1032-1077 | The call does to buffers, counters and error exactly what the specified generation of an update does; LoaderGiven.UpdateGiven states what runs see |
| LoaderBpfGen.BpfGen.PopulateOuterMap | bpftool/libbpf/src/gen_loader.c:1079-1104 | The same for an outer map's slot, with LoaderGiven.PopulateGiven |
| LoaderBpfGen.BpfGen.FreezeMap | bpftool/libbpf/src/gen_loader.c:1106-1121 | The same for a freeze, with LoaderGiven.FreezeGiven |
| CfgSpec.InsertIs | bpftool/src/cfg.c:63-112 | Sorted insertion keeps the list sorted without duplicates and adds exactly the key |
| CfgSpec.StartsAre | bpftool/src/cfg.c:131-158 | Function starts are exactly the program start and the targets of pseudo calls, in order |
| CfgSpec.FunctionsCover | bpftool/src/cfg.c:131-158 | Every instruction lies in exactly one function |
| CfgSpec.HeadsAre | bpftool/src/cfg.c:165-197 | Block heads are exactly the function start, the jump targets and the instructions behind conditional jumps, in order |
| CfgSpec.PartsCover | bpftool/src/cfg.c:199-214 | Heads and tails cover the function: each position lies in exactly one block |
| CfgSpec.TailsInside | bpftool/src/cfg.c:199-214 | Every block of a program whose jumps stay inside ends inside it |
| CfgSpec.FindHead | bpftool/src/cfg.c:243-254 | The search finds the block with that head, or none |
| CfgSteps.StepsAgree | bpftool/src/cfg.c:277-331 | Every step of the program agrees with the graph (an edge at a block's end, the next instruction inside) if and only if every unconditional jump ends its block or goes nowhere but on |
| CfgSteps.Decoded | bpftool/src/cfg.c:277-331 | The tests by which the builder tells jumps apart are about the flow of control that RFC 9669 gives each opcode, except that the destination is always taken from off |
| CfgSteps.EdgesMean | bpftool/src/cfg.c:297-328 | The edges of a block: a fall-through to the block of the next instruction, or to the exit behind the last, exactly unless it ends in an unconditional jump; a jump edge to the block at the destination in off, or nowhere if none starts there, exactly if it ends in a jump or call; never two of the same kind |
| CfgSteps.ExitEdge | bpftool/src/cfg.c:304-309 | A block has an edge to the exit if and only if it is the function's last one and does not end in an unconditional jump |
| CfgSteps.RunsAreWalks | bpftool/src/cfg.c:277-331 | Every run of any length in a function is a walk over drawn edges, from the block of its first to the block of its last instruction |
| CfgSteps.EdgesTaken | bpftool/src/cfg.c:277-331 | Every edge between two real blocks is taken by a step if and only if EXIT only ends functions, calls at block ends have no block at their offset unless it is 0, and 32-bit JAs have equal off and imm |
| CfgSteps.MissingEdges | bpftool/src/cfg.c:318-327 | An edge without destination exists exactly at a call that ends a block and whose offset leads to no block |
| CfgSteps.CallEdgeNotTaken | bpftool/src/cfg.c:318-327 | A program whose call at a block's end gets an edge that no step takes |
| CfgSteps.BlockFacts | bpftool/src/cfg.c:199-214 | The block of a position and whether the position ends it |
| CfgList.InitListHead | bpftool/include/linux/list.h:17-21 | A ring of one node |
| CfgList.Insert2 | bpftool/include/linux/list.h:23-31 | Insertion between two neighbours keeps a well-formed circular doubly linked list, with the entry at its place |
| CfgList.ListAdd | bpftool/include/linux/list.h:41-44 | The entry stands right behind the given one |
| CfgList.ListAddTail | bpftool/include/linux/list.h:55-58 | The entry stands at the end |
| CfgList.ListDel | bpftool/include/linux/list.h:67-89 | The list without the entry is well formed, and the entry's links are poisoned |
| CfgList.ListEmpty | bpftool/include/linux/list.h:91-94 | True exactly for a list without entries |
| CfgList.AppendSorted | bpftool/src/cfg.c:63-112 | On the linked nodes themselves: the keys are the sorted insertion of the key, nodes stay, a new one is allocated only if the key is new |
| CfgBuild.FuncNode.AppendBb | bpftool/src/cfg.c:88-112 | The block list gets the head in order |
| CfgBuild.FuncNode.PartitionHead | bpftool/src/cfg.c:165-197 | The blocks' heads are those of the specification |
| CfgBuild.FuncNode.PartitionTail | bpftool/src/cfg.c:199-214 | Tails end before the next head, indices rise by one from 2, and bb_num is the count plus 2 |
| CfgBuild.FuncNode.AddSpecialBbs | bpftool/src/cfg.c:216-231 | Entry and exit blocks stand at both ends with indices 0 and 1 |
| CfgBuild.FuncNode.SearchBb | bpftool/src/cfg.c:243-254 | The block with that head, or null |
| CfgBuild.FuncNode.AddBlockEdges | bpftool/src/cfg.c:297-328 | A block's successors are the specified edges in order; CfgSteps.EdgesMean says which edges those are |
| CfgBuild.FuncNode.AddEdges | bpftool/src/cfg.c:277-331 | Entry, exit and every block are wired as specified |
| CfgBuild.FuncNode.BuildGraph | bpftool/src/cfg.c:333-352 | One function's finished graph |
| CfgWalks.LeadsOut | bpftool/src/cfg.c:277-331 | In the finished graph a block has the exit node among its successors if and only if it is the function's last one and does not end in an unconditional jump |
| CfgWalks.RunsThrough | bpftool/src/cfg.c:277-331 | Every run of a function from its first instruction to the EXIT at its end is a walk over successor lists of the finished graph, from the entry node over the nodes of the blocks it passes to the exit node |
| CfgBuild.Cfg.AppendFunc | bpftool/src/cfg.c:63-86 | The function list gets the start in order, with the next index |
| CfgBuild.Cfg.PartitionFuncs | bpftool/src/cfg.c:131-158 | The functions' starts and ends are those of the specification |
| CfgBuild.Cfg.Build | bpftool/src/cfg.c:333-352 | Every function of the program has its finished graph, of which CfgWalks.LeadsOut and CfgWalks.RunsThrough speak |
| BtfTheorem.AccessKept | bpftool/src/gen.c:1806-1858 | Every recorded field relocation, with member indices replaced by ranks among kept members, resolves in the output to the same bit offset, bitfield size and type sizes at every step, arrays and typedefs included |
| BtfTheorem.WalkKept | bpftool/libbpf/src/relo_core.c:345-393 | The same for any path from any kept type |
| BtfTheorem.SizeKept | bpftool/libbpf/src/btf.c:604-657 | Kept types have the same size, or the same failure, in the output |
| BtfTheorem.SkipKept | bpftool/libbpf/src/libbpf.c:2004-2019 | Skipping modifiers and typedefs leads to the corresponding type |
| BtfMeaning.SkipIs | bpftool/libbpf/src/libbpf.c:2004-2019 | Skipping ends at a type if and only if a chain of modifiers and typedefs leads to it and it is neither |
| BtfMeaning.SizeIs | bpftool/libbpf/src/btf.c:604-657 | A type has a size if and only if at most 32 types lead to one with a size of its own and no product overflows 32 bits; it is that size times the elements of all arrays on the way |
| BtfMeaning.NestedPlace | bpftool/libbpf/src/relo_core.c:262-393 | The place of a member of an element of an array in the second of two objects: byte 60 of a literal layout |
| BtfMeaning.FlexiblePlace | bpftool/libbpf/src/relo_core.c:367-386 | An element behind the end of a structure's last array, which has no elements, has a place |
| BtfTheorem.CompositeKept | bpftool/src/gen.c:2173-2204 | A composite keeps kind and size and exactly as many members as are marked |
| BtfTheorem.MemberKept | bpftool/src/gen.c:2190-2204 | A kept member stands at its rank with its name, mapped type, bit offset and bitfield size |
| BtfTheorem.TypeSizeKept | bpftool/src/gen.c:1966-1974 | A relocation against a type or enum value finds a type of the same size |
| BtfSame.MatchesKept | bpftool/libbpf/src/relo_core.c:1544-1690 | A recorded match relocation: the output's type matches any local type with exactly the result, errors included, that the source's has |
| BtfSame.RoundsKept | bpftool/libbpf/src/relo_core.c:1556-1690 | The same from any type the marking has been at, behind pointers or not, after any number of rounds and levels |
| BtfFits.MatchDecides | bpftool/libbpf/src/relo_core.c:1517-1690 | Whenever the match does not give up with an error, it decides the documented relation, the least one without rounds and levels: ints of one size and sign, enums of one size whose local names are all in the target, pointers, arrays of one length and functions by position, structs and unions whose local members all have a partner of the same name, and behind a pointer only their kind |
| BtfFits.FlavorDropped | bpftool/libbpf/src/libbpf.c:5299-5309 | Names are compared without the flavor behind three underscores, whatever it is |
| BtfFits.WholeName | bpftool/libbpf/src/libbpf.c:5299-5309 | A name without a flavor is compared as a whole |
| BtfCompat.TypeKept | bpftool/libbpf/src/relo_core.c:146-224 | A recorded type relocation: the output's type is compatible with any local type with exactly the result that the source's has |
| BtfOutline.CompatIsSameOutline | bpftool/libbpf/src/relo_core.c:146-224 | Two types are compatible if and only if they are of the same kind and have the same outline, which each type has by itself: its pointers, arrays, parameters and kind, without names, sizes and members |
| BtfCompat.EnumKept | bpftool/libbpf/src/relo_core.c:582-620 | A recorded enumerator relocation finds the same enum with the same names and values |
| BtfLeast.MinimizeBtf | bpftool/src/gen.c:2258-2298 | Succeeds exactly if every relocation of every object can be recorded and btf__add_field accepts every member they mark; then the output is generated from marks that serve all relocations and are contained in every choice of marks that does |
| BtfLeast.LeastMarks | bpftool/src/gen.c:1806-1858 | Whatever types and members are chosen: if the choice is closed under references and every relocation's path, type, enum or match is recorded in it, it contains all that the relocations mark |
| BtfLeast.Fewest | bpftool/src/gen.c:2141-2233 | So no output that serves the relocations has fewer types, or fewer members in the type that a marked composite becomes |
| BtfMark.Info.MarkType | bpftool/src/gen.c:1731-1804 | Marks exactly the types reached from the root and fails with -EINVAL exactly if one of them has an unsupported kind |
| BtfMark.ReachIsPaths | bpftool/src/gen.c:1731-1804 | A type is reached exactly if a path of followed references leads to it |
| BtfMark.ClosedMore | bpftool/src/gen.c:1731-1804 | Marking keeps the marks closed: what a marked type needs is marked |
| BtfMark.Info.MarkMember | bpftool/src/gen.c:1723-1729 | Marks exactly that member |
| BtfMark.Info.RecordField | bpftool/src/gen.c:1806-1858 | Succeeds exactly if the path leads through composites and arrays and all kinds met are supported; then every member and type on it is marked, and nothing else; by BtfLeast.LeastMarks no other choice does with less |
| BtfMark.Info.RecordReloc | bpftool/src/gen.c:1976-2000 | One relocation by its kind, type matches included: fails exactly if a kind it meets is unsupported, its path leaves composites and arrays, or its own kind is unknown; otherwise exactly what it needs is marked, the least that serves it by BtfLeast.LeastMarks |
| BtfMark.Info.MarkTypeMatch | bpftool/src/gen.c:1868-1955 | Marks exactly the types it comes to, and all members of the composites among them that it did not come to behind a pointer; fails exactly if one of the types has an unsupported kind |
| BtfMatch.MatchEnds | bpftool/src/gen.c:1868-1955 | The recursion for a type match has a decreasing rank, wherever it starts, if and only if from nothing it goes on to a way leads back |
| BtfMatch.NeverEnds | bpftool/src/gen.c:1890-1924 | A valid BTF, of a structure that holds a pointer to an array of itself, where one leads back |
| BtfMark.MarkEnds | bpftool/src/gen.c:1731-1804 | The same if-and-only-if for marking types, with and without following pointers |
| BtfMatch.NodeReachIsPaths | bpftool/src/gen.c:1868-1955 | It comes to a type, behind a pointer or not, exactly if a path leads there |
| BtfMark.Info.RecordAll | bpftool/src/gen.c:2045-2129 | Succeeds exactly if every relocation can be recorded; then the marks are those of all of them together |
| BtfOut.IdsIncrease | bpftool/src/gen.c:2131-2138 | The id map is strictly increasing on the marked types and never 0 there |
| BtfOut.IdsAreExact | bpftool/src/gen.c:2161-2214 | Every output id but 0 belongs to exactly one marked type |
| BtfOut.IdsInRange | bpftool/src/gen.c:2131-2138 | Every mapped id, that of an unmarked target included, is in range of the output |
| BtfOut.RenumberedRefs | bpftool/src/gen.c:2216-2223 | Every reference of an output type is the mapped source reference |
| BtfOut.RenumberedBack | bpftool/src/gen.c:2216-2223 | Nothing else of a type changes: with its references mapped back it is the same again |
| BtfOut.AddableIsLossless | bpftool/libbpf/src/btf.c:1996-2049 | btf__add_field accepts exactly what its encoding can give back: bitfields of some size whose offset and size read back from 32 bits, other members at whole bytes, and in unions only offset 0 |
| BtfOut.FilterAt | bpftool/src/gen.c:2190-2204 | A kept member stands at its rank among the kept ones |
| BtfOut.FilterOnly | bpftool/src/gen.c:2190-2204 | Nothing but kept members is in the output composite |
| BtfOut.PickedAt | bpftool/src/gen.c:2161-2214 | Each marked type stands at its new id |
| BtfOut.PickedOnly | bpftool/src/gen.c:2161-2214 | Every output type is a marked one |
| BtfOut.EncodeExact | bpftool/libbpf/src/btf.c:1996-2049 | Encoding a member anew keeps bit offset and bitfield size, although kflag is kept exactly if a bitfield is |
| BtfGet.GetBtf | bpftool/src/gen.c:2141-2233 | Succeeds exactly if btf__add_field accepts every marked member; the output is then the marked types in source order, renumbered |
| BtfGet.PickTypes | bpftool/src/gen.c:2160-2214 | First pass: the marked types and the id map |
| BtfGet.RemapTypes | bpftool/src/gen.c:2216-2223 | Second pass: every reference mapped |
| BtfGet.Btf.AddField | bpftool/libbpf/src/btf.c:1996-2049 | Appends a field to the last composite, or fails exactly where the code refuses it |
| BtfGet.Btf.AddComposite | bpftool/libbpf/src/btf.c:1917-1944 | Appends an empty composite |
| BtfGet.Btf.AddType | bpftool/libbpf/src/btf.c:1591-1616 | Appends a copy of a type |
| HashRuns.ActsAsMap | bpftool/libbpf/src/hashmap.h:84-103 | Without APPEND, after any calls: a find returns the latest value, ADD fails with -EEXIST and UPDATE with -ENOENT exactly when they should, and insert and delete report the entry they found |
| HashRuns.ExecInv | bpftool/libbpf/src/hashmap.c:130-204 | After any calls and failed allocations: entries in the bucket their hash names, exact sz, capacity a power of two, at most three quarters full |
| HashCap.CapacityIs | bpftool/libbpf/src/hashmap.c:95-128 | After any calls in which entries can be allocated, whether or not tables can: the capacity is 0 if no entry has been held since the map was last cleared, else the least power of two, from 4 on, of which the largest number of entries held fills at most three quarters |
| HashRuns.NewestFound | bpftool/libbpf/src/hashmap.h:91-96 | After an APPEND and any finds, and insertions and deletions of other keys only, a find returns that entry if and only if the table has grown an even number of times since, or the oldest entry is the same |
| HashRuns.OldestFound | bpftool/libbpf/src/hashmap.c:117-121 | Four insertions after which a find returns the first value and not the last |
| HashRuns.ParityOrder | bpftool/libbpf/src/hashmap.c:101-128 | Calls for other keys keep a key's list or reverse it, by the parity of the growths |
| HashRuns.LatestHeld | bpftool/libbpf/src/hashmap.h:84-96 | Without APPEND each key has at most one entry, the latest |
| HashOps.InsertRefines | bpftool/libbpf/src/hashmap.c:154-204 | Insertion by strategy: error, old entry, and every key's list afterwards, growth and failed allocations included |
| HashOps.DeleteRefines | bpftool/libbpf/src/hashmap.c:220-240 | Deletion removes the first entry of the key and reports it, or changes nothing |
| HashRefine.GrowReverses | bpftool/libbpf/src/hashmap.c:101-128 | Growth keeps the multiset of all entries, puts each where the new capacity says, makes room, and reverses each key's list |
| HashRefine.FindIsFirst | bpftool/libbpf/src/hashmap.c:206-218 | A find returns the first entry of the key's list, nothing exactly if it is empty |
| HashRefine.OwnBucket | bpftool/libbpf/src/hashmap.c:130-152 | All entries of a key are in the bucket its hash names |
| HashRefine.RoomAfter | bpftool/libbpf/src/hashmap.c:95-99 | The next capacity has room for one more entry |
| HashModel.HashInRange | bpftool/libbpf/src/hashmap.h:15-29 | The multiplicative hash is below 2^bits |
| HashCap.HashIsUpper | bpftool/libbpf/src/hashmap.h:15-29 | It is the upper bits of the 64-bit product with the golden-ratio constant |
| HashCap.Injective | bpftool/libbpf/src/hashmap.h:15-29 | Taken with all 64 bits, it gives different hashes different buckets: the product merges none |
| HashTable.HashMap.GrowTable | bpftool/libbpf/src/hashmap.c:101-128 | Grows to a fresh array, or leaves everything as it was with -ENOMEM |
| HashTable.HashMap.ShouldGrow | bpftool/libbpf/src/hashmap.c:95-99 | True exactly without buckets or when one more entry would exceed three quarters of the capacity; HashCap.CapacityIs says what that threshold comes to over whole runs |
| HashTable.HashMap.Refill | bpftool/libbpf/src/hashmap.c:117-121 | Moves every entry of every chain, in order, to the front of its new chain |
| HashTable.HashMap.FindEntry | bpftool/libbpf/src/hashmap.c:130-152 | The position of the first equal key in a chain, if any |
| HashTable.HashMap.InsertKey | bpftool/libbpf/src/hashmap.c:154-204 | The specified insertion, with its error and old entry; the class invariant holds again |
| HashTable.HashMap.FindKey | bpftool/libbpf/src/hashmap.c:206-218 | Found or not, and the value, as the specified find has them; HashRefine.FindIsFirst says which entry that is |
| HashTable.HashMap.DeleteKey | bpftool/libbpf/src/hashmap.c:220-240 | The specified deletion; the class invariant holds again |
| HashTable.HashMap.Clear | bpftool/libbpf/src/hashmap.c:63-74 | An empty map without buckets |
| HashTable.HashMap.KeyEntries | bpftool/libbpf/src/hashmap.h:179-185 | The iteration over a key sees exactly the key's list, in order |
| FilterSafe.VerdictsFollowDecisions | src/bpf/tc_microsegment.bpf.c:247-320 | For every interleaving of CPUs, evictions, failed creates and policy changes, in the middle of scans too: a verdict enforces the decision that the packet which created the cached session made for the same flow, and that decision is the fold over the slots as its scan read them, in order of time |
| FilterSafe.CacheTransparent | src/bpf/tc_microsegment.bpf.c:247-320 | With fixed policies every verdict is the one the policies mean |
| FilterSafe.UndisturbedVerdict | src/bpf/tc_microsegment.bpf.c:154-206 | A verdict whose decision saw no policy change between its first and last lookup is the one the policies of that moment mean |
| FilterSafe.MomentsCountChanges | src/bpf/tc_microsegment.bpf.c:154-206 | The moments of lookups count the policy changes of the run |
| FilterScan.SnapshotExact | src/bpf/tc_microsegment.bpf.c:158-186 | A decision is that of policies in force at one moment of its scan, for all policies and flows, if and only if no change falls between its first and its last lookup |
| FilterScan.TornDecision | src/bpf/tc_microsegment.bpf.c:158-186 | For a change right before any lookup but the first: policies before and after that both deny a flow which the mixed reads allow |
| FilterSteps.TornScan | src/bpf/tc_microsegment.bpf.c:158-186 | A run in which a rule moves to an earlier slot during a scan: every policy state denies the flow, and the filter allows it and caches that |
| FilterPolicy.DecideIsMeant | src/bpf/tc_microsegment.bpf.c:154-206 | The scan yields the one decision meant: the exact rule, else the matching nonempty slot of highest priority and lowest index, else allow; FilterCover.Covers says which flows match |
| FilterCover.Covers | src/bpf/tc_microsegment.bpf.c:123-149 | A rule matches exactly the flows that arise from it by choosing freely the address bits outside its masks and the ports and the protocol that are 0 |
| FilterCover.CoversOne | src/bpf/tc_microsegment.bpf.c:123-149 | With full masks and no field 0 that is its own flow only |
| FilterCover.CoversIntervals | src/bpf/tc_microsegment.bpf.c:123-149 | With prefix masks and the other fields 0, it is one interval of source and one of destination addresses |
| Masks.PrefixIsInterval | src/bpf/tc_microsegment.bpf.c:128-134 | For a prefix mask, the addresses that agree inside the mask are those at most the complement of the mask behind the first |
| FilterCover.DeniesWhatArises | src/bpf/tc_microsegment.bpf.c:123-206 | With one denying rule, in whatever slot, and for any interleaving, eviction and failed insert: a packet is denied if and only if its flow arises from the rule |
| FilterPolicy.LookupPolicyAction | src/bpf/tc_microsegment.bpf.c:154-206 | While nobody changes the policies, the loop computes that decision, with the coverage of FilterCover.Covers, and the hit count of an exact rule goes up by one, wrapping, exactly if the rule decides |
| FilterProgram.MadeHit | src/bpf/tc_microsegment.bpf.c:156-163 | With that, every exact rule's hit count is the number of decisions made for its flow so far, modulo the width |
| FilterCount.StatisticsAddUp | src/bpf/tc_microsegment.bpf.c:256-318 | Over every run, summed over CPUs and between packets, modulo the counters' width: total = allowed + denied, hits + misses = decisions, new sessions = live sessions + evictions |
| FilterTally.CountersAreEvents | src/bpf/tc_microsegment.bpf.c:247-320 | In every run and at any moment, for each CPU on its own and modulo the width: its denied and allowed counters are its logged verdicts of that kind, hits and misses its decisions by a rule and without one, and its total is its verdicts and the packet it is working on |
| FilterExact.CountersExact | src/bpf/tc_microsegment.bpf.c:264-271 | For any number of CPUs, between packets, each counter of a session on its own, below wrap-around and with packets that add to it: it equals the sum over the session's verdicts if and only if no other CPU stores it between a CPU's load and the store that follows |
| FilterExact.UndisturbedExact | src/bpf/tc_microsegment.bpf.c:264-271 | A counter without such an interference equals the sum over the session's verdicts, modulo the width, on any number of CPUs |
| FilterExact.SessionCountersExact | src/bpf/tc_microsegment.bpf.c:264-271 | On one CPU both counters of every session do |
| FilterExact.NotBusyNotInterfered | src/bpf/tc_microsegment.bpf.c:258-271 | A session that no packet finds while another CPU is counting a packet of it has no interference |
| FilterTrack.LostIs | src/bpf/tc_microsegment.bpf.c:264-271 | The values that a step-by-step account of outdated loads calls lost are those of sessions with an interference in the run |
| FilterLost.UpdateLost | src/bpf/tc_microsegment.bpf.c:264-271 | A run of two CPUs, from an empty table, after which both counters are one packet short |
| FilterLost.PacketsOnlyLost | src/bpf/tc_microsegment.bpf.c:264-271 | One after which the packets are short and the bytes exact |
| FilterLost.FoundBusyAndExact | src/bpf/tc_microsegment.bpf.c:258-271 | One in which a packet finds the session while another CPU is counting, and both counters are exact |
| FilterProgram.Filter.FilterPacket | src/bpf/tc_microsegment.bpf.c:247-320 | One packet takes exactly the steps of the multi-CPU model with one CPU, its verdict is the logged one, and the hit counts stay those of the decisions made |
| FilterProgram.Filter.OnHit | src/bpf/tc_microsegment.bpf.c:261-285 | A packet with a session: counters and log as the lookup and finish steps leave them, verdict from the cached action |
| FilterProgram.Filter.OnMiss | src/bpf/tc_microsegment.bpf.c:287-319 | A first packet: counters, log and session as the decide and create steps leave them, verdict from the decision |
| FilterProgram.Filter.CreateSession | src/bpf/tc_microsegment.bpf.c:209-243 | Creates the session unless the map refuses it or one exists, and counts it |
| FilterProgram.Filter.UpdateStats | src/bpf/tc_microsegment.bpf.c:63-69 | One counter is incremented, wrapping, and no other |
| JsonRound.RoundTrip | bpftool/src/json_writer.c:57-90 | The text printed for a tree, compact or pretty, reads back as the same tree if and only if no string in it holds a backslash, a single quote or a control character other than \t \n \r \f \b |
| JsonRound.TwoBadStrings | bpftool/src/json_writer.c:57-90 | A single backslash reads back as a newline, and a single quote does not parse |
| JsonRound.TreeRead | bpftool/src/json_writer.c:57-90 | What a reader makes of the text in every case: the tree with backslashes read as newlines, or nothing |
| JsonRound.CharsRead | bpftool/src/json_writer.c:57-90 | The same for one printed string |
| JsonPretty.PrettyIsSpace | bpftool/src/json_writer.c:29-52 | The pretty text without the space between tokens is the compact text |
| JsonLines.PrettyLines | bpftool/src/json_writer.c:29-52 | Every line of a pretty text but the first starts a member or a closing bracket, with four spaces for each bracket around it; every member starts one, every collection that is not empty closes on one of its own, and one space stands behind each colon |
| JsonWriter.WriteTree | bpftool/src/json_writer.c:93-135 | A fresh writer and the calls for a tree print its text; it reads back as the tree exactly if that is clean |
| JsonWriter.SignedIsNumber | bpftool/src/json_writer.c:234-247 | A printed integer is a JSON number with that value |
| JsonWriter.Writer.Tree | bpftool/src/json_writer.c:180-215 | The calls for a tree append a separator and its text and return to the same depth |
| JsonWriter.Writer.PutString | bpftool/src/json_writer.c:57-90 | Appends the quoted and escaped string |
| JsonWriter.Writer.Eor | bpftool/src/json_writer.c:47-52 | Appends a comma if one is due |
| JsonWriter.Writer.EndLine | bpftool/src/json_writer.c:29-44 | Appends newline and indentation in pretty mode only |
| JsonWriter.Writer.Begin | bpftool/src/json_writer.c:129-135 | Opens a bracket one level deeper |
| JsonWriter.Writer.EndWith | bpftool/src/json_writer.c:137-146 | Closes a bracket, on its own line exactly if something was printed inside |
| JsonWriter.Writer.Name | bpftool/src/json_writer.c:150-159 | Prints a member name after which no comma is due |
| JsonWriter.Writer.Int | bpftool/src/json_writer.c:234-247 | An integer is printed as the text of that number, with a separator if one is due |
| LinfoIndex.ProgLinfo.Dissect | bpftool/libbpf/src/bpf_prog_linfo.c:22-86 | Succeeds exactly if the line table splits into consecutive segments, one per function, starting at its address, all but the last strictly increasing and inside the function; then finds the only such split |
| LinfoIndex.ProgLinfo.FindAddr | bpftool/libbpf/src/bpf_prog_linfo.c:181-216 | The record just before the first larger address in the function's segment after the skip |
| LinfoIndex.ProgLinfo.FindInsn | bpftool/libbpf/src/bpf_prog_linfo.c:219-246 | The same by instruction offset over the whole table |
| LinfoIndex.BeforeIsGreatest | bpftool/libbpf/src/bpf_prog_linfo.c:200-215 | For every query that is the last record not above it, if and only if the segment does not decrease anywhere |
| LinfoIndex.FoundInFunction | bpftool/libbpf/src/bpf_prog_linfo.c:181-216 | So it is in every function but the last, without further assumptions |
| LinfoIndex.FoundInLast | bpftool/libbpf/src/bpf_prog_linfo.c:181-216 | In the last function it is, for every address and every line to start from, if and only if its lines do not decrease |
| LinfoIndex.LastOutOfOrder | bpftool/libbpf/src/bpf_prog_linfo.c:181-216 | A dissected table whose last function is out of order, with an address for which the search gives the wrong line |
| LinfoIndex.LengthsAddUp | bpftool/libbpf/src/bpf_prog_linfo.c:74-82 | The segments' lengths add up to the whole table |
| LinfoDump.EachLineOnce | bpftool/src/xlated_dumper.c:334-345 | With increasing offsets the dump prints every line record exactly once, in order, right before its instruction, if and only if none belongs to a second slot or lies outside the program, whatever the function records are |
| LinfoDump.EachInsnOnce | bpftool/src/xlated_dumper.c:314-347 | Whatever the records are, the dump prints every instruction once and in order, and no slot that it skips |
| LinfoDump.SkippedIsOdd | bpftool/src/xlated_dumper.c:314-347 | A slot is skipped exactly if an odd number of 64-bit load codes stand right before it |
| LinfoDump.FuncOnce | bpftool/src/xlated_dumper.c:322-332 | A function record is taken, once, in order and right before its instruction and the line there, if and only if it and all before it lie on instructions in strictly increasing order |
| LinfoDump.DumpPlain | bpftool/src/xlated_dumper.c:297-359 | The loop with its double_insn, record and nr_skip variables prints the specified events: function signatures, lines and instructions |
| LinfoDump.BeforeIsNext | bpftool/libbpf/src/bpf_prog_linfo.c:219-246 | With the records below an instruction taken, the search finds the one at it, if there is one |
| Bitfield.IntBits | bpftool/src/btf_dumper.c:378-393 | The composed byte and bit split reads exactly bits total to total + nr of the data |
| Bitfield.BitfieldWords | bpftool/src/btf_dumper.c:351-375 | For nr >= 1 and off + nr <= 127 the two words hold the data's value shifted right by off, modulo 2^nr |
| Bitfield.Int128Shift | bpftool/src/btf_dumper.c:310-349 | The shifts of two words are a multiplication modulo 2^128 followed by a division, across the word boundary included |
| Bitfield.LeftIs | bpftool/src/btf_dumper.c:323-331 | Shifting the words left multiplies the 128-bit number |
| Bitfield.RightIs | bpftool/src/btf_dumper.c:333-340 | Shifting the words right divides it |
| Bitfield.ShiftsExtract | bpftool/src/btf_dumper.c:351-375 | Left then right leaves nr bits from bit off on |
| SectionLayout.LayoutExact | bpftool/src/gen.c:124-210 | When generation succeeds, C layout puts every emitted variable at exactly its offset with paddings of positive length, on machines that cap alignment at 4 or at 8, if and only if every offset is a multiple of the capped alignment |
| SectionLayout.GenerateSucceeds | bpftool/src/gen.c:142-165 | Generation succeeds if and only if, of the variables that are not static, none starts before the section or before the end of an earlier one, and all have a positive alignment |
| SectionLayout.DeclaresShown | bpftool/src/gen.c:142-196 | Then each variable that is not static is declared exactly once, in order |
| SectionLayout.NoNeedlessPad | bpftool/src/gen.c:181-186 | When all offsets suit the alignment capped at 4, a padding stands only where the variable would otherwise lie elsewhere |
| SectionLayout.NaturalSuitsBoth | bpftool/src/gen.c:142-196 | Offsets that are multiples of the natural alignments suit both kinds of machine |
| SectionLayout.EmitExact | bpftool/src/gen.c:142-196 | One variable: padding and variable end where the section says |
| SectionLayout.CodegenDatasec | bpftool/src/gen.c:124-210 | The loop generates the specified fields or the specified error |

## Left out

- LoaderMain.LoaderRuns: assumes that recorded relocations lie inside their program, each in instructions of its own, as libbpf records them, and at most 32 programs and 64 maps, for which the stack frame and the map slots have room; the code checks the number of maps only.
- LoaderLoad.ProgGiven: says nothing about what a name gets that one program uses both as a variable and as a function; the account of lookups and closes covers it.
- LoaderExact.UnwoundOnce: counts by request, not by descriptor number, which the kernel may hand out again after a close.
- LoaderSlots.UnwoundModules: counts by request as well.
- LoaderGiven.UpdateGiven: what memory holds at an address when a helper copies from it is arbitrary, and so is the helper's result, which the code does not check.
- Message formatting of the loader's prints is an arbitrary function; realloc and ENOMEM are limits on the two buffers; the 32-bit wrap of a size in add_data is not modelled, sizes are bounded by those limits.
- Field offsets of `union bpf_attr`, the context and the stack frame are constants, of fields that leave no gap (LoaderAttr.FieldsPacked).
- Nodes of functions, blocks and edges are linked lists in the code and sequences of objects in `CfgBuild`; the linking itself, and sorted insertion on linked nodes, is `CfgList`. Allocation failure and the DOT output are left out.
- BtfMark.Info.MarkType: for BTF on which the recursion ends; BtfMark.MarkEnds says which that is.
- BtfMark.Info.MarkTypeMatch: the same, with BtfMatch.MatchEnds. The type field of a forward declaration, which BTF has as 0, is not modelled.
- The candidate search and the parsing of relocation specs are left out: a relocation arrives as the target type and access path.
- The relocation engine's own comparisons (sizes, access paths, matches, compatible types) are stated as recursive functions, with what they decide as lemmas, and not as its loops; typedefs and modifiers are skipped at most `fuel` times, for every `fuel`.
- BTF strings are values and not offsets into a string section; ENOMEM is left out; the target's pointer size is a parameter.
- HashCap.CapacityIs: for runs in which entries can be allocated; a table that has grown for an entry whose allocation then fails keeps its capacity.
- Hash chains are sequences of entries and not linked cells, so the pointers to pointers of `hashmap_find_entry` are positions; outcomes of malloc and calloc are inputs; `str_hash` is left out.
- Packet headers are not parsed: a packet arrives as a flow key or without one. Ring-buffer events and timestamps are left out, and so is the hit count of a rule when several CPUs count it, or when it is changed from outside. Which sessions the LRU map evicts is arbitrary.
- Addresses of flows and rules are compared as the 32-bit words in the maps; FilterCover.CoversIntervals speaks of intervals of these words, in whose byte order the masks are prefixes.
- FilterExact.CountersExact: the if-and-only-if is stated below wrap-around, where a lost update cannot be hidden by the width of a counter, and for bytes without empty packets, which add nothing that could be lost.
- FilterSafe.VerdictsFollowDecisions: one lookup reads a whole map value at once, and the read of a session's policy_action is one step with the session's lookup; a value that is overwritten while it is read is not modelled. A packet keeps a pointer into an LRU element, which the kernel may give to another flow when the session is evicted: in the model nobody reads through it after that. The same holds for FilterSafe.CacheTransparent.
- Loads and stores of the counters of a session that was evicted in between have no effect in the model, as the entry is gone; in the kernel they may hit the element's next owner.
- JsonRound.RoundTrip: the reader does not interpret four-digit Unicode escapes, which the writer never prints; numbers are literals, floating-point formatting and `jsonw_vprintf_enquote` are left out.
- LinfoDump.FuncOnce: the signature of a function and whether it is empty, in which case nothing is printed for its record, are left out, and so is the source text of a line; what lies in memory behind the last function record is arbitrary. The JSON loop of the dumper prints the same records and is not modelled separately.
- Bitfield.IntBits: little-endian machines and fields of up to 127 bits including their offset; beyond that, and on big-endian machines without a left shift, the code shifts a 64-bit word by 64, which C leaves undefined.
- SectionLayout.LayoutExact: names, weak and static markers other than being skipped, and the printed text are left out; sizes and offsets do not overflow an int.
- System-call wrappers, the command line, disassembly, feature probes, the kernel symbol table and the Go tools are left out: they would add no hard property.
