# Tosca conformance-test memory and Rust step interpreter, in Dafny

This project models two pieces of the Tosca EVM implementation.

- **`St.Memory`** (`memory.dfy`) models the memory of the Go conformance-test state (`go/ct/st/memory.go`).
  It is a byte buffer that grows on demand in 32-byte steps and is zero-filled.
  It reads and writes spans, and it prices an expansion with the quadratic memory cost of the
  Ethereum Yellow Paper (Appendix H.1), computed in Go's `uint64` arithmetic.
  The Go struct's `mem` slice is the class's `mem` field; its methods reassign that field.
- **`Interpreter`** (`interpreter.dfy`) models the Rust single-step interpreter (`rust/src/interpreter/mod.rs`).
  `run` executes up to `steps` instructions from a given program counter, charging each executed instruction's gas.
  STOP, the catch-all for undefined opcodes, the `unimplemented!()` arms and an instruction refused by the revision check charge nothing.
  It ends in one of three ways:
  - it hands back the machine state (`RunOk`);
  - it fails with a `(StepStatusCode, StatusCode)` pair that discards the state (`RunErr`);
  - it panics (`RunPanic`), at `unimplemented!()` and at failed unwraps.

  `run` lends its program counter, gas and stack to the helpers by `&mut`.
  Here a helper that changes them takes the current values of those it changes and returns the updated ones:
  - `Interpreter.Push`, `Interpreter.Dup` and `Interpreter.Swap` (`push`, `dup`, `swap`) are methods that take program counter, gas and stack and return all three updated, or a fault;
  - `Interpreter.ConsumeGas` (`consume_gas` and `consume_dyn_gas`) is a method that takes the gas and a cost and returns the reduced gas, or a fault;
  - `Interpreter.PopFromStack` (`pop_from_stack`) is a method that takes the stack and returns the popped words and the shortened stack, or a fault;
  - `Interpreter.JumpTo` (`jump`) is a method that takes a destination and the jump-destination list and returns the new program counter, or a fault.

  The helpers that only read their inputs are functions:
  `Interpreter.CheckMinRevision` (`check_min_revision`) and `Interpreter.CheckStackOverflow` (`check_stack_overflow`) return the fault, if any;
  `Interpreter.NthFromStack` (`nth_ref_from_stack`) returns the n-th word from the top, or a fault.
  - `Interpreter.Exec` and `Interpreter.Loop` give the reference semantics of one instruction and of the loop.
  - `Interpreter.Run` is the loop written as a `while`, proved equal to that reference.
  - The lemmas state what the loop guarantees: bounds on gas and stack, jump targets, PUSH immediates, SWAP permutations, EXP gas, and the revision gate.

Supporting modules:
- `Words` (`words.dfy`): bytes, Go/Rust 64-bit integers and 256-bit words, with the big-endian conversion between words and byte strings.
- `U256` (`u256.dfy`): the EVM's 256-bit arithmetic, which the interpreter applies to stack operands.

Stacks are sequences whose top is the last element.
`run` reverses the stack when it returns (`stack.reverse()`), so a `StepResult` carries it top first (`Interpreter.TopFirst`).

## Model

| member | source | states |
|---|---|---|
| St.Memory.constructor | go/ct/st/memory.go:17-20 | a new memory holds exactly the given bytes |
| St.Memory.Clone | go/ct/st/memory.go:22-25 | the clone is a fresh object with the same contents |
| St.Memory.Size | go/ct/st/memory.go:27-30 | the size is the length of the contents, below 2^63 like a Go `int` |
| St.Memory.Set | go/ct/st/memory.go:32-35 | the contents become exactly the given bytes |
| St.Memory.Append | go/ct/st/memory.go:37-40 | the contents become the old contents followed by the data |
| St.RoundUp32 | go/ct/st/memory.go:70 | rounding up gives the least multiple of 32 not below the size |
| St.GrownSize | go/ct/st/memory.go:62-73 | the grown size never shrinks the memory and covers a non-empty span |
| St.Memory.Grow | go/ct/st/memory.go:62-73 | old bytes are kept and the appended tail is all zero; the new size is the old size, or the span's end rounded up to 32; 32-byte alignment is preserved; afterwards the expansion cost of that span is zero |
| St.Memory.Read | go/ct/st/memory.go:42-50 | a zero-size read returns nothing and leaves memory unchanged; otherwise memory grows to the span and the span's bytes are returned |
| St.Memory.Write | go/ct/st/memory.go:52-60 | an empty write changes nothing; otherwise the span holds the data, bytes outside the span keep their old value, and new bytes are zero |
| St.WriteThenRead | go/ct/st/memory.go:42-60 | reading back a span just written returns the written data |
| St.Memory.ExpansionCosts | go/ct/st/memory.go:75-98 | the result is the span cost for the current size (`SpanCosts`), whose properties the lemmas below state |
| St.ExpansionCostsSaturation | go/ct/st/memory.go:78-80 | the result is (MaxUint64, 0, 0) exactly when the size, or the offset of a non-empty span, does not fit in 64 bits |
| St.ExpansionCostsFree | go/ct/st/memory.go:77-91 | a zero-size span at any 256-bit offset, or one inside the current memory, costs nothing and hands back the offset's low 64 bits and the size |
| St.ExpansionCostsExact | go/ct/st/memory.go:87-97 | growing memory costs C_mem(new size) − C_mem(current size), the Yellow Paper's cost, and no uint64 operation wraps |
| St.CalcMemoryCostExact | go/ct/st/memory.go:92-95 | the uint64 cost function equals the exact C_mem(s) = w²/512 + 3w for spans whose word count fits in 32 bits |
| St.CostDeltaExact | go/ct/st/memory.go:96 | the uint64 difference of two costs is their exact, non-negative difference |
| St.MemoryCostMonotone | go/ct/st/memory.go:92-95 | C_mem never decreases as the size grows |
| St.ExpansionCostsMonotone | go/ct/st/memory.go:87-97 | the expansion cost never decreases as the end of the span moves up |
| St.Memory.HashInput | go/ct/st/memory.go:100-114 | the bytes Hash digests: memory grows to the span, and the span's bytes are returned (none when the size is zero) |
| St.Memory.Eq | go/ct/st/memory.go:116-119 | equal exactly when the sizes match and every byte matches |
| St.Memory.Diff | go/ct/st/memory.go:121-133 | different sizes give the one size finding; equal sizes give the mismatching offsets in increasing order, each with both values and each mismatch listed; no finding exactly when `Eq` holds |
| Words.I64AsU64 | rust/src/interpreter/mod.rs:417 | `i64 as u64` keeps non-negative values and adds 2^64 to negative ones |
| Words.U64AsI64 | rust/src/interpreter/mod.rs:289 | `u64 as i64` is undone by `i64 as u64` |
| Words.I64AsU64Inverse | rust/src/interpreter/mod.rs:289 | `i64 as u64` is undone by `u64 as i64`, the other direction of the cast pair |
| Words.BytesOf | rust/src/interpreter/mod.rs:102 | a word's 32 big-endian bytes decode back to the word |
| Words.WordOf | rust/src/interpreter/mod.rs:550 | at most 32 big-endian bytes give a word below 256^length |
| Words.FromToBytes | rust/src/interpreter/mod.rs:102 | decoding the k-byte encoding of a value gives the value modulo 256^k |
| Words.ToFromBytes | rust/src/interpreter/mod.rs:550 | encoding the value of a byte string in as many bytes gives the string back |
| Words.WordOfBytes | rust/src/interpreter/mod.rs:550 | the low-order bytes of the word built from PUSH's immediates are those immediates |
| Interpreter.TopFirst | rust/src/interpreter/mod.rs:515 | the reversed stack has the same length, with the old top first; `TopFirstPush` and `TopFirstTwice` pin it down as the whole stack reversed |
| Interpreter.TopFirstPush | rust/src/interpreter/mod.rs:515 | reversing a stack with one more word pushed puts that word first, ahead of the reversed rest, so the result is the stack reversed |
| Interpreter.TopFirstTwice | rust/src/interpreter/mod.rs:515 | reversing twice gives the stack back |
| Interpreter.ConsumeGas | rust/src/interpreter/mod.rs:626-648 | fails with OUT_OF_GAS exactly when the gas left is below the cost; otherwise the cost is subtracted, and the remaining gas is between 0 and what was left |
| Interpreter.CheckMinRevision | rust/src/interpreter/mod.rs:612-624 | fails with INTERNAL_ERROR exactly when the revision is earlier than the minimum |
| Interpreter.CheckStackOverflow | rust/src/interpreter/mod.rs:650-661 | passes exactly when the stack has room for n more words within 1024; otherwise STACK_OVERFLOW |
| Interpreter.PopFromStack | rust/src/interpreter/mod.rs:663-679 | fails with STACK_UNDERFLOW exactly when fewer than n words are present; otherwise returns the top n words top first, and the rest, which together make up the stack |
| Interpreter.NthFromStack | rust/src/interpreter/mod.rs:681-693 | the n-th word from the top exactly when the stack holds n words; otherwise STACK_UNDERFLOW |
| Interpreter.Push | rust/src/interpreter/mod.rs:533-554 | fails exactly on too little gas, a full stack, or too few immediate bytes, with the status of the first check that fails; otherwise it skips opcode and immediates, charges 3, and pushes the immediates' big-endian value (with the corrected guard, see Findings) |
| Interpreter.PushAsWritten | rust/src/interpreter/mod.rs:533-554 | with the guard as written, a PUSHn whose immediates end one byte past the code panics |
| Interpreter.Dup | rust/src/interpreter/mod.rs:556-570 | fails exactly on too little gas, a full stack, or fewer than n words, in that order; otherwise pushes a copy of the n-th word from the top |
| Interpreter.Swap | rust/src/interpreter/mod.rs:572-590 | fails exactly on too little gas or fewer than n+1 words; otherwise exchanges the top with the word n below it and leaves every other word in place |
| Interpreter.JumpTo | rust/src/interpreter/mod.rs:592-610 | succeeds exactly when the destination fits in 64 bits and is a jump destination, and then jumps to it; otherwise BAD_JUMP_DESTINATION |
| Interpreter.ExpCostMultiplier | rust/src/interpreter/mod.rs:102-111 | 32 less the leading zero bytes of the exponent is the number of bytes the exponent needs: at most 32, the exponent is below 256^m, and at least 256^(m−1) when m > 0 |
| Interpreter.SignificantBytesUnique | rust/src/interpreter/mod.rs:102-111 | the byte count the loop finds is the significant-byte count of the exponent |
| Interpreter.SignificantBytesSpan | rust/src/interpreter/mod.rs:102-111 | the significant-byte count m of e satisfies 256^(m−1) ≤ e < 256^m |
| Interpreter.ExpGas | rust/src/interpreter/mod.rs:99-115 | a successful EXP charges 10 plus 50 for each of the exponent's at most 32 significant bytes |
| Interpreter.Decode | rust/src/interpreter/mod.rs:38-511 | no contract of its own: the instruction that `run`'s `match code[pc]` selects for each byte, family by family: STOP, four tables for the irregular families, PUSHn, DUPn and SWAPn by their offset from the first of each, and `Undefined` for the bytes without an arm; the lemmas below pin it to concrete bytes |
| Interpreter.DecodePush | rust/src/interpreter/mod.rs:427-458 | byte 0x5f + n selects PUSHn, for every n from 1 to 32 |
| Interpreter.DecodeDup | rust/src/interpreter/mod.rs:459-474 | byte 0x7f + n selects DUPn, for every n from 1 to 16 |
| Interpreter.DecodeSwap | rust/src/interpreter/mod.rs:475-490 | byte 0x8f + n selects SWAPn, for every n from 1 to 16 |
| Interpreter.DecodeUndefinedRange | rust/src/interpreter/mod.rs:506-511 | every byte from 0xb0 to 0xef reaches the catch-all arm |
| Interpreter.DecodeFlow | rust/src/interpreter/mod.rs:40-44 | the bytes of STOP, POP, JUMP, JUMPI, JUMPDEST and PUSH0 select those instructions, so `RunStop`'s hypothesis holds for byte 0x00 |
| Interpreter.DecodeArithSamples | rust/src/interpreter/mod.rs:200-206 | SAR and SHA3 are selected by their bytes, and the unassigned bytes beside them reach the catch-all arm |
| Interpreter.DecodeEnvSamples | rust/src/interpreter/mod.rs:281-376 | BLOCKHASH, BLOBHASH and BLOBBASEFEE are selected by their bytes, and the byte after them reaches the catch-all arm |
| Interpreter.DecodeSystemSamples | rust/src/interpreter/mod.rs:491-511 | LOG0 and SELFDESTRUCT are selected by their bytes, and unassigned bytes beside them reach the catch-all arm |
| Interpreter.Execute | rust/src/interpreter/mod.rs:38-511 | one arm of `run`'s match, built from the helpers, has the effect of the reference step `Exec`; its PUSHn arms use the corrected guard (see Findings) |
| Interpreter.ExecuteArith | rust/src/interpreter/mod.rs:45-205 | the arithmetic, comparison, bitwise and shift arms have the effect of `ExecArith`: charge, pop the operands, push the result |
| Interpreter.ExecuteExp | rust/src/interpreter/mod.rs:99-115 | the EXP arm has the effect of `ExecExp`: 10 gas, then 50 per significant exponent byte, then push base^exponent |
| Interpreter.ExecuteQuery | rust/src/interpreter/mod.rs:207-419 | the arms that push one value from the message, the context, pc, memory size or gas have the effect of `ExecQuery` |
| Interpreter.ExecuteEnv | rust/src/interpreter/mod.rs:232-370 | the CALLDATALOAD, BLOCKHASH and BLOBHASH arms have the effect of `ExecEnv` |
| Interpreter.BlockHashValue | rust/src/interpreter/mod.rs:281-293 | no contract of its own: BLOCKHASH's value, zero above the current block number plus 255 (the sum wrapped to 64 bits), otherwise the host's block hash at the popped number read as an i64; `BlockHashLookup` states what it yields |
| Interpreter.BlockHashLookup | rust/src/interpreter/mod.rs:281-293 | while the current block number plus 255 neither overflows nor goes negative, BLOCKHASH yields zero exactly for a number above that sum, and otherwise the host's hash of that very block number |
| Interpreter.ExecuteControl | rust/src/interpreter/mod.rs:378-423 | the POP, JUMP, JUMPI and JUMPDEST arms have the effect of `ExecControl` |
| Interpreter.Run | rust/src/interpreter/mod.rs:15-531 | the loop's outcome is the reference outcome `RunSpec`: the state after the budget or a `break`, an error, or a panic at an `unimplemented!()` arm or an absent call input; PUSH runs with the corrected guard (see Findings) |
| Interpreter.ExecStep | rust/src/interpreter/mod.rs:34-511 | an instruction after which the loop continues charges at least one unit of gas, never drives gas negative, and keeps the stack within 1024; it moves pc just past itself and its immediates, or, for JUMP/JUMPI, to a jump destination |
| Interpreter.RevisionGate | rust/src/interpreter/mod.rs:612-624 | an instruction newer than the revision fails with INTERNAL_ERROR whatever gas and stack are, and only then |
| Interpreter.JumpTargets | rust/src/interpreter/mod.rs:388-392 | JUMP continues exactly when the popped destination is valid, then lands on it; otherwise BAD_JUMP_DESTINATION |
| Interpreter.JumpITargets | rust/src/interpreter/mod.rs:393-401 | JUMPI pops the destination and then the condition; a zero condition only steps past the JUMPI, a non-zero one jumps exactly when the destination is valid and otherwise fails with BAD_JUMP_DESTINATION; both words leave the stack and 10 gas is charged |
| Interpreter.PushImmediate | rust/src/interpreter/mod.rs:549-551 | PUSHn skips n+1 bytes, keeps the stack below, and pushes a value below 256^n whose n big-endian bytes are the immediates |
| Interpreter.SwapTwice | rust/src/interpreter/mod.rs:572-590 | SWAPn permutes the stack, and a second SWAPn restores it at a cost of 6 gas |
| Interpreter.CallDataWindow | rust/src/interpreter/mod.rs:232-247 | CALLDATALOAD pushes the word whose 32 big-endian bytes are the input at the offset, zero past its end |
| Interpreter.PushGuardGap | rust/src/interpreter/mod.rs:542-550 | the code [PUSH1] at pc 0 makes the as-written guard panic, where the corrected one returns INTERNAL_ERROR |
| Interpreter.PushAsWrittenAgrees | rust/src/interpreter/mod.rs:542-550 | off that one code length the as-written and corrected guards behave identically |
| Interpreter.PushNeverPanics | rust/src/interpreter/mod.rs:533-554 | with the corrected guard PUSH never panics, and continues exactly when gas, stack room and immediates suffice |
| Interpreter.LoopCompose | rust/src/interpreter/mod.rs:34-38 | n+m turns of the loop are n turns followed, if the loop did not end, by m more |
| Interpreter.LoopBounds | rust/src/interpreter/mod.rs:34-513 | the loop keeps the stack within 1024 and gas non-negative; when the budget runs out, each turn has cost at least one unit of gas |
| Interpreter.RunBounds | rust/src/interpreter/mod.rs:515-530 | a normal return hands back a stack within 1024 and no more gas than the message carried, with the revision and memory unchanged and no output |
| Interpreter.RunNoSteps | rust/src/interpreter/mod.rs:34 | a zero or negative step count returns SUCCESS with pc and gas as given and the stack reported top first |
| Interpreter.RunStop | rust/src/interpreter/mod.rs:40-44 | STOP ends the run as stopped with SUCCESS, charging nothing: pc and gas as they were, the stack reported top first |
| Interpreter.RunUndefinedOpcode | rust/src/interpreter/mod.rs:506-511 | a byte without an arm ends the run as failed with BAD_JUMP_DESTINATION, returned normally and charging nothing: pc and gas as they were, the stack reported top first |
| Interpreter.RunPastEnd | rust/src/interpreter/mod.rs:35-37 | fetching at or past the end of the code, empty code included, returns (STEP_FAILED, FAILURE) |
| Interpreter.RunPushAtCodeEnd | rust/src/interpreter/mod.rs:542-550 | a PUSHn whose immediates end one byte past the code makes the modelled run return INTERNAL_ERROR, at the very instruction where the guard as written panics |

## Left out

- The Keccak-256 digest of `Memory.Hash` (go/ct/st/memory.go:104-112) is not modelled. `St.Memory.HashInput` models the growth and the exact bytes hashed.
- `Memory.Diff` returns formatted strings; the model returns structured `Difference` values carrying the same numbers.
- Go slice aliasing is not modelled. `Clone` and `Set` copy in the source, and `NewMemory` keeps the caller's slice; the model's contents are values.
- St.Memory.Grow: requires `offset + size + 31 < 2^63` for a non-empty span. Beyond that, Go's `uint64` sum would wrap or the allocation would panic.
- St.Memory.Read: requires `offset + size + 31 < 2^63` for a non-empty read, because it grows memory like Grow.
- St.Memory.Write: requires `offset + len(data) + 31 < 2^63` for non-empty data, because it grows memory like Grow.
- St.Memory.HashInput: requires `offset + size + 31 < 2^63` for a non-empty span, because it grows memory like Grow.
- St.WriteThenRead: requires `offset + len(data) + 31 < 2^63` for non-empty data, because it writes and reads through Grow.
- St.ExpansionCostsExact: the exactness and monotonicity lemmas hold for spans up to 2^37 − 32 bytes, where no `uint64` product or sum wraps. Beyond that, `SpanCosts` still computes the wrapped values exactly as Go does.
- Interpreter.ConsumeGas: requires the cost to be below 2^63. All static costs and EXP's dynamic cost (at most 1600) are; the `u64 as i64` cast of larger costs is not modelled.
- `get_jump_destinations` (rust/src/interpreter/jumpdest.rs) is not part of this model: its result is the `jumpDests` field of `Frame`.
- The `ExecutionMessage` and `ExecutionContext` values (sender, block fields, balances, block hashes) are opaque fields of `Host`; the host calls themselves are not modelled.
- rust/src/types/u256.rs is not part of this model. `U256` gives each word operation the EVM's meaning, and the `u256`/byte-array conversions (`*top2`, `try_into`) are taken to be big-endian. PUSHn's `code[..].try_into().unwrap()` on its N immediate bytes is taken to succeed for every N from 1 to 32, zero-extending the bytes on the left as `Words.WordOf` does.
- The console message `run` writes when it starts (rust/src/interpreter/mod.rs:33) and on an undefined opcode is output only and is left out.
- Opcodes whose arm is `unimplemented!()` (memory, storage, logs, calls, SHA3 and others) end the run in `RunPanic`; their behaviour is not modelled.
- BLOBHASH's null-pointer branch with its `assert_eq!` is not modelled: the blob hashes are a sequence, so an index below their count always finds a hash.
- Interpreter.Decode: has no contract. The lemmas about it cover the PUSH, DUP and SWAP families in full, the unassigned range 0xb0 to 0xef, and samples from the other families; they do not look up every entry of the tables for bytes 0x01 to 0x2f and 0x30 to 0x5f, because the verifier does not resolve an index more than about 38 entries from the end of a sequence display, and tables short enough for it to resolve every index put the loop lemmas `LoopCompose` and `LoopBounds` over the resource limit. Those tables follow the match arms of mod.rs:38-511 entry by entry.
- BLOCKHASH computes `current_block_number + 255` on an `i64`. The model takes the wrapped sum, which is what a release build does; a debug build would panic on overflow.
- `Revision` lists EVMC's revisions up to Prague.
- The EVM convention is that fetching past the end of the code is an implicit STOP and that missing PUSH immediates read as zero. This interpreter does neither: the fetch returns `(STEP_FAILED, FAILURE)`, and a short PUSH returns INTERNAL_ERROR. The model follows the code here, with one exception: the boundary PUSH of the Findings table, where the model uses the corrected guard.
- Interpreter.Run: a PUSHn whose immediates end exactly one byte past the code (`code.len() == pc + N`) gives `RunErr(INTERNAL_ERROR)` in the model, while `run` as written panics (`Interpreter.RunPushAtCodeEnd`). The model runs the corrected guard of the Findings table; the as-written behaviour is `Interpreter.PushAsWritten`.
- Interpreter.Execute: its PUSHn arms call the corrected `Interpreter.Push`, so in that same boundary case the step is `Abort(INTERNAL_ERROR)`, not the panic of the source's arm.
- Interpreter.Run: the loop runs at most `i32::MAX` turns, and its `usize` program counter is an unbounded `nat`, reported modulo 2^64.

## Findings

| source | as written | input that shows it | evidently intended | confidence | as-written member | corrected member |
|---|---|---|---|---|---|---|
| rust/src/interpreter/mod.rs:542 | `push::<N>` checks `code.len() < pc + N`, then slices `code[pc + 1..pc + 1 + N]` | code `[0x60]` (PUSH1 as the only byte), pc 0, gas 3, empty stack: the guard passes because 1 < 1 is false, and the slice 1..2 runs past the 1-byte code, so `run` panics (`Interpreter.PushGuardGap`) | the guard `code.len() < pc + 1 + N`, which returns INTERNAL_ERROR as for every other short PUSH; proved to never panic (`Interpreter.PushNeverPanics`) | not executed | Interpreter.PushAsWritten | Interpreter.Push |
