/** The single-step loop of the Rust EVM interpreter (`run` and its helpers): a
    stack machine over 256-bit words that executes up to a given number of
    instructions, charging each executed instruction's gas, and either hands back
    the machine state, or fails with a status pair that discards the state.

    `run` keeps the program counter, the gas left and the stack in local variables
    and lends them to its helpers by `&mut`; here a helper takes the current values
    of those it changes and returns the updated ones. Opcodes that touch memory, storage, logs or
    other contracts are `unimplemented!()` in the source and end in `Panic`. */
module Interpreter {
  import opened Words
  import U256

  /** The stack capacity of section 9.4.2 of the Ethereum Yellow Paper. */
  const STACK_LIMIT: nat := 1024
  const I32_MAX: nat := 0x7FFF_FFFF

  type I32 = x: int | -0x8000_0000 <= x <= 0x7FFF_FFFF

  /** EVMC's revisions, in the order EVMC declares them. */
  datatype Revision =
    | Frontier | Homestead | TangerineWhistle | SpuriousDragon | Byzantium | Constantinople
    | Petersburg | Istanbul | Berlin | London | Paris | Shanghai | Cancun | Prague

  function Ordinal(rev: Revision): nat
  {
    match rev
    case Frontier => 0
    case Homestead => 1
    case TangerineWhistle => 2
    case SpuriousDragon => 3
    case Byzantium => 4
    case Constantinople => 5
    case Petersburg => 6
    case Istanbul => 7
    case Berlin => 8
    case London => 9
    case Paris => 10
    case Shanghai => 11
    case Cancun => 12
    case Prague => 13
  }

  datatype StepStatusCode = StepRunning | StepStopped | StepReturned | StepReverted | StepFailed

  /** The EVMC status codes this loop reports. */
  datatype StatusCode =
    | Success | Failure | OutOfGas | StackOverflow | StackUnderflow | BadJumpDestination | InternalError

  /** The error half of the helpers' `Result`: it ends `run` and drops the machine state. */
  datatype Fault = Fault(step: StepStatusCode, status: StatusCode)

  const OUT_OF_GAS := Fault(StepFailed, OutOfGas)
  const STACK_OVERFLOW := Fault(StepFailed, StackOverflow)
  const STACK_UNDERFLOW := Fault(StepFailed, StackUnderflow)
  const BAD_JUMP_DESTINATION := Fault(StepFailed, BadJumpDestination)
  const INTERNAL_ERROR := Fault(StepFailed, InternalError)

  datatype Result<T> = Ok(value: T) | Err(fault: Fault)

  /** The variables `run` lends to its helpers: program counter, gas left, and the
      stack with its top as the last element. */
  datatype Regs = Regs(pc: nat, gas: I64, stack: seq<Word>)

  /** The values `run` obtains from its ExecutionMessage and ExecutionContext. */
  datatype Host = Host(
    gas: I64,
    recipient: Word, sender: Word, value: Word, input: Option<seq<Byte>>,
    txOrigin: Word, txGasPrice: Word, blockCoinbase: Word, blockTimestamp: I64,
    blockNumber: I64, prevRandao: Word, blockGasLimit: I64, chainId: Word,
    selfBalance: Word, baseFee: Word, blobBaseFee: Word, blobHashes: seq<Word>,
    blockHash: I64 -> Word)

  /** What stays fixed during one call of `run`; `jumpDests` is the list that
      `get_jump_destinations` computes from the code. */
  datatype Frame = Frame(revision: Revision, code: seq<Byte>, jumpDests: seq<nat>, host: Host, memory: seq<Byte>)

  /** The stack read from the top down: `stack.reverse()`. */
  function TopFirst(stack: seq<Word>): (s: seq<Word>)
    ensures |s| == |stack|
    ensures |stack| > 0 ==> s[0] == stack[|stack| - 1]
  {
    seq(|stack|, i requires 0 <= i < |stack| => stack[|stack| - 1 - i])
  }

  /** Pushing a word puts it first in the top-first reading. */
  lemma TopFirstPush(stack: seq<Word>, x: Word)
    ensures TopFirst(stack + [x]) == [x] + TopFirst(stack)
  {
    assert (stack + [x])[..|stack|] == stack;
  }

  /** Reading top first twice gives the stack back. */
  lemma TopFirstTwice(stack: seq<Word>)
    ensures TopFirst(TopFirst(stack)) == stack
  {
  }

  // ---------------------------------------------------------------------------
  // Instructions

  datatype ArithOp =
    | Add | Mul | Sub | Div | SDiv | Mod | SMod | AddMod | MulMod | SignExtend
    | Lt | Gt | SLt | SGt | Eq | IsZero | And | Or | Xor | Not | Byte | Shl | Shr | Sar

  /** Instructions that charge gas, check for room on the stack and push one value. */
  datatype Query =
    | Address | Origin | Caller | CallValue | CallDataSize | Push0 | CodeSize | GasPrice
    | Coinbase | Timestamp | Number | PrevRandao | GasLimit | ChainId | SelfBalance
    | BaseFee | BlobBaseFee | Pc | MSize | Gas

  type PushWidth = n: nat | 1 <= n <= 32 witness 1
  type StackDepth = n: nat | 1 <= n <= 16 witness 1

  datatype Instr =
    | Stop
    | Arith(op: ArithOp)
    | Exp
    | Query(q: Query)
    | CallDataLoad
    | BlockHash
    | BlobHash
    | Pop
    | Jump
    | JumpI
    | JumpDest
    | PushN(width: PushWidth)
    | DupN(depth: StackDepth)
    | SwapN(depth: StackDepth)
    | Unimplemented(mnemonic: string)  // an arm that is `unimplemented!()`
    | Undefined      // the catch-all arm

  /** Bytes 0x00 to 0x2f: STOP, the arithmetic, comparison and bitwise opcodes, and SHA3. */
  const OPCODES_00: seq<Instr> := [
    /* 0x00 */ Stop, Arith(Add), Arith(Mul), Arith(Sub), Arith(Div), Arith(SDiv), Arith(Mod), Arith(SMod),
    /* 0x08 */ Arith(AddMod), Arith(MulMod), Exp, Arith(SignExtend), Undefined, Undefined, Undefined, Undefined,
    /* 0x10 */ Arith(Lt), Arith(Gt), Arith(SLt), Arith(SGt), Arith(Eq), Arith(IsZero), Arith(And), Arith(Or),
    /* 0x18 */ Arith(Xor), Arith(Not), Arith(Byte), Arith(Shl), Arith(Shr), Arith(Sar), Undefined, Undefined,
    /* 0x20 */ Unimplemented("SHA3"), Undefined, Undefined, Undefined, Undefined, Undefined, Undefined, Undefined,
    /* 0x28 */ Undefined, Undefined, Undefined, Undefined, Undefined, Undefined, Undefined, Undefined
  ]

  /** Bytes 0x30 to 0x5f: the opcodes that read the call and the block, the stack, memory, storage and flow opcodes, and PUSH0. */
  const OPCODES_30: seq<Instr> := [
    /* 0x30 */ Query(Address), Unimplemented("BALANCE"), Query(Origin), Query(Caller), Query(CallValue), CallDataLoad, Query(CallDataSize), Unimplemented("CALLDATACOPY"),
    /* 0x38 */ Query(CodeSize), Unimplemented("CODECOPY"), Query(GasPrice), Unimplemented("EXTCODESIZE"), Unimplemented("EXTCODECOPY"), Unimplemented("RETURNDATASIZE"), Unimplemented("RETURNDATACOPY"), Unimplemented("EXTCODEHASH"),
    /* 0x40 */ BlockHash, Query(Coinbase), Query(Timestamp), Query(Number), Query(PrevRandao), Query(GasLimit), Query(ChainId), Query(SelfBalance),
    /* 0x48 */ Query(BaseFee), BlobHash, Query(BlobBaseFee), Undefined, Undefined, Undefined, Undefined, Undefined,
    /* 0x50 */ Pop, Unimplemented("MLOAD"), Unimplemented("MSTORE"), Unimplemented("MSTORE8"), Unimplemented("SLOAD"), Unimplemented("SSTORE"), Jump, JumpI,
    /* 0x58 */ Query(Pc), Query(MSize), Query(Gas), JumpDest, Unimplemented("TLOAD"), Unimplemented("TSTORE"), Unimplemented("MCOPY"), Query(Push0)
  ]

  /** Bytes 0xa0 to 0xaf: the LOG opcodes. */
  const OPCODES_A0: seq<Instr> := [
    /* 0xa0 */ Unimplemented("LOG0"), Unimplemented("LOG1"), Unimplemented("LOG2"), Unimplemented("LOG3"), Unimplemented("LOG4"), Undefined, Undefined, Undefined,
    /* 0xa8 */ Undefined, Undefined, Undefined, Undefined, Undefined, Undefined, Undefined, Undefined
  ]

  /** Bytes 0xf0 to 0xff: the system opcodes. */
  const OPCODES_F0: seq<Instr> := [
    /* 0xf0 */ Unimplemented("CREATE"), Unimplemented("CALL"), Unimplemented("CALLCODE"), Unimplemented("RETURN"), Unimplemented("DELEGATECALL"), Unimplemented("CREATE2"), Undefined, Undefined,
    /* 0xf8 */ Undefined, Undefined, Unimplemented("STATICCALL"), Undefined, Undefined, Unimplemented("REVERT"), Unimplemented("INVALID"), Unimplemented("SELFDESTRUCT")
  ]

  /** The instruction that `run`'s `match code[pc]` selects for an opcode byte:
      STOP, the irregular families from their tables, PUSHn, DUPn and SWAPn by
      their offset, and `Undefined` for the bytes 0xb0 to 0xef, which have no arm. */
  function Decode(op: Byte): Instr
  {
    if op == 0x00 then Stop
    else if op < 0x30 then OPCODES_00[op]
    else if op < 0x60 then OPCODES_30[op - 0x30]
    else if op < 0x80 then PushN(op - 0x5f)
    else if op < 0x90 then DupN(op - 0x7f)
    else if op < 0xa0 then SwapN(op - 0x8f)
    else if op < 0xb0 then OPCODES_A0[op - 0xa0]
    else if op < 0xf0 then Undefined
    else OPCODES_F0[op - 0xf0]
  }

  /** PUSH1 to PUSH32 are the bytes 0x60 to 0x7f. */
  lemma DecodePush(n: PushWidth)
    ensures Decode(0x5f + n) == PushN(n)
  {
  }

  /** DUP1 to DUP16 are the bytes 0x80 to 0x8f. */
  lemma DecodeDup(n: StackDepth)
    ensures Decode(0x7f + n) == DupN(n)
  {
  }

  /** SWAP1 to SWAP16 are the bytes 0x90 to 0x9f. */
  lemma DecodeSwap(n: StackDepth)
    ensures Decode(0x8f + n) == SwapN(n)
  {
  }

  /** The bytes 0xb0 to 0xef reach the catch-all arm. */
  lemma DecodeUndefinedRange(op: Byte)
    requires 0xb0 <= op < 0xf0
    ensures Decode(op) == Undefined
  {
  }

  /** The opcodes that steer the loop: STOP, POP, JUMP, JUMPI, JUMPDEST and PUSH0. */
  lemma DecodeFlow()
    ensures Decode(0x00) == Stop && Decode(0x50) == Pop && Decode(0x56) == Jump
    ensures Decode(0x57) == JumpI && Decode(0x5b) == JumpDest && Decode(0x5f) == Query(Push0)
  {
  }

  /** Samples from the arithmetic family: SAR, SHA3, and
      bytes of the catch-all arm between them. */
  lemma DecodeArithSamples()
    ensures Decode(0x1d) == Arith(Sar) && Decode(0x1e) == Undefined
    ensures Decode(0x20) == Unimplemented("SHA3") && Decode(0x21) == Undefined
  {
  }

  /** BLOCKHASH, BLOBHASH and BLOBBASEFEE, and the first byte after them without an arm. */
  lemma DecodeEnvSamples()
    ensures Decode(0x40) == BlockHash && Decode(0x49) == BlobHash
    ensures Decode(0x4a) == Query(BlobBaseFee) && Decode(0x4b) == Undefined
  {
  }

  /** LOG0 and SELFDESTRUCT, and bytes of the catch-all arm beside them. */
  lemma DecodeSystemSamples()
    ensures Decode(0xa0) == Unimplemented("LOG0") && Decode(0xa5) == Undefined
    ensures Decode(0xf6) == Undefined && Decode(0xff) == Unimplemented("SELFDESTRUCT")
  {
  }

  function ArithGas(op: ArithOp): nat
  {
    match op
    case Mul | Div | SDiv | Mod | SMod | SignExtend => 5
    case AddMod | MulMod => 8
    case _ => 3
  }

  function Arity(op: ArithOp): nat
  {
    match op
    case IsZero | Not => 1
    case AddMod | MulMod => 3
    case _ => 2
  }

  /** The value an arithmetic instruction pushes; `args` are the popped operands,
      top of the stack first. */
  function Apply(op: ArithOp, args: seq<Word>): Word
    requires |args| == Arity(op)
  {
    match op
    case Add => U256.Add(args[0], args[1])
    case Mul => U256.Mul(args[0], args[1])
    case Sub => U256.Sub(args[0], args[1])
    case Div => U256.Div(args[0], args[1])
    case SDiv => U256.SDiv(args[0], args[1])
    case Mod => U256.Mod(args[0], args[1])
    case SMod => U256.SMod(args[0], args[1])
    case AddMod => U256.AddMod(args[0], args[1], args[2])
    case MulMod => U256.MulMod(args[0], args[1], args[2])
    case SignExtend => U256.SignExtend(args[0], args[1])
    case Lt => U256.Lt(args[0], args[1])
    case Gt => U256.Gt(args[0], args[1])
    case SLt => U256.SLt(args[0], args[1])
    case SGt => U256.SGt(args[0], args[1])
    case Eq => U256.Eq(args[0], args[1])
    case IsZero => U256.IsZero(args[0])
    case And => U256.And(args[0], args[1])
    case Or => U256.Or(args[0], args[1])
    case Xor => U256.Xor(args[0], args[1])
    case Not => U256.Not(args[0])
    case Byte => U256.ByteAt(args[0], args[1])
    case Shl => U256.Shl(args[0], args[1])
    case Shr => U256.Shr(args[0], args[1])
    case Sar => U256.Sar(args[0], args[1])
  }

  function QueryGas(q: Query): nat
  {
    if q == SelfBalance then 5 else 2
  }

  /** The revision an instruction first appears in: PUSH0 in Shanghai (EIP-3855),
      BASEFEE in London (EIP-3198), BLOBHASH and BLOBBASEFEE in Cancun (EIP-4844,
      EIP-7516). */
  function MinRevision(instr: Instr): Option<Revision>
  {
    match instr
    case Query(Push0) => Some(Shanghai)
    case Query(BaseFee) => Some(London)
    case Query(BlobBaseFee) => Some(Cancun)
    case BlobHash => Some(Cancun)
    case _ => None
  }

  function RevisionTooEarly(f: Frame, instr: Instr): bool
  {
    MinRevision(instr).Some? && Ordinal(f.revision) < Ordinal(MinRevision(instr).value)
  }

  /** The value a query instruction pushes, or None where the source unwraps an
      absent call input and panics. `gasLeft` is the gas after charging. */
  function QueryValue(f: Frame, pc: nat, gasLeft: I64, q: Query): Option<Word>
  {
    match q
    case Address => Some(f.host.recipient)
    case Origin => Some(f.host.txOrigin)
    case Caller => Some(f.host.sender)
    case CallValue => Some(f.host.value)
    case CallDataSize => if f.host.input.None? then None else Some(Wrap64(|f.host.input.value|))
    case Push0 => Some(0)
    case CodeSize => Some(Wrap64(|f.code|))
    case GasPrice => Some(f.host.txGasPrice)
    case Coinbase => Some(f.host.blockCoinbase)
    case Timestamp => Some(I64AsU64(f.host.blockTimestamp))
    case Number => Some(I64AsU64(f.host.blockNumber))
    case PrevRandao => Some(f.host.prevRandao)
    case GasLimit => Some(I64AsU64(f.host.blockGasLimit))
    case ChainId => Some(f.host.chainId)
    case SelfBalance => Some(f.host.selfBalance)
    case BaseFee => Some(f.host.baseFee)
    case BlobBaseFee => Some(f.host.blobBaseFee)
    case Pc => Some(Wrap64(pc))
    case MSize => Some(Wrap64(|f.memory|))
    case Gas => Some(I64AsU64(gasLeft))
  }

  /** CALLDATALOAD: the 32 input bytes at `offset`, zero-padded past the end. */
  function CallDataWord(data: seq<Byte>, offset: Word): Word
  {
    if offset >= |data| then 0
    else
      var end := if |data| < offset + 32 then |data| else offset + 32;
      WordOf(data[offset..end] + seq(32 - (end - offset), _ => 0))
  }

  /** BLOCKHASH: zero above the current block number plus 255, otherwise the host's answer. */
  function BlockHashValue(h: Host, number: Word): Word
  {
    var bound := Wrap64(h.blockNumber + 255);
    if number > bound then 0 else h.blockHash(U64AsI64(number))
  }

  /** The number of significant bytes of `e`: the `32 - leading zero bytes` of EXP. */
  function SignificantBytes(e: nat): nat
  {
    if e == 0 then 0 else 1 + SignificantBytes(e / 256)
  }

  /** A valid jump target: it fits in 64 bits and is in the destination list. */
  predicate ValidJump(jumpDests: seq<nat>, dest: Word)
  {
    dest <= MAX_U64 && dest in jumpDests
  }

  // ---------------------------------------------------------------------------
  // Reference semantics of one instruction and of the loop

  datatype Step =
    | Next(regs: Regs)                                        // go on with these values
    | Halt(stepStatus: StepStatusCode, status: StatusCode)    // `break` out of the loop
    | Abort(fault: Fault)                                     // an `Err` returned by `?`
    | Panic                                                   // `unimplemented!()` or a failed unwrap or slice
  /** What one instruction does to the machine, defined arm by arm of `run`. */
  function Exec(f: Frame, instr: Instr, r: Regs): Step
  {
    if RevisionTooEarly(f, instr) then Abort(INTERNAL_ERROR)
    else match instr
      case Stop => Halt(StepStopped, Success)
      case Undefined => Halt(StepFailed, BadJumpDestination)
      case Unimplemented(_) => Panic
      case Arith(op) => ExecArith(op, r)
      case Exp => ExecExp(r)
      case Query(q) => ExecQuery(f, q, r)
      case CallDataLoad => ExecEnv(f, instr, r)
      case BlockHash => ExecEnv(f, instr, r)
      case BlobHash => ExecEnv(f, instr, r)
      case Pop => ExecControl(f, instr, r)
      case Jump => ExecControl(f, instr, r)
      case JumpI => ExecControl(f, instr, r)
      case JumpDest => ExecControl(f, instr, r)
      case PushN(n) => ExecPush(f.code, n, r)
      case DupN(n) => ExecDup(n, r)
      case SwapN(n) => ExecSwap(n, r)
  }

  function ExecArith(op: ArithOp, r: Regs): Step
  {
    var len := |r.stack|;
    if r.gas < ArithGas(op) then Abort(OUT_OF_GAS)
    else if len < Arity(op) then Abort(STACK_UNDERFLOW)
    else
      var args := TopFirst(r.stack)[..Arity(op)];
      Next(Regs(r.pc + 1, r.gas - ArithGas(op), r.stack[..len - Arity(op)] + [Apply(op, args)]))
  }

  /** EXP: 10 gas, then 50 more for each significant byte of the exponent. */
  function ExecExp(r: Regs): Step
  {
    var len := |r.stack|;
    if r.gas < 10 then Abort(OUT_OF_GAS)
    else if len < 2 then Abort(STACK_UNDERFLOW)
    else
      var base, exponent := r.stack[len - 1], r.stack[len - 2];
      var dynGas := 50 * SignificantBytes(exponent);
      if r.gas - 10 < dynGas then Abort(OUT_OF_GAS)
      else Next(Regs(r.pc + 1, r.gas - 10 - dynGas, r.stack[..len - 2] + [U256.Exp(base, exponent)]))
  }

  function ExecQuery(f: Frame, q: Query, r: Regs): Step
  {
    if r.gas < QueryGas(q) then Abort(OUT_OF_GAS)
    else if |r.stack| + 1 > STACK_LIMIT then Abort(STACK_OVERFLOW)
    else
      var v := QueryValue(f, r.pc, r.gas - QueryGas(q), q);
      if v.None? then Panic else Next(Regs(r.pc + 1, r.gas - QueryGas(q), r.stack + [v.value]))
  }

  /** What CALLDATALOAD, BLOCKHASH and BLOBHASH look up for the popped word, or
      None where the source unwraps an absent call input and panics. */
  function EnvValue(f: Frame, instr: Instr, top: Word): Option<Word>
  {
    if instr.CallDataLoad? then
      if f.host.input.None? then None else Some(CallDataWord(f.host.input.value, top))
    else if instr.BlockHash? then Some(BlockHashValue(f.host, top))
    else if top < |f.host.blobHashes| then Some(f.host.blobHashes[top])
    else Some(0)
  }

  /** CALLDATALOAD, BLOCKHASH and BLOBHASH: replace the top word by what it looks up. */
  function ExecEnv(f: Frame, instr: Instr, r: Regs): Step
    requires instr.CallDataLoad? || instr.BlockHash? || instr.BlobHash?
  {
    var len := |r.stack|;
    var cost := if instr.BlockHash? then 20 else 3;
    if r.gas < cost then Abort(OUT_OF_GAS)
    else if len < 1 then Abort(STACK_UNDERFLOW)
    else
      var v := EnvValue(f, instr, r.stack[len - 1]);
      if v.None? then Panic else Next(Regs(r.pc + 1, r.gas - cost, r.stack[..len - 1] + [v.value]))
  }

  /** POP, JUMP, JUMPI and JUMPDEST. */
  function ExecControl(f: Frame, instr: Instr, r: Regs): Step
    requires instr.Pop? || instr.Jump? || instr.JumpI? || instr.JumpDest?
  {
    var len := |r.stack|;
    match instr
    case Pop =>
      if r.gas < 2 then Abort(OUT_OF_GAS)
      else if len < 1 then Abort(STACK_UNDERFLOW)
      else Next(Regs(r.pc + 1, r.gas - 2, r.stack[..len - 1]))
    case Jump =>
      if r.gas < 8 then Abort(OUT_OF_GAS)
      else if len < 1 then Abort(STACK_UNDERFLOW)
      else if !ValidJump(f.jumpDests, r.stack[len - 1]) then Abort(BAD_JUMP_DESTINATION)
      else Next(Regs(r.stack[len - 1], r.gas - 8, r.stack[..len - 1]))
    case JumpI =>
      if r.gas < 10 then Abort(OUT_OF_GAS)
      else if len < 2 then Abort(STACK_UNDERFLOW)
      else if r.stack[len - 2] == 0 then Next(Regs(r.pc + 1, r.gas - 10, r.stack[..len - 2]))
      else if !ValidJump(f.jumpDests, r.stack[len - 1]) then Abort(BAD_JUMP_DESTINATION)
      else Next(Regs(r.stack[len - 1], r.gas - 10, r.stack[..len - 2]))
    case JumpDest =>
      if r.gas < 1 then Abort(OUT_OF_GAS)
      else Next(Regs(r.pc + 1, r.gas - 1, r.stack))
  }

  /** PUSHn: the `n` code bytes after the opcode, read as a big-endian word. */
  function ExecPush(code: seq<Byte>, n: PushWidth, r: Regs): Step
  {
    if r.gas < 3 then Abort(OUT_OF_GAS)
    else if |r.stack| + 1 > STACK_LIMIT then Abort(STACK_OVERFLOW)
    else if |code| < r.pc + 1 + n then Abort(INTERNAL_ERROR)
    else Next(Regs(r.pc + 1 + n, r.gas - 3, r.stack + [WordOf(code[r.pc + 1..r.pc + 1 + n])]))
  }

  function ExecDup(n: StackDepth, r: Regs): Step
  {
    var len := |r.stack|;
    if r.gas < 3 then Abort(OUT_OF_GAS)
    else if len + 1 > STACK_LIMIT then Abort(STACK_OVERFLOW)
    else if len < n then Abort(STACK_UNDERFLOW)
    else Next(Regs(r.pc + 1, r.gas - 3, r.stack + [r.stack[len - n]]))
  }

  function ExecSwap(n: StackDepth, r: Regs): Step
  {
    var len := |r.stack|;
    if r.gas < 3 then Abort(OUT_OF_GAS)
    else if len < n + 1 then Abort(STACK_UNDERFLOW)
    else
      var top, other := r.stack[len - 1], r.stack[len - 1 - n];
      Next(Regs(r.pc + 1, r.gas - 3, r.stack[len - 1 := other][len - 1 - n := top]))
  }

  /** How the instruction loop ends: its budget used up, a `break`, an `Err`, a panic. */
  datatype LoopEnd =
    | Exhausted(regs: Regs)
    | Broke(regs: Regs, stepStatus: StepStatusCode, status: StatusCode)
    | Faulted(fault: Fault)
    | Crashed

  /** At most `n` turns of `run`'s loop, each fetching the opcode at `pc`. */
  function Loop(f: Frame, n: nat, r: Regs): LoopEnd
    decreases n
  {
    if n == 0 then Exhausted(r)
    else if r.pc >= |f.code| then Faulted(Fault(StepFailed, Failure))
    else match Exec(f, Decode(f.code[r.pc]), r)
      case Next(next) => Loop(f, n - 1, next)
      case Halt(stepStatus, status) => Broke(r, stepStatus, status)
      case Abort(fault) => Faulted(fault)
      case Panic => Crashed
  }

  /** The number of turns of `for _ in 0..steps.unwrap_or(i32::MAX)`. */
  function Budget(steps: Option<I32>): nat
  {
    match steps
    case None => I32_MAX
    case Some(k) => if k < 0 then 0 else k
  }

  datatype StepResult = StepResult(
    stepStatusCode: StepStatusCode, statusCode: StatusCode, revision: Revision, pc: U64,
    gasLeft: I64, gasRefund: I64, output: Option<seq<Byte>>, stack: seq<Word>,
    memory: seq<Byte>, lastCallReturnData: Option<seq<Byte>>)

  datatype RunResult = RunOk(result: StepResult) | RunErr(fault: Fault) | RunPanic

  /** The result `run` builds on a normal exit: the stack handed back top first. */
  function Report(f: Frame, stepStatus: StepStatusCode, status: StatusCode, r: Regs,
                  gasRefund: I64, lastCallReturnData: Option<seq<Byte>>): StepResult
  {
    StepResult(stepStatus, status, f.revision, Wrap64(r.pc), r.gas, gasRefund, None,
               TopFirst(r.stack), f.memory, lastCallReturnData)
  }

  /** The reference outcome of `run`. */
  function RunSpec(f: Frame, stepStatus: StepStatusCode, pc: nat, gasRefund: I64, stack: seq<Word>,
                   lastCallReturnData: Option<seq<Byte>>, steps: Option<I32>): RunResult
  {
    match Loop(f, Budget(steps), Regs(pc, f.host.gas, stack))
    case Exhausted(r) => RunOk(Report(f, stepStatus, Success, r, gasRefund, lastCallReturnData))
    case Broke(r, sc, st) => RunOk(Report(f, sc, st, r, gasRefund, lastCallReturnData))
    case Faulted(fault) => RunErr(fault)
    case Crashed => RunPanic
  }

  // ---------------------------------------------------------------------------
  // The helpers of `run`

  /** consume_gas and consume_dyn_gas: charge `cost` or fail, leaving gas untouched. */
  method ConsumeGas(gasLeft: I64, cost: nat) returns (r: Result<I64>)
    requires cost < TWO_63
    ensures r.Err? <==> gasLeft < cost
    ensures r.Err? ==> r.fault == OUT_OF_GAS
    ensures r.Ok? ==> r.value == gasLeft - cost && 0 <= r.value <= gasLeft
  {
    if gasLeft < cost {
      return Err(OUT_OF_GAS);
    }
    r := Ok(gasLeft - cost);
  }

  function CheckMinRevision(minRevision: Revision, revision: Revision): (r: Option<Fault>)
    ensures r.Some? <==> Ordinal(revision) < Ordinal(minRevision)
    ensures r.Some? ==> r.value == INTERNAL_ERROR
  {
    if Ordinal(revision) < Ordinal(minRevision) then Some(INTERNAL_ERROR) else None
  }

  /** check_stack_overflow::<N>: room for `n` more words within the 1024 limit. */
  function CheckStackOverflow(stack: seq<Word>, n: nat): (r: Option<Fault>)
    ensures r.None? <==> |stack| + n <= STACK_LIMIT
    ensures r.Some? ==> r.value == STACK_OVERFLOW
  {
    if |stack| + n > STACK_LIMIT then Some(STACK_OVERFLOW) else None
  }

  /** pop_from_stack::<N>: the top `n` words, top first, and the stack below them. */
  method PopFromStack(stack: seq<Word>, n: nat) returns (r: Result<(seq<Word>, seq<Word>)>)
    ensures r.Err? <==> |stack| < n
    ensures r.Err? ==> r.fault == STACK_UNDERFLOW
    ensures r.Ok? ==> n <= |stack| && r.value.0 == TopFirst(stack)[..n] && r.value.1 == stack[..|stack| - n]
    ensures r.Ok? ==> |r.value.0| == n && r.value.1 + TopFirst(r.value.0) == stack
  {
    if |stack| < n {
      return Err(STACK_UNDERFLOW);
    }
    var popped := new Word[n](_ => 0);
    var rest := stack;
    for k := 0 to n
      invariant rest == stack[..|stack| - k]
      invariant forall j :: 0 <= j < k ==> popped[j] == stack[|stack| - 1 - j]
    {
      popped[k] := rest[|rest| - 1];
      rest := rest[..|rest| - 1];
    }
    var top := popped[..];
    assert top == TopFirst(stack)[..n] by {
      forall j | 0 <= j < n
        ensures top[j] == TopFirst(stack)[j]
      {
      }
    }
    assert rest + TopFirst(top) == stack by {
      forall i | 0 <= i < |stack|
        ensures (rest + TopFirst(top))[i] == stack[i]
      {
        if i >= |rest| {
          assert (rest + TopFirst(top))[i] == top[|stack| - 1 - i];
        }
      }
    }
    r := Ok((top, rest));
  }

  /** nth_ref_from_stack::<N>: the `n`-th word from the top. */
  function NthFromStack(stack: seq<Word>, n: StackDepth): (r: Result<Word>)
    ensures r.Ok? <==> n <= |stack|
    ensures r.Ok? ==> r.value == TopFirst(stack)[n - 1]
    ensures r.Err? ==> r.fault == STACK_UNDERFLOW
  {
    if |stack| < n then Err(STACK_UNDERFLOW) else Ok(stack[|stack| - n])
  }

  /** push::<N> with its guard widened to cover the slice it protects (see PushAsWritten). */
  method Push(code: seq<Byte>, n: PushWidth, r: Regs) returns (s: Result<Regs>)
    ensures s.Err? <==> r.gas < 3 || |r.stack| + 1 > STACK_LIMIT || |code| < r.pc + 1 + n
    ensures s.Err? ==> s.fault == (if r.gas < 3 then OUT_OF_GAS
                                   else if |r.stack| + 1 > STACK_LIMIT then STACK_OVERFLOW
                                   else INTERNAL_ERROR)
    ensures s.Ok? ==> s.value.pc == r.pc + n + 1 && s.value.gas == r.gas - 3 &&
                      s.value.stack == r.stack + [WordOf(code[r.pc + 1..r.pc + 1 + n])]
  {
    var g := ConsumeGas(r.gas, 3);
    if g.Err? {
      return Err(g.fault);
    }
    var overflow := CheckStackOverflow(r.stack, 1);
    if overflow.Some? {
      return Err(overflow.value);
    }
    if |code| < r.pc + 1 + n {
      return Err(INTERNAL_ERROR);
    }
    var pc := r.pc + 1;
    var value := WordOf(code[pc..pc + n]);
    pc := pc + n;
    s := Ok(Regs(pc, g.value, r.stack + [value]));
  }

  /** push::<N> as written: the guard `code.len() < pc + N` lets `code.len() == pc + N`
      through, and the slice `code[pc + 1..pc + 1 + N]` then runs past the code. */
  function PushAsWritten(code: seq<Byte>, n: PushWidth, r: Regs): (s: Step)
    ensures |code| == r.pc + n && r.gas >= 3 && |r.stack| < STACK_LIMIT ==> s == Panic
  {
    if r.gas < 3 then Abort(OUT_OF_GAS)
    else if |r.stack| + 1 > STACK_LIMIT then Abort(STACK_OVERFLOW)
    else if |code| < r.pc + n then Abort(INTERNAL_ERROR)
    else if |code| < r.pc + 1 + n then Panic
    else Next(Regs(r.pc + 1 + n, r.gas - 3, r.stack + [WordOf(code[r.pc + 1..r.pc + 1 + n])]))
  }

  /** dup::<N>: push a copy of the `n`-th word from the top. */
  method Dup(n: StackDepth, r: Regs) returns (s: Result<Regs>)
    ensures s.Err? <==> r.gas < 3 || |r.stack| + 1 > STACK_LIMIT || |r.stack| < n
    ensures s.Err? ==> s.fault == (if r.gas < 3 then OUT_OF_GAS
                                   else if |r.stack| + 1 > STACK_LIMIT then STACK_OVERFLOW
                                   else STACK_UNDERFLOW)
    ensures s.Ok? ==> s.value == Regs(r.pc + 1, r.gas - 3, r.stack + [TopFirst(r.stack)[n - 1]])
  {
    var g := ConsumeGas(r.gas, 3);
    if g.Err? {
      return Err(g.fault);
    }
    var overflow := CheckStackOverflow(r.stack, 1);
    if overflow.Some? {
      return Err(overflow.value);
    }
    var nth := NthFromStack(r.stack, n);
    if nth.Err? {
      return Err(nth.fault);
    }
    s := Ok(Regs(r.pc + 1, g.value, r.stack + [nth.value]));
  }

  /** swap::<N>: exchange the top word with the one `n` below it. */
  method Swap(n: StackDepth, r: Regs) returns (s: Result<Regs>)
    ensures s.Err? <==> r.gas < 3 || |r.stack| < n + 1
    ensures s.Err? ==> s.fault == if r.gas < 3 then OUT_OF_GAS else STACK_UNDERFLOW
    ensures s.Ok? ==>
      var len := |r.stack|;
      s.value.pc == r.pc + 1 && s.value.gas == r.gas - 3 && |s.value.stack| == len &&
      s.value.stack[len - 1] == r.stack[len - 1 - n] &&
      s.value.stack[len - 1 - n] == r.stack[len - 1] &&
      forall i :: 0 <= i < len && i != len - 1 && i != len - 1 - n ==> s.value.stack[i] == r.stack[i]
  {
    var g := ConsumeGas(r.gas, 3);
    if g.Err? {
      return Err(g.fault);
    }
    var len := |r.stack|;
    if len < n + 1 {
      return Err(STACK_UNDERFLOW);
    }
    var stack := r.stack[len - 1 := r.stack[len - 1 - n]][len - 1 - n := r.stack[len - 1]];
    s := Ok(Regs(r.pc + 1, g.value, stack));
  }

  /** jump: the new program counter, if `dest` is a valid jump destination
      (section 9.4.3 of the Ethereum Yellow Paper). */
  method JumpTo(dest: Word, jumpDests: seq<nat>) returns (r: Result<nat>)
    ensures r.Ok? <==> dest <= MAX_U64 && dest in jumpDests
    ensures r.Ok? ==> r.value == dest
    ensures r.Err? ==> r.fault == BAD_JUMP_DESTINATION
  {
    var low := dest % TWO_64;
    if dest > MAX_U64 || low !in jumpDests {
      return Err(BAD_JUMP_DESTINATION);
    }
    r := Ok(low);
  }

  /** EXP's dynamic-gas multiplier: 32 less the leading zero bytes of the exponent,
      that is, the number of bytes the exponent needs. */
  method ExpCostMultiplier(exponent: Word) returns (m: nat)
    ensures m <= 32
    ensures exponent < Pow256(m)
    ensures m > 0 ==> Pow256(m - 1) <= exponent
  {
    var bytes := BytesOf(exponent);
    m := 32;
    var i := 0;
    while i < 32
      invariant 0 <= i <= 32 && m == 32 - i
      invariant forall j :: 0 <= j < i ==> bytes[j] == 0
    {
      if bytes[i] == 0 {
        m := m - 1;
      } else {
        break;
      }
      i := i + 1;
    }
    FromBytesDropZeros(bytes, i);
    FromBytesBound(bytes[i..]);
    if i < 32 {
      FromBytesLeadingNonZero(bytes[i..]);
    }
  }

  /** The number of bytes a value needs is unique. */
  lemma {:induction false} SignificantBytesUnique(e: nat, m: nat)
    requires e < Pow256(m)
    requires m > 0 ==> Pow256(m - 1) <= e
    ensures SignificantBytes(e) == m
  {
    if m > 0 {
      if m > 1 {
        assert Pow256(m - 1) == 256 * Pow256(m - 2);
      }
      SignificantBytesUnique(e / 256, m - 1);
    }
  }

  function Lift(r: Result<Regs>): Step
  {
    match r
    case Ok(next) => Next(next)
    case Err(fault) => Abort(fault)
  }

  /** One arm of `run`'s match, built from the helpers. */
  method Execute(f: Frame, instr: Instr, r: Regs) returns (s: Step)
    ensures s == Exec(f, instr, r)
  {
    var minRevision := MinRevision(instr);
    if minRevision.Some? {
      var tooEarly := CheckMinRevision(minRevision.value, f.revision);
      if tooEarly.Some? {
        return Abort(tooEarly.value);
      }
    }
    match instr {
      case Stop =>
        s := Halt(StepStopped, Success);
      case Undefined =>
        s := Halt(StepFailed, BadJumpDestination);
      case Unimplemented(_) =>
        s := Panic;
      case Arith(op) =>
        s := ExecuteArith(op, r);
      case Exp =>
        s := ExecuteExp(r);
      case Query(q) =>
        s := ExecuteQuery(f, q, r);
      case CallDataLoad =>
        s := ExecuteEnv(f, instr, r);
      case BlockHash =>
        s := ExecuteEnv(f, instr, r);
      case BlobHash =>
        s := ExecuteEnv(f, instr, r);
      case Pop =>
        s := ExecuteControl(f, instr, r);
      case Jump =>
        s := ExecuteControl(f, instr, r);
      case JumpI =>
        s := ExecuteControl(f, instr, r);
      case JumpDest =>
        s := ExecuteControl(f, instr, r);
      case PushN(n) =>
        var next := Push(f.code, n, r);
        s := Lift(next);
      case DupN(n) =>
        var next := Dup(n, r);
        s := Lift(next);
      case SwapN(n) =>
        var next := Swap(n, r);
        if next.Ok? {
          var len := |r.stack|;
          var top, other := r.stack[len - 1], r.stack[len - 1 - n];
          assert next.value.stack == r.stack[len - 1 := other][len - 1 - n := top];
        }
        s := Lift(next);
    }
  }

  /** The success case of ExecArith, for the popped operands and the words below them. */
  lemma ArithNext(op: ArithOp, r: Regs, gas: I64, args: seq<Word>, rest: seq<Word>)
    requires r.gas >= ArithGas(op) && gas == r.gas - ArithGas(op)
    requires |r.stack| >= Arity(op)
    requires args == TopFirst(r.stack)[..Arity(op)] && rest == r.stack[..|r.stack| - Arity(op)]
    ensures ExecArith(op, r) == Next(Regs(r.pc + 1, gas, rest + [Apply(op, args)]))
  {
  }

  method ExecuteArith(op: ArithOp, r: Regs) returns (s: Step)
    ensures s == ExecArith(op, r)
  {
    var g := ConsumeGas(r.gas, ArithGas(op));
    if g.Err? {
      return Abort(g.fault);
    }
    var p := PopFromStack(r.stack, Arity(op));
    if p.Err? {
      return Abort(p.fault);
    }
    var (args, rest) := p.value;
    ArithNext(op, r, g.value, args, rest);
    s := Next(Regs(r.pc + 1, g.value, rest + [Apply(op, args)]));
  }

  method ExecuteExp(r: Regs) returns (s: Step)
    ensures s == ExecExp(r)
  {
    var g := ConsumeGas(r.gas, 10);
    if g.Err? {
      return Abort(g.fault);
    }
    var p := PopFromStack(r.stack, 2);
    if p.Err? {
      return Abort(p.fault);
    }
    var (args, rest) := p.value;
    var m := ExpCostMultiplier(args[1]);
    SignificantBytesUnique(args[1], m);
    var g2 := ConsumeGas(g.value, 50 * m);
    if g2.Err? {
      return Abort(g2.fault);
    }
    s := Next(Regs(r.pc + 1, g2.value, rest + [U256.Exp(args[0], args[1])]));
  }

  method ExecuteQuery(f: Frame, q: Query, r: Regs) returns (s: Step)
    ensures s == ExecQuery(f, q, r)
  {
    var g := ConsumeGas(r.gas, QueryGas(q));
    if g.Err? {
      return Abort(g.fault);
    }
    var overflow := CheckStackOverflow(r.stack, 1);
    if overflow.Some? {
      return Abort(overflow.value);
    }
    var v := QueryValue(f, r.pc, g.value, q);
    if v.None? {
      return Panic;
    }
    s := Next(Regs(r.pc + 1, g.value, r.stack + [v.value]));
  }

  method ExecuteEnv(f: Frame, instr: Instr, r: Regs) returns (s: Step)
    requires instr.CallDataLoad? || instr.BlockHash? || instr.BlobHash?
    ensures s == ExecEnv(f, instr, r)
  {
    var g := ConsumeGas(r.gas, if instr.BlockHash? then 20 else 3);
    if g.Err? {
      return Abort(g.fault);
    }
    var p := PopFromStack(r.stack, 1);
    if p.Err? {
      return Abort(p.fault);
    }
    var (args, rest) := p.value;
    assert args[0] == r.stack[|r.stack| - 1] && rest == r.stack[..|r.stack| - 1];
    var v := EnvValue(f, instr, args[0]);
    if v.None? {
      return Panic;
    }
    s := Next(Regs(r.pc + 1, g.value, rest + [v.value]));
  }

  method ExecuteControl(f: Frame, instr: Instr, r: Regs) returns (s: Step)
    requires instr.Pop? || instr.Jump? || instr.JumpI? || instr.JumpDest?
    ensures s == ExecControl(f, instr, r)
  {
    match instr {
      case Pop =>
        var g := ConsumeGas(r.gas, 2);
        if g.Err? {
          return Abort(g.fault);
        }
        var p := PopFromStack(r.stack, 1);
        if p.Err? {
          return Abort(p.fault);
        }
        s := Next(Regs(r.pc + 1, g.value, p.value.1));
      case Jump =>
        var g := ConsumeGas(r.gas, 8);
        if g.Err? {
          return Abort(g.fault);
        }
        var p := PopFromStack(r.stack, 1);
        if p.Err? {
          return Abort(p.fault);
        }
        var (args, rest) := p.value;
        var j := JumpTo(args[0], f.jumpDests);
        if j.Err? {
          return Abort(j.fault);
        }
        s := Next(Regs(j.value, g.value, rest));
      case JumpI =>
        var g := ConsumeGas(r.gas, 10);
        if g.Err? {
          return Abort(g.fault);
        }
        var p := PopFromStack(r.stack, 2);
        if p.Err? {
          return Abort(p.fault);
        }
        var (args, rest) := p.value;
        if args[1] == 0 {
          s := Next(Regs(r.pc + 1, g.value, rest));
        } else {
          var j := JumpTo(args[0], f.jumpDests);
          if j.Err? {
            return Abort(j.fault);
          }
          s := Next(Regs(j.value, g.value, rest));
        }
      case JumpDest =>
        var g := ConsumeGas(r.gas, 1);
        if g.Err? {
          return Abort(g.fault);
        }
        s := Next(Regs(r.pc + 1, g.value, r.stack));
    }
  }

  /** `run`: up to `steps` instructions (i32::MAX when absent) from `pc`, with the
      gas the message carries. */
  method Run(f: Frame, stepStatus: StepStatusCode, pc: nat, gasRefund: I64, stack: seq<Word>,
             lastCallReturnData: Option<seq<Byte>>, steps: Option<I32>)
    returns (res: RunResult)
    ensures res == RunSpec(f, stepStatus, pc, gasRefund, stack, lastCallReturnData, steps)
  {
    var regs := Regs(pc, f.host.gas, stack);
    var stepStatusCode, statusCode := stepStatus, Success;
    var n := match steps case None => I32_MAX case Some(k) => k;
    ghost var total := Budget(steps);
    ghost var start := regs;
    var i := 0;
    while i < n
      invariant 0 <= i <= total
      invariant i < n <==> i < total
      invariant Loop(f, total, start) == Loop(f, total - i, regs)
    {
      if regs.pc >= |f.code| {
        return RunErr(Fault(StepFailed, Failure));
      }
      var s := Execute(f, Decode(f.code[regs.pc]), regs);
      match s {
        case Next(next) =>
          regs := next;
        case Halt(sc, st) =>
          stepStatusCode, statusCode := sc, st;
          break;
        case Abort(fault) =>
          return RunErr(fault);
        case Panic =>
          return RunPanic;
      }
      i := i + 1;
    }
    res := RunOk(Report(f, stepStatusCode, statusCode, regs, gasRefund, lastCallReturnData));
  }

  // ---------------------------------------------------------------------------
  // Properties of one instruction

  /** The size of an instruction in the code: PUSHn carries `n` immediate bytes. */
  function Length(instr: Instr): nat
  {
    if instr.PushN? then 1 + instr.width else 1
  }

  /** An instruction after which the loop goes on charges at least one unit of gas
      and never drives gas below zero, keeps the stack within its limit, and moves
      the program counter just past itself or to a valid jump destination. */
  lemma {:induction false} ExecStep(f: Frame, instr: Instr, r: Regs)
    requires |r.stack| <= STACK_LIMIT
    requires Exec(f, instr, r).Next?
    ensures 0 <= Exec(f, instr, r).regs.gas < r.gas
    ensures |Exec(f, instr, r).regs.stack| <= STACK_LIMIT
    ensures Exec(f, instr, r).regs.pc == r.pc + Length(instr) ||
            ((instr.Jump? || instr.JumpI?) && Exec(f, instr, r).regs.pc in f.jumpDests)
  {
  }

  /** An instruction newer than the revision fails with INTERNAL_ERROR whatever the
      gas and the stack, and this is the only way it fails with that status. */
  lemma {:induction false} RevisionGate(f: Frame, instr: Instr, r: Regs)
    requires MinRevision(instr).Some?
    ensures Exec(f, instr, r) == Abort(INTERNAL_ERROR) <==>
            Ordinal(f.revision) < Ordinal(MinRevision(instr).value)
  {
  }

  /** JUMP lands exactly on the popped destination, and only when it is valid. */
  lemma JumpTargets(f: Frame, r: Regs)
    requires |r.stack| >= 1 && r.gas >= 8
    ensures ExecControl(f, Jump, r).Next? <==> ValidJump(f.jumpDests, r.stack[|r.stack| - 1])
    ensures ExecControl(f, Jump, r).Next? ==> ExecControl(f, Jump, r).regs.pc == r.stack[|r.stack| - 1]
    ensures !ExecControl(f, Jump, r).Next? ==> ExecControl(f, Jump, r) == Abort(BAD_JUMP_DESTINATION)
  {
  }

  /** JUMPI pops the destination and then the condition: a zero condition only steps
      past the JUMPI, a non-zero one jumps under JUMP's rule. Both words leave the stack. */
  lemma JumpITargets(f: Frame, r: Regs)
    requires |r.stack| >= 2 && r.gas >= 10
    ensures r.stack[|r.stack| - 2] == 0 ==>
      ExecControl(f, JumpI, r) == Next(Regs(r.pc + 1, r.gas - 10, r.stack[..|r.stack| - 2]))
    ensures r.stack[|r.stack| - 2] != 0 ==>
      (ExecControl(f, JumpI, r).Next? <==> ValidJump(f.jumpDests, r.stack[|r.stack| - 1]))
    ensures r.stack[|r.stack| - 2] != 0 && ExecControl(f, JumpI, r).Next? ==>
      ExecControl(f, JumpI, r).regs == Regs(r.stack[|r.stack| - 1], r.gas - 10, r.stack[..|r.stack| - 2])
    ensures !ExecControl(f, JumpI, r).Next? ==> ExecControl(f, JumpI, r) == Abort(BAD_JUMP_DESTINATION)
  {
  }

  /** PUSHn pushes the word whose `n` low-order big-endian bytes are the immediate
      bytes, and skips them. */
  lemma {:induction false} PushImmediate(code: seq<Byte>, n: PushWidth, r: Regs, next: Regs)
    requires ExecPush(code, n, r) == Next(next)
    ensures next.pc == r.pc + 1 + n
    ensures |next.stack| == |r.stack| + 1 && next.stack[..|r.stack|] == r.stack
    ensures next.stack[|r.stack|] < Pow256(n)
    ensures ToBytes(next.stack[|r.stack|], n) == code[r.pc + 1..r.pc + 1 + n]
  {
    var imm := code[r.pc + 1..r.pc + 1 + n];
    var w := WordOf(imm);
    assert next.stack == r.stack + [w];
    assert next.stack[..|r.stack|] == r.stack;
    assert next.stack[|r.stack|] == w;
    WordOfBytes(imm);
  }

  /** Exchanging two entries of a sequence keeps its elements. */
  lemma ExchangeKeepsElements(s: seq<Word>, j: nat, i: nat)
    requires j < i < |s|
    ensures multiset(s[i := s[j]][j := s[i]]) == multiset(s)
  {
    var a, b := s[i], s[j];
    var t := s[i := b];
    assert multiset(t) == multiset(s) - multiset{a} + multiset{b};
    assert multiset(t[j := a]) == multiset(t) - multiset{b} + multiset{a};
  }

  /** SWAPn permutes the stack, and a second SWAPn restores it. */
  lemma SwapTwice(n: StackDepth, r: Regs, once: Regs)
    requires ExecSwap(n, r) == Next(once)
    ensures multiset(once.stack) == multiset(r.stack)
    ensures once.gas >= 3 ==> ExecSwap(n, once) == Next(Regs(r.pc + 2, r.gas - 6, r.stack))
  {
    var top, other := |r.stack| - 1, |r.stack| - 1 - n;
    assert once.stack == r.stack[top := r.stack[other]][other := r.stack[top]];
    ExchangeKeepsElements(r.stack, other, top);
    assert once.stack[top := once.stack[other]][other := once.stack[top]] == r.stack;
  }

  /** The 32 bytes CALLDATALOAD reads at `offset`: the input, then zeros. */
  function Window(data: seq<Byte>, offset: nat): (w: seq<Byte>)
    ensures |w| == 32
  {
    seq(32, i requires 0 <= i < 32 => if offset + i < |data| then data[offset + i] else 0)
  }

  /** CALLDATALOAD pushes the word whose big-endian bytes are the 32-byte window at
      `offset`, zero past the end of the input. */
  lemma {:induction false} CallDataWindow(data: seq<Byte>, offset: Word)
    ensures BytesOf(CallDataWord(data, offset)) == Window(data, offset)
  {
    var window := Window(data, offset);
    if offset >= |data| {
      assert forall i | 0 <= i < 32 :: window[i] == 0;
      FromBytesDropZeros(window, 32);
      assert FromBytes(window[32..]) == 0;
      ToFromBytes(window);
    } else {
      var end := if |data| < offset + 32 then |data| else offset + 32;
      var bs := data[offset..end] + seq(32 - (end - offset), _ => 0);
      assert forall i | 0 <= i < 32 :: bs[i] == window[i];
      assert bs == window;
      ToFromBytes(bs);
    }
  }

  /** While `block_number + 255` neither overflows nor goes negative, BLOCKHASH yields
      zero for a number above it, and otherwise the host's hash of that very block. */
  lemma BlockHashLookup(h: Host, number: Word)
    requires 0 <= h.blockNumber + 255 < TWO_63
    ensures number > h.blockNumber + 255 ==> BlockHashValue(h, number) == 0
    ensures number <= h.blockNumber + 255 ==> BlockHashValue(h, number) == h.blockHash(number)
  {
  }

  /** SignificantBytes(e) is the number of bytes `e` needs. */
  lemma {:induction false} SignificantBytesSpan(e: nat)
    ensures e < Pow256(SignificantBytes(e))
    ensures SignificantBytes(e) > 0 ==> Pow256(SignificantBytes(e) - 1) <= e
  {
    if e > 0 {
      SignificantBytesSpan(e / 256);
    }
  }

  /** EXP's dynamic gas is 50 for each of the at most 32 significant bytes of the exponent. */
  lemma {:induction false} ExpGas(r: Regs, next: Regs)
    requires ExecExp(r) == Next(next)
    ensures SignificantBytes(r.stack[|r.stack| - 2]) <= 32
    ensures r.gas - next.gas == 10 + 50 * SignificantBytes(r.stack[|r.stack| - 2])
  {
    var e := r.stack[|r.stack| - 2];
    SignificantBytesSpan(e);
    if SignificantBytes(e) > 32 {
      Pow256Monotone(32, SignificantBytes(e) - 1);
      Pow256Is2To256();
    }
  }

  // ---------------------------------------------------------------------------
  // The PUSH guard

  /** The smallest input that shows the gap: PUSH1 as the last byte of the code. */
  lemma PushGuardGap()
    ensures PushAsWritten([0x60], 1, Regs(0, 3, [])) == Panic
    ensures ExecPush([0x60], 1, Regs(0, 3, [])) == Abort(INTERNAL_ERROR)
  {
  }

  /** Off the gap, the guard as written and the widened guard agree. */
  lemma {:induction false} PushAsWrittenAgrees(code: seq<Byte>, n: PushWidth, r: Regs)
    requires |code| != r.pc + n
    ensures PushAsWritten(code, n, r) == ExecPush(code, n, r)
  {
  }

  /** With the widened guard PUSH never panics: it either reads its immediates or
      fails with a status. */
  lemma {:induction false} PushNeverPanics(code: seq<Byte>, n: PushWidth, r: Regs)
    ensures ExecPush(code, n, r) != Panic
    ensures ExecPush(code, n, r).Next? <==> r.gas >= 3 && |r.stack| < STACK_LIMIT && r.pc + 1 + n <= |code|
  {
  }

  /** The loop runs PUSH with the widened guard: where the immediates of a PUSHn
      end one byte past the code, the run fails with INTERNAL_ERROR, while the
      guard as written would panic at that same instruction. */
  lemma {:induction false} RunPushAtCodeEnd(f: Frame, stepStatus: StepStatusCode, pc: nat, gasRefund: I64,
                         stack: seq<Word>, lastCallReturnData: Option<seq<Byte>>, steps: Option<I32>,
                         n: PushWidth)
    requires pc < |f.code| && Decode(f.code[pc]) == PushN(n) && |f.code| == pc + n
    requires f.host.gas >= 3 && |stack| < STACK_LIMIT && Budget(steps) > 0
    ensures RunSpec(f, stepStatus, pc, gasRefund, stack, lastCallReturnData, steps) == RunErr(INTERNAL_ERROR)
    ensures PushAsWritten(f.code, n, Regs(pc, f.host.gas, stack)) == Panic
  {
  }

  // ---------------------------------------------------------------------------
  // Properties of the loop

  /** The rest of a run after its first turns: more turns if the budget ran out. */
  function Then(e: LoopEnd, f: Frame, m: nat): LoopEnd
  {
    if e.Exhausted? then Loop(f, m, e.regs) else e
  }

  /** `n + m` turns are `n` turns followed, when the loop did not end, by `m` more. */
  lemma {:induction false} LoopCompose(f: Frame, n: nat, m: nat, r: Regs)
    ensures Loop(f, n + m, r) == Then(Loop(f, n, r), f, m)
    decreases n, 1
  {
    if n > 0 && r.pc < |f.code| {
      AfterCompose(f, Exec(f, Decode(f.code[r.pc]), r), n - 1, m, r);
    }
  }

  /** What a turn ending in `s` leads to when `k` turns remain. */
  function After(s: Step, f: Frame, k: nat, r: Regs): LoopEnd
  {
    match s
    case Next(next) => Loop(f, k, next)
    case Halt(stepStatus, status) => Broke(r, stepStatus, status)
    case Abort(fault) => Faulted(fault)
    case Panic => Crashed
  }

  lemma {:induction false} AfterCompose(f: Frame, s: Step, k: nat, m: nat, r: Regs)
    ensures After(s, f, k + m, r) == Then(After(s, f, k, r), f, m)
    decreases k + 1, 0
  {
    if s.Next? {
      LoopCompose(f, k, m, s.regs);
    }
  }

  /** From a stack within its limit and non-negative gas, the loop keeps both so;
      when its budget runs out every turn has cost gas. */
  lemma {:induction false} LoopBounds(f: Frame, n: nat, r: Regs)
    requires |r.stack| <= STACK_LIMIT && r.gas >= 0
    ensures Loop(f, n, r).Exhausted? ==>
      |Loop(f, n, r).regs.stack| <= STACK_LIMIT && 0 <= Loop(f, n, r).regs.gas &&
      Loop(f, n, r).regs.gas + n <= r.gas
    ensures Loop(f, n, r).Broke? ==>
      |Loop(f, n, r).regs.stack| <= STACK_LIMIT && 0 <= Loop(f, n, r).regs.gas <= r.gas
  {
    if n > 0 && r.pc < |f.code| {
      var instr := Decode(f.code[r.pc]);
      if Exec(f, instr, r).Next? {
        ExecStep(f, instr, r);
        LoopBounds(f, n - 1, Exec(f, instr, r).regs);
      }
    }
  }

  /** A run that returns normally hands back a stack within the limit, top first,
      and no more gas than the message carried. */
  lemma {:induction false} RunBounds(f: Frame, stepStatus: StepStatusCode, pc: nat, gasRefund: I64, stack: seq<Word>,
                  lastCallReturnData: Option<seq<Byte>>, steps: Option<I32>)
    requires |stack| <= STACK_LIMIT && f.host.gas >= 0
    requires RunSpec(f, stepStatus, pc, gasRefund, stack, lastCallReturnData, steps).RunOk?
    ensures var res := RunSpec(f, stepStatus, pc, gasRefund, stack, lastCallReturnData, steps).result;
      |res.stack| <= STACK_LIMIT && 0 <= res.gasLeft <= f.host.gas &&
      res.revision == f.revision && res.memory == f.memory && res.output == None
  {
    LoopBounds(f, Budget(steps), Regs(pc, f.host.gas, stack));
  }

  /** A zero or negative step count reports pc and gas as they were and the stack top
      first, as a success. */
  lemma {:induction false} RunNoSteps(f: Frame, stepStatus: StepStatusCode, pc: nat, gasRefund: I64, stack: seq<Word>,
                   lastCallReturnData: Option<seq<Byte>>, k: I32)
    requires k <= 0
    ensures RunSpec(f, stepStatus, pc, gasRefund, stack, lastCallReturnData, Some(k)) ==
            RunOk(StepResult(stepStatus, Success, f.revision, Wrap64(pc), f.host.gas, gasRefund, None,
                             TopFirst(stack), f.memory, lastCallReturnData))
  {
  }

  /** STOP ends the run as stopped, charging nothing: pc and gas as they were, the stack
      reported top first. */
  lemma {:induction false} RunStop(f: Frame, stepStatus: StepStatusCode, pc: nat, gasRefund: I64, stack: seq<Word>,
                lastCallReturnData: Option<seq<Byte>>, steps: Option<I32>)
    requires pc < |f.code| && Decode(f.code[pc]) == Stop && Budget(steps) > 0
    ensures RunSpec(f, stepStatus, pc, gasRefund, stack, lastCallReturnData, steps) ==
            RunOk(StepResult(StepStopped, Success, f.revision, Wrap64(pc), f.host.gas, gasRefund, None,
                             TopFirst(stack), f.memory, lastCallReturnData))
  {
  }

  /** An opcode without an arm ends the run as failed with BAD_JUMP_DESTINATION and no
      error returned, charging nothing: pc and gas as they were, the stack reported top first. */
  lemma {:induction false} RunUndefinedOpcode(f: Frame, stepStatus: StepStatusCode, pc: nat, gasRefund: I64, stack: seq<Word>,
                           lastCallReturnData: Option<seq<Byte>>, steps: Option<I32>)
    requires pc < |f.code| && Decode(f.code[pc]) == Undefined && Budget(steps) > 0
    ensures RunSpec(f, stepStatus, pc, gasRefund, stack, lastCallReturnData, steps) ==
            RunOk(StepResult(StepFailed, BadJumpDestination, f.revision, Wrap64(pc), f.host.gas, gasRefund,
                             None, TopFirst(stack), f.memory, lastCallReturnData))
  {
  }

  /** Fetching past the end of the code, empty code included, is an error, not a STOP. */
  lemma {:induction false} RunPastEnd(f: Frame, stepStatus: StepStatusCode, pc: nat, gasRefund: I64, stack: seq<Word>,
                   lastCallReturnData: Option<seq<Byte>>, steps: Option<I32>)
    requires pc >= |f.code| && Budget(steps) > 0
    ensures RunSpec(f, stepStatus, pc, gasRefund, stack, lastCallReturnData, steps) ==
            RunErr(Fault(StepFailed, Failure))
  {
  }
}
