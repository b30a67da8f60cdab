/**
 * The bus transport adapter of the GrovePi host driver: three helpers that
 * wrap the platform I2C primitives (block write, single-byte read, block
 * read) in the same bounded retry loop.  Each helper tries its primitive at
 * most RETRIES times, returns what the first successful attempt returned,
 * and degrades to the integer -1 when every attempt raised IOError.
 *
 * The platform bus is modelled as a `Bus` object whose primitives answer
 * from scripts of per-attempt outcomes, and which records every attempted
 * primitive call in a trace.
 */
module Transport {

  /** A value the I2C primitives accept or deliver as one byte. */
  type Byte = x: int | 0 <= x < 256

  /** Number of attempts each helper makes before giving up. */
  const RETRIES: nat := 10

  /** Register-offset byte the block primitives are always called with. */
  const REGISTER: Byte := 1

  /** Outcome of one attempt at a bus primitive: it raised IOError, or it returned `value`. */
  datatype Attempt<T> = IOError | Ok(value: T)

  /** What a retry helper returns: the primitive's value, or the sentinel -1. */
  datatype Reply<T> = Returned(value: T) | MinusOne

  /** The reply of a retry loop together with the number of attempts it made. */
  datatype Run<T> = Run(reply: Reply<T>, attempts: nat)

  /** One attempted call of a platform primitive, as recorded in the bus trace. */
  datatype Call =
    | WriteBlockData(address: Byte, register: Byte, block: seq<Byte>)
    | ReadByte(address: Byte)
    | ReadBlockData(address: Byte, register: Byte)

  /** The outcome of attempt `i` (counting from 0) of a script; past its end the device stays silent. */
  function AttemptAt<T>(script: seq<Attempt<T>>, i: nat): Attempt<T>
  {
    if i < |script| then script[i] else IOError
  }

  /** The script left after `n` attempts have consumed its head. */
  function Drop<T>(s: seq<T>, n: nat): seq<T>
  {
    if n <= |s| then s[n..] else []
  }

  /** `n` copies of `x`. */
  function Repeat<T>(x: T, n: nat): (r: seq<T>)
    ensures |r| == n
    ensures forall i :: 0 <= i < n ==> r[i] == x
  {
    if n == 0 then [] else Repeat(x, n - 1) + [x]
  }

  lemma AttemptAtDrop<T>(script: seq<Attempt<T>>, n: nat, i: nat)
    ensures AttemptAt(Drop(script, n), i) == AttemptAt(script, n + i)
  {
  }

  /**
   * The retry discipline: attempt the primitive against `script` at most
   * `budget` times, stopping at the first success.  The contract pins the
   * run down completely: a success is the value of the attempt it stopped
   * at and every earlier attempt failed; the sentinel means every one of
   * the `budget` attempts failed.
   */
  function Retry<T>(script: seq<Attempt<T>>, budget: nat): (run: Run<T>)
    ensures run.attempts <= budget
    ensures budget > 0 ==> run.attempts >= 1
    ensures run.reply.MinusOne? ==> run.attempts == budget
    ensures run.reply.MinusOne? ==> forall i :: 0 <= i < budget ==> AttemptAt(script, i) == IOError
    ensures run.reply.Returned? ==> run.attempts >= 1 && AttemptAt(script, run.attempts - 1) == Ok(run.reply.value)
    ensures run.reply.Returned? ==> forall i :: 0 <= i < run.attempts - 1 ==> AttemptAt(script, i) == IOError
  {
    if budget == 0 then Run(MinusOne, 0)
    else match AttemptAt(script, 0)
      case Ok(v) => Run(Returned(v), 1)
      case IOError =>
        var rest := Retry(Drop(script, 1), budget - 1);
        forall i | 1 <= i < budget
          ensures AttemptAt(script, i) == AttemptAt(Drop(script, 1), i - 1)
        {
          AttemptAtDrop(script, 1, i - 1);
        }
        Run(rest.reply, rest.attempts + 1)
  }

  /** If the primitive fails exactly `n` times and then succeeds within the budget, the loop returns that success after n + 1 attempts. */
  lemma FailThenSucceed<T>(script: seq<Attempt<T>>, budget: nat, n: nat, v: T)
    requires n < budget
    requires forall i :: 0 <= i < n ==> AttemptAt(script, i) == IOError
    requires AttemptAt(script, n) == Ok(v)
    ensures Retry(script, budget) == Run(Returned(v), n + 1)
  {
  }

  /** The loop degrades to the sentinel exactly when every attempt within the budget fails, and then it has used the whole budget. */
  lemma AllFail<T>(script: seq<Attempt<T>>, budget: nat)
    ensures Retry(script, budget).reply == MinusOne
        <==> forall i :: 0 <= i < budget ==> AttemptAt(script, i) == IOError
    ensures Retry(script, budget).reply == MinusOne ==> Retry(script, budget).attempts == budget
  {
  }

  /** The integer a byte-read helper returns: the byte, or -1. */
  function ByteOrMinusOne(reply: Reply<Byte>): (n: int)
    ensures -1 <= n < 256
    ensures n == -1 <==> reply.MinusOne?
    ensures reply.Returned? ==> n == reply.value
  {
    match reply
    case Returned(b) => b
    case MinusOne => -1
  }

  /** The primitive calls a helper attempts: one per attempt, all identical. */
  function WriteTrace(address: Byte, block: seq<Byte>, script: seq<Attempt<()>>): seq<Call>
  {
    Repeat(WriteBlockData(address, REGISTER, block), Retry(script, RETRIES).attempts)
  }

  /** What is left of a primitive's script once a helper has finished with it. */
  function Remaining<T>(script: seq<Attempt<T>>): seq<Attempt<T>>
  {
    Drop(script, Retry(script, RETRIES).attempts)
  }

  function ByteTrace(address: Byte, script: seq<Attempt<Byte>>): seq<Call>
  {
    Repeat(ReadByte(address), Retry(script, RETRIES).attempts)
  }

  function BlockTrace(address: Byte, script: seq<Attempt<seq<Byte>>>): seq<Call>
  {
    Repeat(ReadBlockData(address, REGISTER), Retry(script, RETRIES).attempts)
  }

  /**
   * The platform I2C bus.  Each primitive consumes the head of its own
   * script (an exhausted script answers IOError) and appends the call to
   * `trace`.
   */
  class Bus {
    var writeScript: seq<Attempt<()>>
    var byteScript: seq<Attempt<Byte>>
    var blockScript: seq<Attempt<seq<Byte>>>
    var trace: seq<Call>

    constructor (writes: seq<Attempt<()>>, bytes: seq<Attempt<Byte>>, blocks: seq<Attempt<seq<Byte>>>)
      ensures writeScript == writes && byteScript == bytes && blockScript == blocks
      ensures trace == []
    {
      writeScript, byteScript, blockScript := writes, bytes, blocks;
      trace := [];
    }

    /** One attempt at writing `block` to `address`. */
    method WriteBlockOnce(address: Byte, register: Byte, block: seq<Byte>) returns (outcome: Attempt<()>)
      modifies this
      ensures outcome == AttemptAt(old(writeScript), 0)
      ensures writeScript == Drop(old(writeScript), 1)
      ensures byteScript == old(byteScript) && blockScript == old(blockScript)
      ensures trace == old(trace) + [WriteBlockData(address, register, block)]
    {
      outcome := AttemptAt(writeScript, 0);
      writeScript := Drop(writeScript, 1);
      trace := trace + [WriteBlockData(address, register, block)];
    }

    /** One attempt at reading a single byte from `address`. */
    method ReadByteOnce(address: Byte) returns (outcome: Attempt<Byte>)
      modifies this
      ensures outcome == AttemptAt(old(byteScript), 0)
      ensures byteScript == Drop(old(byteScript), 1)
      ensures writeScript == old(writeScript) && blockScript == old(blockScript)
      ensures trace == old(trace) + [ReadByte(address)]
    {
      outcome := AttemptAt(byteScript, 0);
      byteScript := Drop(byteScript, 1);
      trace := trace + [ReadByte(address)];
    }

    /** One attempt at reading a block from `address`. */
    method ReadBlockOnce(address: Byte, register: Byte) returns (outcome: Attempt<seq<Byte>>)
      modifies this
      ensures outcome == AttemptAt(old(blockScript), 0)
      ensures blockScript == Drop(old(blockScript), 1)
      ensures writeScript == old(writeScript) && byteScript == old(byteScript)
      ensures trace == old(trace) + [ReadBlockData(address, register)]
    {
      outcome := AttemptAt(blockScript, 0);
      blockScript := Drop(blockScript, 1);
      trace := trace + [ReadBlockData(address, register)];
    }
  }

  /** Write `block` to `address`, retrying on IOError; None on success, -1 after RETRIES failures. */
  method WriteI2cBlock(bus: Bus, address: Byte, block: seq<Byte>) returns (r: Reply<()>)
    modifies bus
    ensures r == Retry(old(bus.writeScript), RETRIES).reply
    ensures bus.writeScript == Remaining(old(bus.writeScript))
    ensures bus.byteScript == old(bus.byteScript) && bus.blockScript == old(bus.blockScript)
    ensures bus.trace == old(bus.trace) + WriteTrace(address, block, old(bus.writeScript))
  {
    ghost var script := bus.writeScript;
    var i := 0;
    while i < RETRIES
      invariant 0 <= i <= RETRIES
      invariant forall j :: 0 <= j < i ==> AttemptAt(script, j) == IOError
      invariant bus.writeScript == Drop(script, i)
      invariant bus.byteScript == old(bus.byteScript) && bus.blockScript == old(bus.blockScript)
      invariant bus.trace == old(bus.trace) + Repeat(WriteBlockData(address, REGISTER, block), i)
    {
      AttemptAtDrop(script, i, 0);
      var outcome := bus.WriteBlockOnce(address, REGISTER, block);
      if outcome.Ok? {
        FailThenSucceed(script, RETRIES, i, outcome.value);
        return Returned(outcome.value);
      }
      i := i + 1;
    }
    AllFail(script, RETRIES);
    return MinusOne;
  }

  /** Read one byte from `address`, retrying on IOError; the byte, or -1 after RETRIES failures. */
  method ReadI2cByte(bus: Bus, address: Byte) returns (n: int)
    modifies bus
    ensures n == ByteOrMinusOne(Retry(old(bus.byteScript), RETRIES).reply)
    ensures bus.byteScript == Remaining(old(bus.byteScript))
    ensures bus.writeScript == old(bus.writeScript) && bus.blockScript == old(bus.blockScript)
    ensures bus.trace == old(bus.trace) + ByteTrace(address, old(bus.byteScript))
  {
    ghost var script := bus.byteScript;
    var i := 0;
    while i < RETRIES
      invariant 0 <= i <= RETRIES
      invariant forall j :: 0 <= j < i ==> AttemptAt(script, j) == IOError
      invariant bus.byteScript == Drop(script, i)
      invariant bus.writeScript == old(bus.writeScript) && bus.blockScript == old(bus.blockScript)
      invariant bus.trace == old(bus.trace) + Repeat(ReadByte(address), i)
    {
      AttemptAtDrop(script, i, 0);
      var outcome := bus.ReadByteOnce(address);
      if outcome.Ok? {
        FailThenSucceed(script, RETRIES, i, outcome.value);
        return outcome.value;
      }
      i := i + 1;
    }
    AllFail(script, RETRIES);
    return -1;
  }

  /** Read a block from `address`, retrying on IOError; the bytes, or -1 after RETRIES failures. */
  method ReadI2cBlock(bus: Bus, address: Byte) returns (r: Reply<seq<Byte>>)
    modifies bus
    ensures r == Retry(old(bus.blockScript), RETRIES).reply
    ensures bus.blockScript == Remaining(old(bus.blockScript))
    ensures bus.writeScript == old(bus.writeScript) && bus.byteScript == old(bus.byteScript)
    ensures bus.trace == old(bus.trace) + BlockTrace(address, old(bus.blockScript))
  {
    ghost var script := bus.blockScript;
    var i := 0;
    while i < RETRIES
      invariant 0 <= i <= RETRIES
      invariant forall j :: 0 <= j < i ==> AttemptAt(script, j) == IOError
      invariant bus.blockScript == Drop(script, i)
      invariant bus.writeScript == old(bus.writeScript) && bus.byteScript == old(bus.byteScript)
      invariant bus.trace == old(bus.trace) + Repeat(ReadBlockData(address, REGISTER), i)
    {
      AttemptAtDrop(script, i, 0);
      var outcome := bus.ReadBlockOnce(address, REGISTER);
      if outcome.Ok? {
        FailThenSucceed(script, RETRIES, i, outcome.value);
        return Returned(outcome.value);
      }
      i := i + 1;
    }
    AllFail(script, RETRIES);
    return MinusOne;
  }
}
