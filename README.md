# Global-method interception of the Cassandra simulator, in Dafny

`InterceptingGlobalMethods` is the simulator's stand-in for the process-wide
sources of nondeterminism. It covers three operations:
- `nemesis(chance)` may inject a synthetic NEMESIS wait into the running
  thread, to perturb the schedule.
- `randomSeed()` derives a seed from the run's random source when the
  caller runs inside the simulation, and from the thread's name hash when it
  does not.
- `randomUUID()` builds version-4-shaped UUIDs from one random draw and a
  per-instance counter.

This project models those three operations and proves their contracts.

Files and modules:

- `java_bits.dfy`, module `JavaBits`: Java's fixed-width integers.
  - A `long` that the code manipulates bit by bit is a `bv64`.
  - The `int` counter is an integer in the 32-bit range, and the overflow of `++` is written out.
  - Sign extension from `int` to `long` and the signed order on longs.
- `uuids.dfy`, module `Uuids`: the bit layout of one UUID and the UUIDs of successive calls.
  - The most-significant word: the version nibble and the drawn bits, with the inverse map.
  - `CounterAfter`: the `uniqueUuidCounter` field (line 33) after n post-increments at line 88.
  - `Issued`: the sequence of UUIDs that successive calls return (lines 86-88), one per draw.
  - The least-significant word: the variant bit with the sign-extended counter.
  - Distinctness over 2^32 calls, and the repeat at call 2^32.
- `interception.dfy`, module `Interception`: the collaborators.
  - The random source is a fixed sequence of values with a cursor, so the number of draws is observable.
  - The intercepted thread carries its evaluation-deterministic mode, its interrupt flag and the log of waits handed to it.
  - The wait value, the wait-site token, the registry behind `ifIntercepted` and `captureWaitSite`, and the blocking await.
  - `InterceptorOfWaits.IfIntercepted`: the call `interceptorOfWaits.ifIntercepted()` at lines 60 and 76. It returns the registry's running thread and has no contract of its own.
- `global_methods.dfy`, module `GlobalMethods`:
  - the class `InterceptingGlobalMethods`, with its `uniqueUuidCounter` field and the three operations;
  - `NemesisSpec`, a value-level specification of one nemesis call;
  - `Simulated`, the guard `thread == null || thread.isEvaluationDeterministic()` of lines 61 and 77, negated: the thread is intercepted and not evaluation-deterministic;
  - `NemesisWait`, the NEMESIS wait built at line 64, with deadline `0L`, a fresh wait site and a `null` payload. `Nemesis`'s contract states those fields;
  - three client methods that exercise the contracts on concrete inputs.

Modelling choices:

- Representation of the UUID words.
  - The most-significant word is a `bv64`, because line 87 is pure bit manipulation.
  - The least-significant word is kept as the unsigned value of its 64 bits (`Word`).
  - `LsbOf` states how `(1L << 63) | counter` comes out for a non-negative and for a negative `int` counter.
  - Keeping that word and the counter as integers lets the counting arguments (distinctness, wrap-around) be plain linear arithmetic.
- The counter is a Java `int` (line 33).
  - The field is declared `int` at line 33, so the least-significant word at line 88 is `(1L << 63)` OR'd with the counter sign-extended from 32 to 64 bits.
  - While the counter is non-negative, the low 63 bits are the counter.
  - From Integer.MIN_VALUE on, sign extension also sets bits 31-62, so `UUID.variant()` reads 7 instead of 2 (`LsbVariant`).
  - The least-significant words stay pairwise distinct for the first 2^32 calls (`IssuedDistinct`).
  - Call 2^32 repeats the first word (`IssuedRepeatsAfterWrap`).
- Interrupt flag in `nemesis`.
  - The comment at line 67 says the interrupt state is saved to be restored afterwards. Line 70 restores it, but only when the await at line 69 returns normally.
  - When the await throws the unchecked interrupt exception, `thread.interrupt()` at line 70 is not reached. The model follows the code (`NemesisSpec`, outcome `UncheckedInterrupted`).
- Current thread. `Thread.interrupted()` acts on the current thread. The model applies it to the intercepted thread, which `ifIntercepted()` returns only for the current thread.
- External behaviour becomes parameters:
  - the scheduler's resolution of the injected wait is `AwaitResolution`;
  - the name hash of the current thread is `nameHash`;
  - the outcome of `decide(chance)` is the next value of the source.
- Range of `uniform(min, max)`. The random source is not part of this model. Its draws are taken from the half-open range [min, max), as Java ranges usually are.

## Model

| member | source | states |
|---|---|---|
| JavaBits.SignExtend | test/simulator/main/org/apache/cassandra/simulator/systems/InterceptingGlobalMethods.java:78 | widening an int to a long keeps its low 32 bits and fills the high 32 bits with the sign bit |
| JavaBits.Increment | test/simulator/main/org/apache/cassandra/simulator/systems/InterceptingGlobalMethods.java:88 | the post-increment of the int counter adds one, and only Integer.MAX_VALUE overflows, to Integer.MIN_VALUE |
| Uuids.ShapeMsb | test/simulator/main/org/apache/cassandra/simulator/systems/InterceptingGlobalMethods.java:87 | whatever was drawn, bits 12-15 of the word hold the version 4 |
| Uuids.ShapeMsbKeepsDraw | test/simulator/main/org/apache/cassandra/simulator/systems/InterceptingGlobalMethods.java:87 | whatever was drawn, bits 0-11 are draw bits 0-11 and bits 16-63 are draw bits 12-59 |
| Uuids.DrawOf | test/simulator/main/org/apache/cassandra/simulator/systems/InterceptingGlobalMethods.java:86-87 | the inverse of the shaping yields a value below 2^60 that keeps the word's low 12 bits |
| Uuids.ShapeMsbRoundTrip | test/simulator/main/org/apache/cassandra/simulator/systems/InterceptingGlobalMethods.java:86-87 | every draw in [0, 2^60) is recovered exactly from its most-significant word |
| Uuids.ShapeMsbOnto | test/simulator/main/org/apache/cassandra/simulator/systems/InterceptingGlobalMethods.java:87 | every word with version nibble 4 is the shape of the draw recovered from it, so the shaping is a bijection |
| Uuids.LsbOf | test/simulator/main/org/apache/cassandra/simulator/systems/InterceptingGlobalMethods.java:88 | bit 63 is always set; a non-negative counter is exactly the word minus 2^63; a negative counter also sets bits 31-62 |
| Uuids.LsbOfInjective | test/simulator/main/org/apache/cassandra/simulator/systems/InterceptingGlobalMethods.java:88 | distinct int counter values give distinct least-significant words |
| Uuids.LsbVariant | test/simulator/main/org/apache/cassandra/simulator/systems/InterceptingGlobalMethods.java:88 | the UUID variant is 2 (RFC 4122) exactly while the counter is non-negative, and 7 once it is negative |
| Uuids.MakeUuid | test/simulator/main/org/apache/cassandra/simulator/systems/InterceptingGlobalMethods.java:86-88 | each UUID has version 4 and the variant bit set |
| Uuids.FirstUuidOfZeroDraw | test/simulator/main/org/apache/cassandra/simulator/systems/InterceptingGlobalMethods.java:86-88 | a draw of 0 with the counter at 0 gives msb 0x4000 and lsb 0x8000000000000000 |
| Uuids.CounterAfterValue | test/simulator/main/org/apache/cassandra/simulator/systems/InterceptingGlobalMethods.java:88 | after k < 2^32 calls the counter is k read as a 32-bit int: k up to Integer.MAX_VALUE, k - 2^32 beyond |
| Uuids.CounterWrapsAround | test/simulator/main/org/apache/cassandra/simulator/systems/InterceptingGlobalMethods.java:88 | after 2^32 calls the counter is back at its initial 0 |
| Uuids.CounterAfter | test/simulator/main/org/apache/cassandra/simulator/systems/InterceptingGlobalMethods.java:88 | starting from the initial 0, the counter equals the number of calls made so far, up to Integer.MAX_VALUE calls |
| Uuids.Issued | test/simulator/main/org/apache/cassandra/simulator/systems/InterceptingGlobalMethods.java:86-88 | successive calls on a fresh instance issue exactly one UUID per draw taken |
| Uuids.IssuedAt | test/simulator/main/org/apache/cassandra/simulator/systems/InterceptingGlobalMethods.java:86-88 | call i of a fresh instance returns the UUID of draw i and the counter after i increments |
| Uuids.IssuedAppend | test/simulator/main/org/apache/cassandra/simulator/systems/InterceptingGlobalMethods.java:86-88 | one more call appends exactly one UUID to those already issued, built from its draw and the current counter |
| Uuids.IssuedLastIsNew | test/simulator/main/org/apache/cassandra/simulator/systems/InterceptingGlobalMethods.java:88 | within the first 2^32 calls, each call's UUID differs from every earlier one |
| Uuids.IssuedDistinct | test/simulator/main/org/apache/cassandra/simulator/systems/InterceptingGlobalMethods.java:88 | the first 2^32 UUIDs of an instance have pairwise distinct least-significant words, even when the draws are equal |
| Uuids.IssuedRepeatsAfterWrap | test/simulator/main/org/apache/cassandra/simulator/systems/InterceptingGlobalMethods.java:88 | call 2^32 repeats the least-significant word of the first call, so the 2^32 bound is tight |
| Interception.RandomSource.Uniform | test/simulator/main/org/apache/cassandra/simulator/systems/InterceptingGlobalMethods.java:80 | a uniform draw consumes exactly one value and lies in the requested signed range |
| Interception.RandomSource.Decide | test/simulator/main/org/apache/cassandra/simulator/systems/InterceptingGlobalMethods.java:61 | a decision consumes exactly one value and returns the outcome the source holds next |
| Interception.InterceptorOfWaits.CaptureWaitSite | test/simulator/main/org/apache/cassandra/simulator/systems/InterceptingGlobalMethods.java:64 | each captured wait site is a fresh token, and the registry's running thread is unchanged |
| Interception.InterceptibleThread.InterceptWait | test/simulator/main/org/apache/cassandra/simulator/systems/InterceptingGlobalMethods.java:65 | handing a wait to the thread appends it to the thread's waits and changes nothing else |
| Interception.InterceptibleThread.Interrupted | test/simulator/main/org/apache/cassandra/simulator/systems/InterceptingGlobalMethods.java:68 | reports the interrupt flag and clears it |
| Interception.InterceptibleThread.Interrupt | test/simulator/main/org/apache/cassandra/simulator/systems/InterceptingGlobalMethods.java:70 | sets the interrupt flag and changes nothing else |
| Interception.AwaitThrowUncheckedOnInterrupt | test/simulator/main/org/apache/cassandra/simulator/systems/InterceptingGlobalMethods.java:69 | the await ends normally or with the unchecked interrupt exception, leaving the flag as the scheduler set it |
| GlobalMethods.NemesisSpec | test/simulator/main/org/apache/cassandra/simulator/systems/InterceptingGlobalMethods.java:57-71 | a draw happens exactly when the thread is simulated; a wait is injected exactly when it is simulated and the decision is true; a call that injects nothing changes nothing; a flag set on entry is set after every normal return; the unchecked exception arises only from an interrupted injected wait |
| GlobalMethods.InterceptingGlobalMethods.constructor | test/simulator/main/org/apache/cassandra/simulator/systems/InterceptingGlobalMethods.java:33-37 | a new instance holds the given registry and random source, with the counter at 0 and no UUID issued |
| GlobalMethods.InterceptingGlobalMethods.Nemesis | test/simulator/main/org/apache/cassandra/simulator/systems/InterceptingGlobalMethods.java:57-71 | the cursor advances by NemesisSpec's draw count, the outcome and the thread's interrupt flag are NemesisSpec's, and the thread's waits gain exactly one NEMESIS wait (deadline 0, fresh site, no payload) only when NemesisSpec injects |
| GlobalMethods.InterceptingGlobalMethods.RandomSeed | test/simulator/main/org/apache/cassandra/simulator/systems/InterceptingGlobalMethods.java:73-81 | outside the simulation, or for an evaluation-deterministic thread, it returns the sign-extended name hash and draws nothing; otherwise it returns exactly the next full-range draw and consumes it |
| GlobalMethods.InterceptingGlobalMethods.RandomUuid | test/simulator/main/org/apache/cassandra/simulator/systems/InterceptingGlobalMethods.java:83-89 | one draw yields a version-4 UUID with the variant bit set, the draw recoverable from the msb and the pre-increment counter in the lsb; the counter is post-incremented, the UUID is appended to the issued history, and within the first 2^32 calls it differs from every earlier UUID |
| GlobalMethods.FreshInstanceUuids | test/simulator/main/org/apache/cassandra/simulator/systems/InterceptingGlobalMethods.java:83-89 | on a fresh instance, two zero draws give (0x4000, 2^63) and then (0x4000, 2^63 + 1) |
| GlobalMethods.InterruptedThreadNemesis | test/simulator/main/org/apache/cassandra/simulator/systems/InterceptingGlobalMethods.java:64-70 | an interrupted simulated thread whose nemesis wait resumes with a clear flag gets exactly one wait and ends up interrupted again |
| GlobalMethods.DeterministicThreadNemesis | test/simulator/main/org/apache/cassandra/simulator/systems/InterceptingGlobalMethods.java:60-62 | an evaluation-deterministic thread's nemesis draws nothing and is handed no wait, even at chance 1 |

## Left out

- newWaitQueue, newCountDownLatch, newOneTimeCondition (lines 39-55): each is a one-line constructor of a wait-queue, latch or condition class that is not part of this model, so there is no logic of this file to verify.
- The blocking inside awaitThrowUncheckedOnInterrupt, and the scheduler's resolution of the wait: these are concurrency in code that is not part of this model. The resolution is a parameter.
- The `synchronized` modifier on randomUUID: calls are modelled one after another. Mutual exclusion is not modelled.
- Other threads running while the nemesis wait blocks (line 69): the await changes only the intercepted thread's interrupt flag. Draws and wait sites that other threads take in that time are not modelled, so the cursor and site counts in `Nemesis`'s contract are those of the call alone.
- The probability distributions of decide and uniform, and the float `chance`: they are floating point and statistical. The source's values are given in advance, and `chance` is passed along without effect on the outcome.
- The name hash `Thread.currentThread().getName().hashCode()`: it is runtime behaviour outside this file. It is a parameter.
- InterceptingMonitors (the superclass) and the internals of InterceptorOfWaits and InterceptibleThread: they are not part of this model. Only the calls this file makes on them are modelled.
- GlobalMethods.InterceptingGlobalMethods.RandomSeed: states which draw is returned, not that it is uniformly distributed.
- GlobalMethods.InterceptingGlobalMethods.RandomUuid: states distinctness for the first 2^32 calls only, because the int counter repeats after that (Uuids.IssuedRepeatsAfterWrap).
