/** The simulator's replacement for the process-wide sources of
    nondeterminism: nemesis fault injection, seed derivation and UUID
    generation, all driven by the run's one random source. */
module GlobalMethods {
  import opened JavaBits
  import opened Uuids
  import opened Interception

  /** The thread is intercepted and not evaluation-deterministic: the only case
      in which nemesis and randomSeed use the random source. */
  predicate Simulated(t: Option<InterceptibleThread>)
    reads if t.Some? then {t.value} else {}
  {
    t.Some? && !t.value.evaluationDeterministic
  }

  /** What one nemesis call does: how many random values it consumes, whether
      it hands a NEMESIS wait to the thread, the thread's interrupt flag
      afterwards and how the call ends. */
  datatype NemesisEffect = NemesisEffect(drawsTaken: nat, injects: bool, flagAfter: bool, outcome: Outcome)

  /** The effect of nemesis given whether the thread is simulated, the outcome
      decide would give, the interrupt flag on entry and how the scheduler
      resolves the injected wait. */
  function NemesisSpec(simulated: bool, decision: bool, flagBefore: bool, resolution: AwaitResolution)
    : (e: NemesisEffect)
    ensures e.drawsTaken == (if simulated then 1 else 0)
    ensures e.injects <==> simulated && decision
    ensures !e.injects ==> e.outcome == Returned && e.flagAfter == flagBefore
    ensures flagBefore && e.outcome == Returned ==> e.flagAfter
    ensures e.outcome == UncheckedInterrupted <==> e.injects && resolution.Interrupted?
  {
    if !simulated || !decision then
      NemesisEffect(if simulated then 1 else 0, false, flagBefore, Returned)
    else
      match resolution
      case Resumed(flag) => NemesisEffect(1, true, flagBefore || flag, Returned)
      case Interrupted(flag) => NemesisEffect(1, true, flag, UncheckedInterrupted)
  }

  /** The wait nemesis injects: kind NEMESIS, no deadline, no payload. */
  function NemesisWait(thread: InterceptibleThread, site: WaitSite): InterceptedWait
  {
    InterceptedWait(Nemesis, 0, thread, site, None)
  }

  class InterceptingGlobalMethods {
    const interceptorOfWaits: InterceptorOfWaits
    const random: RandomSource
    var uniqueUuidCounter: Int32
    /** The draws taken by randomUUID so far, and the UUIDs it returned. */
    ghost var uuidDraws: seq<bv64>
    ghost var issued: seq<Uuid>

    /** The counter has been post-incremented once per UUID, from 0. */
    ghost predicate Valid()
      reads this
    {
      uniqueUuidCounter == CounterAfter(|uuidDraws|) && issued == Issued(uuidDraws)
    }

    constructor (interceptorOfWaits: InterceptorOfWaits, random: RandomSource)
      ensures Valid()
      ensures this.interceptorOfWaits == interceptorOfWaits && this.random == random
      ensures uniqueUuidCounter == 0 && issued == []
    {
      this.interceptorOfWaits := interceptorOfWaits;
      this.random := random;
      uniqueUuidCounter := 0;
      uuidDraws := [];
      issued := [];
    }

    /** The running thread, if intercepted, as a frame. */
    function RunningThread(): set<object>
      reads interceptorOfWaits
    {
      if interceptorOfWaits.running.Some? then {interceptorOfWaits.running.value} else {}
    }

    /** nemesis(chance): unless the running thread is simulated, does nothing
        and draws nothing; otherwise consumes one decision and, when it is
        true, hands a NEMESIS wait to the thread and awaits it with the
        interrupt flag saved beforehand and restored on a normal return. */
    method Nemesis(chance: real, resolution: AwaitResolution) returns (outcome: Outcome)
      requires Simulated(interceptorOfWaits.running) ==> random.NextIsDecision()
      modifies random, interceptorOfWaits, RunningThread()
      ensures interceptorOfWaits.running == old(interceptorOfWaits.running)
      ensures
        var running := interceptorOfWaits.running;
        var e := old(NemesisSpec(Simulated(running), random.NextDecision(),
                                 running.Some? && running.value.interruptFlag, resolution));
        && random.cursor == old(random.cursor) + e.drawsTaken
        && outcome == e.outcome
        && interceptorOfWaits.sitesCaptured == old(interceptorOfWaits.sitesCaptured) + (if e.injects then 1 else 0)
        && (running.Some? ==>
              var t := running.value;
              && t.interruptFlag == e.flagAfter
              && t.evaluationDeterministic == old(t.evaluationDeterministic)
              && t.waits == old(t.waits) +
                   (if e.injects then [NemesisWait(t, WaitSite(old(interceptorOfWaits.sitesCaptured)))] else []))
    {
      var thread := interceptorOfWaits.IfIntercepted();
      if thread.None? || thread.value.evaluationDeterministic {
        return Returned;
      }
      var decided := random.Decide(chance);
      if !decided {
        return Returned;
      }
      var t := thread.value;
      var site := interceptorOfWaits.CaptureWaitSite(t);
      var signal := NemesisWait(t, site);
      t.InterceptWait(signal);
      // the flag is saved and cleared before the await
      var wasInterrupted := t.Interrupted();
      outcome := AwaitThrowUncheckedOnInterrupt(signal, resolution);
      if outcome == UncheckedInterrupted {
        // the exception propagates: the restore below is not reached
        return;
      }
      if wasInterrupted {
        t.Interrupt();
      }
    }

    /** randomSeed(): the widened name hash of the running thread unless it is
        simulated; otherwise exactly one full-range long from the source. */
    method RandomSeed(nameHash: bv32) returns (seed: bv64)
      requires Simulated(interceptorOfWaits.running) ==> random.NextIsUniform(LongMin, LongMax)
      modifies random
      ensures Simulated(interceptorOfWaits.running) ==>
                seed == random.draws[old(random.cursor)].bits && random.cursor == old(random.cursor) + 1
      ensures !Simulated(interceptorOfWaits.running) ==>
                seed == SignExtend(nameHash) && random.cursor == old(random.cursor)
    {
      var thread := interceptorOfWaits.IfIntercepted();
      if thread.None? || thread.value.evaluationDeterministic {
        return SignExtend(nameHash);
      }
      seed := random.Uniform(LongMin, LongMax);
    }

    /** randomUUID(): one draw in [0, 2^60) shaped into a version-4 word, and
        the variant bit OR'd with the post-incremented counter. */
    method RandomUuid() returns (uuid: Uuid)
      requires Valid()
      requires random.NextIsUniform(0, DrawBound)
      modifies this, random
      ensures Valid()
      ensures
        var draw := random.draws[old(random.cursor)].bits;
        && draw < DrawBound
        && uuid == MakeUuid(draw, old(uniqueUuidCounter))
        && DrawOf(uuid.mostSigBits) == draw
        && uuidDraws == old(uuidDraws) + [draw]
      ensures uuid.Version() == 4 && uuid.leastSigBits >= 0x8000_0000_0000_0000
      ensures uniqueUuidCounter == Increment(old(uniqueUuidCounter))
      ensures random.cursor == old(random.cursor) + 1
      ensures issued == old(issued) + [uuid]
      ensures |issued| <= 0x1_0000_0000 ==> forall i :: 0 <= i < |issued| - 1 ==> issued[i] != uuid
    {
      var draw := random.Uniform(0, DrawBound);
      NonNegativeRange(draw, DrawBound);
      var msb := ShapeMsb(draw);
      ShapeMsbRoundTrip(draw);
      var counter := uniqueUuidCounter;
      uniqueUuidCounter := Increment(uniqueUuidCounter);
      uuid := Uuid(msb, LsbOf(counter));
      IssuedAppend(uuidDraws, draw);
      uuidDraws := uuidDraws + [draw];
      issued := issued + [uuid];
      if |uuidDraws| <= 0x1_0000_0000 {
        IssuedLastIsNew(uuidDraws);
      }
    }
  }

  /** A fresh instance whose source yields the draw 0 twice: the first UUID is
      (0x4000, 1L << 63), and the second one differs from it in the counter
      alone. */
  method FreshInstanceUuids() returns (first: Uuid, second: Uuid)
    ensures first == Uuid(0x4000, 0x8000_0000_0000_0000)
    ensures second == Uuid(0x4000, 0x8000_0000_0000_0001)
  {
    var random := new RandomSource([Long(0), Long(0)]);
    var registry := new InterceptorOfWaits(None);
    var methods := new InterceptingGlobalMethods(registry, random);
    first := methods.RandomUuid();
    second := methods.RandomUuid();
    FirstUuidOfZeroDraw();
  }

  /** A thread interrupted before nemesis, whose injected wait the scheduler
      resumes with the flag clear: the call returns normally, the thread has
      been handed exactly one wait, and the interrupt is set again. */
  method InterruptedThreadNemesis() returns (outcome: Outcome, flagAfter: bool, waitsHanded: nat)
    ensures outcome == Returned && flagAfter && waitsHanded == 1
  {
    var thread := new InterceptibleThread(false, true);
    var random := new RandomSource([Decision(true)]);
    var registry := new InterceptorOfWaits(Some(thread));
    var methods := new InterceptingGlobalMethods(registry, random);
    outcome := methods.Nemesis(0.5, Resumed(false));
    flagAfter, waitsHanded := thread.interruptFlag, |thread.waits|;
  }

  /** An evaluation-deterministic thread calling nemesis with chance 1: no
      value is drawn and no wait is handed over. */
  method DeterministicThreadNemesis() returns (drawsTaken: nat, waitsHanded: nat)
    ensures drawsTaken == 0 && waitsHanded == 0
  {
    var thread := new InterceptibleThread(true, false);
    var random := new RandomSource([]);
    var registry := new InterceptorOfWaits(Some(thread));
    var methods := new InterceptingGlobalMethods(registry, random);
    var _ := methods.Nemesis(1.0, Resumed(false));
    drawsTaken, waitsHanded := random.cursor, |thread.waits|;
  }
}
