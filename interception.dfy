/** The collaborators the global-method interceptor consumes: the shared
    random source, the intercepted threads, the waits handed to them and the
    registry that tells whether the running thread is intercepted. Only the
    parts of their contracts that the interceptor relies on are modelled. */
module Interception {
  import opened JavaBits

  datatype Option<T> = None | Some(value: T)

  /** One value the random source produces: a long from `uniform`, or a
      boolean from `decide`. */
  datatype Draw = Long(bits: bv64) | Decision(outcome: bool)

  /** The run's single source of entropy: the values it will produce, in
      order, and how many of them have been consumed. */
  class RandomSource {
    const draws: seq<Draw>
    var cursor: nat

    constructor (draws: seq<Draw>)
      ensures this.draws == draws && cursor == 0
    {
      this.draws := draws;
      cursor := 0;
    }

    /** The next value is a long in [min, max), signed. */
    predicate NextIsUniform(min: bv64, max: bv64)
      reads this
    {
      cursor < |draws| && draws[cursor].Long? &&
      SignedLe(min, draws[cursor].bits) && SignedLt(draws[cursor].bits, max)
    }

    /** The next value is a decision. */
    predicate NextIsDecision()
      reads this
    {
      cursor < |draws| && draws[cursor].Decision?
    }

    /** The outcome of the next decision, false when the next value is not one. */
    function NextDecision(): bool
      reads this
    {
      NextIsDecision() && draws[cursor].outcome
    }

    /** uniform(min, max): consumes exactly one value. */
    method Uniform(min: bv64, max: bv64) returns (r: bv64)
      requires NextIsUniform(min, max)
      modifies this
      ensures r == draws[old(cursor)].bits && cursor == old(cursor) + 1
      ensures SignedLe(min, r) && SignedLt(r, max)
    {
      r := draws[cursor].bits;
      cursor := cursor + 1;
    }

    /** decide(chance): consumes exactly one value. The chance only shapes
        the distribution the outcome is drawn from. */
    method Decide(chance: real) returns (b: bool)
      requires NextIsDecision()
      modifies this
      ensures b == old(NextDecision()) && cursor == old(cursor) + 1
    {
      b := draws[cursor].outcome;
      cursor := cursor + 1;
    }
  }

  /** What a wait is for: an ordinary wait of the simulated program, or a
      NEMESIS wait injected only to perturb the schedule. */
  datatype Kind = Ordinary | Nemesis

  /** The token captureWaitSite returns; here its serial number among the
      captures of one registry. */
  datatype WaitSite = WaitSite(serial: nat)

  /** One suspension event, created just before it is handed to its thread.
      A deadline of 0 means no deadline; None is the null payload. */
  datatype InterceptedWait = InterceptedWait(
    kind: Kind, deadline: bv64, thread: InterceptibleThread, site: WaitSite, payload: Option<object>)

  /** How the scheduler resolves an awaited wait: it returns normally, or it
      ends with an interrupt that surfaces as an unchecked exception. Either
      way it leaves the thread's interrupt flag as given. */
  datatype AwaitResolution = Resumed(flagAfter: bool) | Interrupted(flagAfter: bool)

  /** How a call into the interceptor ends: a normal return, or the unchecked
      exception that wraps an interrupt. */
  datatype Outcome = Returned | UncheckedInterrupted

  /** A thread running inside the simulation. */
  class InterceptibleThread {
    var evaluationDeterministic: bool
    var interruptFlag: bool
    /** The waits handed to this thread by interceptWait, oldest first. */
    var waits: seq<InterceptedWait>

    constructor (evaluationDeterministic: bool, interruptFlag: bool)
      ensures this.evaluationDeterministic == evaluationDeterministic
      ensures this.interruptFlag == interruptFlag && waits == []
    {
      this.evaluationDeterministic := evaluationDeterministic;
      this.interruptFlag := interruptFlag;
      waits := [];
    }

    /** interceptWait: hands the wait to the thread and its scheduler. */
    method InterceptWait(w: InterceptedWait)
      modifies this
      ensures waits == old(waits) + [w]
      ensures interruptFlag == old(interruptFlag)
      ensures evaluationDeterministic == old(evaluationDeterministic)
    {
      waits := waits + [w];
    }

    /** Thread.interrupted() on this, the running thread: reports the flag and
        clears it. */
    method Interrupted() returns (was: bool)
      modifies this
      ensures was == old(interruptFlag) && !interruptFlag
      ensures waits == old(waits) && evaluationDeterministic == old(evaluationDeterministic)
    {
      was := interruptFlag;
      interruptFlag := false;
    }

    /** Thread.interrupt(): sets the flag. */
    method Interrupt()
      modifies this
      ensures interruptFlag
      ensures waits == old(waits) && evaluationDeterministic == old(evaluationDeterministic)
    {
      interruptFlag := true;
    }
  }

  /** awaitThrowUncheckedOnInterrupt: blocks until the scheduler resolves the
      wait, and turns an interrupt into an unchecked exception. */
  method AwaitThrowUncheckedOnInterrupt(signal: InterceptedWait, resolution: AwaitResolution)
    returns (outcome: Outcome)
    modifies signal.thread
    ensures outcome == (if resolution.Resumed? then Returned else UncheckedInterrupted)
    ensures signal.thread.interruptFlag == resolution.flagAfter
    ensures signal.thread.waits == old(signal.thread.waits)
    ensures signal.thread.evaluationDeterministic == old(signal.thread.evaluationDeterministic)
  {
    signal.thread.interruptFlag := resolution.flagAfter;
    outcome := if resolution.Resumed? then Returned else UncheckedInterrupted;
  }

  /** The registry of intercepted threads. */
  class InterceptorOfWaits {
    /** The running thread, when it runs inside the simulation. */
    var running: Option<InterceptibleThread>
    /** How many wait sites have been captured. */
    var sitesCaptured: nat

    constructor (running: Option<InterceptibleThread>)
      ensures this.running == running && sitesCaptured == 0
    {
      this.running := running;
      sitesCaptured := 0;
    }

    /** ifIntercepted(): the running thread if it is intercepted, else None. */
    function IfIntercepted(): Option<InterceptibleThread>
      reads this
    {
      running
    }

    /** captureWaitSite(thread): a fresh token for the place the thread waits. */
    method CaptureWaitSite(thread: InterceptibleThread) returns (site: WaitSite)
      modifies this
      ensures site == WaitSite(old(sitesCaptured)) && sitesCaptured == old(sitesCaptured) + 1
      ensures running == old(running)
    {
      site := WaitSite(sitesCaptured);
      sitesCaptured := sitesCaptured + 1;
    }
  }
}
