/**
 * `LoadGeneratorClient::Run`: a `switch` on the configured thread type whose two case
 * labels have no `break`, so control entering at the first label also runs the second.
 * A run is the ordered list of strategies the switch calls.
 */
module Dispatch {

  /** `LoadGeneratorClient::thread_type`, in declaration order. */
  datatype ThreadType = PerRequest | ThreadPool

  /** The two strategies a case arm calls. */
  datatype Strategy = RunThreadPool | RunThreadPerRequest

  /** A case label and the call written under it. */
  datatype Arm = Arm(caseValue: ThreadType, call: Strategy)

  /** The arms of the switch in `Run`, in source order. */
  const RunArms: seq<Arm> := [Arm(ThreadPool, RunThreadPool), Arm(PerRequest, RunThreadPerRequest)]

  predicate NoArmMatches(arms: seq<Arm>, t: ThreadType)
  {
    forall k :: 0 <= k < |arms| ==> arms[k].caseValue != t
  }

  /** The calls of a run of consecutive arms, in order. */
  function Calls(arms: seq<Arm>): (calls: seq<Strategy>)
    ensures |calls| == |arms|
    ensures forall k :: 0 <= k < |arms| ==> calls[k] == arms[k].call
  {
    if arms == [] then [] else [arms[0].call] + Calls(arms[1..])
  }

  /**
   * A C `switch` whose arms end without `break`: control jumps to the first matching
   * label and then executes every arm after it; with no matching label nothing runs.
   */
  function FallThrough(arms: seq<Arm>, t: ThreadType): (run: seq<Strategy>)
    ensures run == [] <==> NoArmMatches(arms, t)
    ensures run != [] ==> run[|run| - 1] == arms[|arms| - 1].call
    ensures |run| <= |arms|
  {
    if arms == [] then []
    else if arms[0].caseValue == t then Calls(arms)
    else FallThrough(arms[1..], t)
  }

  /** The fall-through run starts at the first matching arm and takes in every arm after it. */
  lemma {:induction false} FallThroughFromFirstMatch(arms: seq<Arm>, t: ThreadType, j: nat)
    requires j < |arms| && arms[j].caseValue == t && NoArmMatches(arms[..j], t)
    ensures FallThrough(arms, t) == Calls(arms[j..])
  {
    if j > 0 {
      assert arms[0] == arms[..j][0];
      assert arms[1..][..j - 1] == arms[..j][1..];
      assert arms[1..][j - 1..] == arms[j..];
      FallThroughFromFirstMatch(arms[1..], t, j - 1);
    }
  }

  /** The same `switch` with a `break` closing every arm: only the first matching arm runs. */
  function WithBreaks(arms: seq<Arm>, t: ThreadType): (run: seq<Strategy>)
    ensures run == [] <==> NoArmMatches(arms, t)
    ensures |run| <= 1
    ensures forall k :: 0 <= k < |run| ==> exists j :: 0 <= j < |arms| && arms[j].caseValue == t && run[k] == arms[j].call
  {
    if arms == [] then []
    else if arms[0].caseValue == t then [arms[0].call]
    else WithBreaks(arms[1..], t)
  }

  /** With breaks, exactly the first matching arm runs. */
  lemma {:induction false} WithBreaksRunsFirstMatch(arms: seq<Arm>, t: ThreadType, j: nat)
    requires j < |arms| && arms[j].caseValue == t && NoArmMatches(arms[..j], t)
    ensures WithBreaks(arms, t) == [arms[j].call]
  {
    if j > 0 {
      assert arms[0] == arms[..j][0];
      assert arms[1..][..j - 1] == arms[..j][1..];
      WithBreaksRunsFirstMatch(arms[1..], t, j - 1);
    }
  }

  /** The strategies `Run` executes, as written. */
  function Run(t: ThreadType): seq<Strategy>
  {
    FallThrough(RunArms, t)
  }

  /** The strategy each thread type names. */
  function StrategyFor(t: ThreadType): Strategy
  {
    match t
    case PerRequest => RunThreadPerRequest
    case ThreadPool => RunThreadPool
  }

  /** `Run` with the missing `break` restored, so that the two dispatch paths exclude each other. */
  function RunExclusive(t: ThreadType): seq<Strategy>
  {
    WithBreaks(RunArms, t)
  }

  /** Every mode ends in the per-request strategy, and thread-pool mode runs the pool first. */
  lemma RunAsWritten(t: ThreadType)
    ensures Run(t) != [] && Run(t)[|Run(t)| - 1] == RunThreadPerRequest
    ensures Run(PerRequest) == [RunThreadPerRequest]
    ensures Run(ThreadPool) == [RunThreadPool, RunThreadPerRequest]
  {
  }

  /** The corrected switch runs exactly the strategy the configured mode names. */
  lemma RunExclusiveRunsOne(t: ThreadType)
    ensures RunExclusive(t) == [StrategyFor(t)]
  {
  }

  /**
   * The requests one `Run` issues. Each strategy is taken to issue the configured count:
   * the per-request loop at LoadGeneratorClient.cpp:91 starts one thread per request, and
   * the pool's constructor at ThreadPool.cpp:43 queues one task per request, which its
   * workers drain when the pool size is at least 1. Both loops count up to the configured
   * number, so a count of 0 or less issues nothing.
   */
  function RequestsIssued(t: ThreadType, numRequests: int): nat
  {
    (if numRequests > 0 then numRequests else 0) * |Run(t)|
  }

  /** In thread-pool mode the fall-through sends every configured request twice. */
  lemma PoolModeSendsTwice(numRequests: int)
    ensures RequestsIssued(ThreadPool, numRequests) == 2 * RequestsIssued(PerRequest, numRequests)
    ensures numRequests >= 0 ==> RequestsIssued(PerRequest, numRequests) == numRequests
    ensures numRequests <= 0 ==> RequestsIssued(ThreadPool, numRequests) == 0
  {
  }
}
