/** The native reconstruction library, seen only through the four entry points
    `gridrec()` calls (reconCreate, reconRun, reconPoll, reconDelete), the
    `poll()` wrapper (tomopy/recon/gridrec.py:207-226) and the wait loop
    (lines 196-202). The engine keeps a trace of the calls it receives; what
    it answers to reconPoll is given up front as a script, standing in for the
    progress of its own worker threads. */
module Engine {
  import opened Record

  /** The shape of a three-dimensional numpy array. */
  datatype Shape3 = Shape3(d0: nat, d1: nat, d2: nat)

  /** The two integers reconPoll writes back: `recon_complete` and `slices_remaining`. */
  datatype PollReply = PollReply(complete: int, slicesRemaining: int)

  /** One call into the engine, with what it was handed. */
  datatype Call =
    | Create(config: Config, theta: seq<real>)
    | Run(numSlices: int, center: seq<real>, output: Shape3)
    | Polled(reply: PollReply)
    | Delete

  /** Some reply of the script reports completion (`complete == 1`). */
  predicate Completes(replies: seq<PollReply>) {
    |replies| > 0 && (replies[0].complete == 1 || Completes(replies[1..]))
  }

  /** The index of the first reply that reports completion. */
  function FirstComplete(replies: seq<PollReply>): (k: nat)
    requires Completes(replies)
    ensures k < |replies| && replies[k].complete == 1
    ensures forall j :: 0 <= j < k ==> replies[j].complete != 1
  {
    if replies[0].complete == 1 then 0 else 1 + FirstComplete(replies[1..])
  }

  /** The reconPoll calls the wait loop makes: one per reply, up to and
      including the first that reports completion. */
  function PollTrace(replies: seq<PollReply>): (t: seq<Call>)
    requires Completes(replies)
  {
    seq(FirstComplete(replies) + 1, i requires 0 <= i <= FirstComplete(replies) => Polled(replies[i]))
  }

  class Engine {
    /** Every call received so far, in order. */
    var trace: seq<Call>
    /** What the coming reconPoll calls will report, in order. */
    var replies: seq<PollReply>

    constructor (replies: seq<PollReply>)
      ensures trace == [] && this.replies == replies
    {
      trace := [];
      this.replies := replies;
    }

    method ReconCreate(config: Config, theta: seq<real>)
      modifies this
      ensures trace == old(trace) + [Create(config, theta)] && replies == old(replies)
    {
      trace := trace + [Create(config, theta)];
    }

    method ReconRun(numSlices: int, center: seq<real>, output: Shape3)
      modifies this
      ensures trace == old(trace) + [Run(numSlices, center, output)] && replies == old(replies)
    {
      trace := trace + [Run(numSlices, center, output)];
    }

    method ReconPoll() returns (reply: PollReply)
      requires replies != []
      modifies this
      ensures reply == old(replies[0]) && replies == old(replies[1..])
      ensures trace == old(trace) + [Polled(reply)]
    {
      reply := replies[0];
      replies := replies[1..];
      trace := trace + [Polled(reply)];
    }

    method ReconDelete()
      modifies this
      ensures trace == old(trace) + [Delete] && replies == old(replies)
    {
      trace := trace + [Delete];
    }
  }

  /** `poll()`: the two out-parameters start at 0 and reconPoll fills them. */
  method Poll(engine: Engine) returns (reconComplete: int, slicesRemaining: int)
    requires engine.replies != []
    modifies engine
    ensures reconComplete == old(engine.replies[0]).complete
    ensures slicesRemaining == old(engine.replies[0]).slicesRemaining
    ensures engine.replies == old(engine.replies[1..])
    ensures engine.trace == old(engine.trace) + [Polled(old(engine.replies[0]))]
  {
    reconComplete, slicesRemaining := 0, 0;
    var reply := engine.ReconPoll();
    reconComplete, slicesRemaining := reply.complete, reply.slicesRemaining;
  }

  /** Lines 196-202: poll until the engine reports `complete == 1`; any other
      value means wait and poll again. The sleep between polls has no effect
      on the engine and is left out. */
  method WaitForCompletion(engine: Engine) returns (polls: nat)
    requires Completes(engine.replies)
    modifies engine
    ensures polls == FirstComplete(old(engine.replies)) + 1
    ensures engine.trace == old(engine.trace) + PollTrace(old(engine.replies))
    ensures engine.replies == old(engine.replies)[polls..]
  {
    ghost var script := engine.replies;
    ghost var k := FirstComplete(script);
    polls := 0;
    while true
      invariant polls <= k
      invariant engine.replies == script[polls..]
      invariant engine.trace == old(engine.trace) + seq(polls, i requires 0 <= i < polls => Polled(script[i]))
      decreases |engine.replies|
    {
      var complete, _ := Poll(engine);
      ghost var before := polls;
      polls := polls + 1;
      assert seq(polls, i requires 0 <= i < polls => Polled(script[i]))
          == seq(before, i requires 0 <= i < before => Polled(script[i])) + [Polled(script[before])];
      if complete == 1 {
        assert polls == k + 1;
        return;
      }
    }
  }

  /** The calls of one whole reconstruction, in the order the wrapper makes
      them: reconCreate, then reconRun, then one or more reconPoll calls of
      which only the last reports completion, then a single reconDelete. */
  predicate IsCompleteJob(calls: seq<Call>) {
    |calls| >= 4 &&
    calls[0].Create? && calls[1].Run? && calls[|calls| - 1] == Delete &&
    (forall i :: 2 <= i < |calls| - 1 ==> calls[i].Polled?) &&
    (forall i :: 2 <= i < |calls| - 2 ==> calls[i].Polled? && calls[i].reply.complete != 1) &&
    calls[|calls| - 2].Polled? && calls[|calls| - 2].reply.complete == 1
  }

  /** Create, run, the wait loop's polls and delete make a complete job. */
  lemma {:induction false} JobOrder(create: Call, run: Call, replies: seq<PollReply>)
    requires create.Create? && run.Run? && Completes(replies)
    ensures IsCompleteJob([create, run] + PollTrace(replies) + [Delete])
  {
    var polls := PollTrace(replies);
    var calls := [create, run] + polls + [Delete];
    var k := FirstComplete(replies);
    assert |calls| == k + 4;
    forall i | 2 <= i < |calls| - 1 ensures calls[i] == Polled(replies[i - 2]) {
      assert calls[i] == polls[i - 2];
    }
  }

  /** In a complete job, reconDelete is called exactly once, as the last call,
      and nothing is polled before reconRun. */
  lemma DeleteOnceLast(calls: seq<Call>)
    requires IsCompleteJob(calls)
    ensures forall i :: 0 <= i < |calls| ==> (calls[i] == Delete <==> i == |calls| - 1)
    ensures forall i :: 0 <= i < |calls| && calls[i].Polled? ==> 2 <= i
  {
    forall i | 0 <= i < |calls| - 1 ensures calls[i] != Delete {
      if 2 <= i { assert calls[i].Polled?; }
    }
  }
}
