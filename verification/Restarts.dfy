/** Restarts are invisible: wherever restarts fall in a run, they can be left out
    without changing any state or any other answer. */
module Restarts {
  import opened Machine

  /** The operations that are not restarts. */
  function Proper(ops: seq<Op>): seq<Op> {
    if ops == [] then []
    else
      var n := |ops| - 1;
      Proper(ops[..n]) + if ops[n].Restart? then [] else [ops[n]]
  }

  /** The replies to the operations that are not restarts. */
  function ProperReplies(ops: seq<Op>, replies: seq<Reply>): seq<Reply>
    requires |replies| == |ops|
  {
    if ops == [] then []
    else
      var n := |ops| - 1;
      ProperReplies(ops[..n], replies[..n]) + if ops[n].Restart? then [] else [replies[n]]
  }

  lemma {:induction false} OneAnswerEach(s: State, ops: seq<Op>)
    ensures |Answers(s, ops)| == |ops|
  {
    if ops != [] {
      OneAnswerEach(s, ops[..|ops| - 1]);
    }
  }

  /** Leaving restarts out of a run changes no state and no other answer. */
  lemma {:induction false} RestartsInvisible(s: State, ops: seq<Op>)
    ensures Run(s, ops) == Run(s, Proper(ops))
    ensures |Answers(s, ops)| == |ops| && ProperReplies(ops, Answers(s, ops)) == Answers(s, Proper(ops))
  {
    OneAnswerEach(s, ops);
    if ops != [] {
      var n := |ops| - 1;
      var front, op := ops[..n], ops[n];
      RestartsInvisible(s, front);
      OneAnswerEach(s, front);
      assert Answers(s, ops)[..n] == Answers(s, front);
      if op.Restart? {
        ReadIsNext(Run(s, front), op);
        assert Proper(ops) == Proper(front);
      } else {
        RunSnoc(s, Proper(front), op);
      }
    }
  }
}
