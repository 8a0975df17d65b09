/** The heartbeat protocol for one tracked connection: each interval sweep
    terminates it if it is unconfirmed, otherwise marks it unconfirmed and pings
    it; a pong marks it alive again. */
module Liveness {

  /** `Alive` and `Unconfirmed` are an open socket with `isAlive` true or false;
      `Down` is a socket no longer open. */
  datatype Phase = Alive | Unconfirmed | Down

  /** One event of the protocol for this connection: a sweep of the interval
      timer, or a pong from its peer. */
  datatype Beat = Probe | Answer

  function LiveStep(p: Phase, b: Beat): Phase {
    match b
    case Probe => if p == Alive then Unconfirmed else Down
    case Answer => if p == Down then Down else Alive
  }

  function LiveRun(p: Phase, bs: seq<Beat>): Phase
    decreases |bs|
  {
    if bs == [] then p else LiveRun(LiveStep(p, bs[0]), bs[1..])
  }

  /** Two sweeps in a row with no pong between them. */
  predicate MissedTwice(bs: seq<Beat>) {
    exists i :: 0 <= i < |bs| - 1 && bs[i] == Probe && bs[i + 1] == Probe
  }

  lemma {:induction false} DownIsFinal(bs: seq<Beat>)
    ensures LiveRun(Down, bs) == Down
    decreases |bs|
  {
    if bs != [] {
      DownIsFinal(bs[1..]);
    }
  }

  lemma MissedTwiceUnfold(bs: seq<Beat>)
    requires bs != []
    ensures MissedTwice(bs) <==> (|bs| > 1 && bs[0] == Probe && bs[1] == Probe) || MissedTwice(bs[1..])
  {
    var tail := bs[1..];
    if MissedTwice(tail) {
      var i :| 0 <= i < |tail| - 1 && tail[i] == Probe && tail[i + 1] == Probe;
      assert bs[i + 1] == Probe && bs[i + 2] == Probe;
    }
    if MissedTwice(bs) {
      var i :| 0 <= i < |bs| - 1 && bs[i] == Probe && bs[i + 1] == Probe;
      if i > 0 {
        assert tail[i - 1] == Probe && tail[i] == Probe;
      }
    }
  }

  /** Grace of exactly one interval: a connection that starts alive goes down
      exactly when two sweeps follow each other with no pong between them; one
      left unconfirmed goes down at the very next sweep, or later on the same terms. */
  lemma {:induction false} DownIffMissedTwice(bs: seq<Beat>)
    ensures LiveRun(Alive, bs) == Down <==> MissedTwice(bs)
    ensures LiveRun(Unconfirmed, bs) == Down <==> (bs != [] && bs[0] == Probe) || MissedTwice(bs)
    decreases |bs|
  {
    if bs != [] {
      var tail := bs[1..];
      DownIffMissedTwice(tail);
      DownIsFinal(tail);
      MissedTwiceUnfold(bs);
    }
  }

  /** A pong always cancels the pending termination of a socket still open. */
  lemma {:induction false} AnswerRestores(p: Phase, bs: seq<Beat>)
    requires LiveRun(p, bs) != Down
    ensures LiveRun(p, bs + [Answer]) == Alive
    decreases |bs|
  {
    if bs != [] {
      assert (bs + [Answer])[1..] == bs[1..] + [Answer];
      AnswerRestores(LiveStep(p, bs[0]), bs[1..]);
    }
  }
}
