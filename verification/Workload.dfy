/** What both pipelines report, and the outcome both are proved to have. */
module Workload {
  import opened Wrappers
  import opened Data
  import opened Ring
  import opened Schedule
  import opened IdleTurns
  import Channels
  import Regions
  import Scheduling

  datatype BatchResult = BatchResult(batch: nat, checksum: Word64)

  datatype Stats = Stats(schedulerTurns: nat, idleTurns: nat, messages: nat, bytesProcessed: nat)

  datatype PipelineError =
    | IpcFailure(ipc: Channels.IpcError)
    | MemoryFailure(memory: Regions.MemoryError)
    | ProcessFailure(process: Scheduling.SpawnError)
    | MissingRegion
    | Stalled(turns: nat)

  const NO_STATS: Stats := Stats(0, 0, 0, 0)

  function ReferenceResult(c: Config, b: nat): BatchResult {
    BatchResult(b, ReferenceChecksum(c.seed, b, c.regionSize, c.stages))
  }

  /** The direct computation's results for the first `n` batches, in order. */
  function ReferenceResults(c: Config, n: nat): (rs: seq<BatchResult>)
    ensures |rs| == n
  {
    seq(n, b requires 0 <= b < n => ReferenceResult(c, b))
  }

  /** The statistics the counters account for after `t` turns. */
  function StatsAt(c: Config, t: nat): Stats {
    var sent := Messages(At(c, t).x, c.stages + 2);
    Stats(t, At(c, t).idleTurns, sent, sent * c.regionSize)
  }

  /** The results and statistics of a whole run, or the number of turns after which it gives up. */
  datatype Outcome = Completed(results: seq<BatchResult>, stats: Stats) | GaveUp(turns: nat)

  /** The outcome of every run: only an empty pool with work to do stalls, after one turn more than
      a round; otherwise every batch comes out once, in order, with its reference checksum, after an
      exact number of turns, an exact number of them idle, each batch having been sent `stages + 2` times. */
  function Expected(c: Config): Outcome {
    if c.batches == 0 then Completed([], NO_STATS)
    else if c.pool == 0 then GaveUp(c.stages + 4)
    else
      var hops := c.batches * (c.stages + 2);
      Completed(ReferenceResults(c, c.batches),
                Stats(Turns(c), IdleTurnsOf(c), hops, hops * c.regionSize))
  }

  /** Of all turns a hop takes one for each batch, the producer one for each batch sent and one more for
      each other batch of the last lap; the rest are idle. */
  function IdleTurnsOf(c: Config): nat
    requires c.pool > 0 && c.batches > 0
  {
    IdleTurnsAre(c);
    Turns(c) - c.batches * (c.stages + 2) + 1 - Min(c.batches, Width(c))
  }

  /** How many more turns a run can take: the measure both run loops decrease. */
  function TurnLimit(c: Config): nat {
    if c.batches == 0 then 0 else if c.pool == 0 then c.stages + 4 else Turns(c)
  }

  /** A run that has not finished is inside its turn limit, and its idle streak inside its own,
      except that an empty pool reaches both at once. */
  lemma RunningMeansInsideLimits(c: Config, t: nat)
    requires !Done(c, At(c, t).x) && At(c, t).idle <= Processes(c)
    ensures t < TurnLimit(c)
    ensures c.pool > 0 ==> At(c, t).idle < Processes(c)
  {
    if c.pool == 0 {
      EmptyPoolNeverMoves(c, t);
      AtValid(c, t);
    } else {
      DoneExactlyAt(c, t);
      NeverIdleForARound(c, t);
    }
  }

  lemma StatsWhenDone(c: Config, t: nat)
    requires c.pool > 0 && c.batches > 0 && t == Turns(c) && Done(c, At(c, t).x)
    ensures var hops := c.batches * (c.stages + 2);
            StatsAt(c, t) == Stats(t, IdleTurnsOf(c), hops, hops * c.regionSize)
  {
    AtValid(c, t);
    DoneMeansAllSent(c, At(c, t).x);
    IdleTurnsAre(c);
  }

  lemma FirstDone(c: Config, t: nat)
    requires c.pool > 0 && Done(c, At(c, t).x) && (t > 0 ==> !Done(c, At(c, t - 1).x))
    ensures t == Turns(c)
  {
    DoneExactlyAt(c, t);
    if t > 0 {
      DoneExactlyAt(c, t - 1);
    }
  }

  lemma NothingToDo(c: Config, t: nat)
    requires c.batches == 0 && (t > 0 ==> !Done(c, At(c, t - 1).x))
    ensures StatsAt(c, t) == NO_STATS
  {
    MessagesWhenEqual(Start(c), 0, c.stages + 2);
  }

  /** The first turn at which the sink is done has the completed outcome. */
  lemma FinishedMeansExpected(c: Config, t: nat, results: seq<BatchResult>)
    requires Done(c, At(c, t).x) && (t > 0 ==> !Done(c, At(c, t - 1).x))
    requires results == ReferenceResults(c, At(c, t).x[c.stages + 1])
    ensures Expected(c) == Completed(results, StatsAt(c, t))
  {
    AtValid(c, t);
    DoneMeansAllSent(c, At(c, t).x);
    if c.batches == 0 {
      NothingToDo(c, t);
    } else if c.pool == 0 {
      EmptyPoolNeverMoves(c, t);
    } else {
      FirstDone(c, t);
      StatsWhenDone(c, t);
    }
  }

  /** An idle streak longer than a round happens exactly when there is no region and work to do. */
  lemma StalledMeansExpected(c: Config, t: nat)
    requires !Done(c, At(c, t).x) && At(c, t).idle == Processes(c) + 1
    ensures Expected(c) == GaveUp(t)
  {
    if c.pool > 0 {
      NeverIdleForARound(c, t);
    } else {
      EmptyPoolNeverMoves(c, t);
      AtValid(c, t);
    }
  }

  /** The turn sends a message: every hop that moves a batch on does, and the producer when it may. */
  predicate SendsMessage(c: Config, x: Counters, turn: nat)
    requires |x| == c.stages + 3 && turn < Processes(c)
  {
    if turn == c.stages + 2 then CanSend(c, Drain(c, x)) else Step(c, x, turn).1
  }

  /** The statistics with one more turn in them. */
  function CountTurn(s: Stats, c: Config, sent: bool, progressed: bool): Stats {
    Stats(s.schedulerTurns + 1, if progressed then s.idleTurns else s.idleTurns + 1,
          if sent then s.messages + 1 else s.messages, if sent then s.bytesProcessed + c.regionSize else s.bytesProcessed)
  }

  lemma MessagesStep(c: Config, x: Counters, turn: nat)
    requires |x| == c.stages + 3 && turn < Processes(c)
    ensures Messages(Step(c, x, turn).0, c.stages + 2) ==
            Messages(x, c.stages + 2) + if SendsMessage(c, x, turn) then 1 else 0
  {
    if turn == c.stages + 2 {
      ProducerMessages(c, x);
    } else if 1 <= turn {
      HopMessages(x, InputOf(c, turn) + 1, c.stages + 2);
    }
  }

  lemma {:induction false} ProducerMessages(c: Config, x: Counters)
    requires |x| == c.stages + 3
    ensures Messages(Step(c, x, c.stages + 2).0, c.stages + 2) ==
            Messages(x, c.stages + 2) + if CanSend(c, Drain(c, x)) then 1 else 0
  {
    MessagesIgnoreRest(x, Drain(c, x), c.stages + 2);
    HopMessages(Drain(c, x), 0, c.stages + 2);
  }

  lemma HopMessages(x: Counters, i: nat, n: nat)
    requires i < n <= |x|
    ensures Messages(x[i := x[i] + 1], n) == Messages(x, n) + 1
  {
    MessagesAfterHop(x, i, n);
  }

  /** The statistics of one more turn, from what the turn did. */
  lemma {:induction false} StatsStep(c: Config, t: nat)
    ensures var x, turn := At(c, t).x, TurnAt(c, t);
            StatsAt(c, t + 1) == CountTurn(StatsAt(c, t), c, SendsMessage(c, x, turn), Step(c, x, turn).1)
  {
    var sent := Messages(At(c, t).x, c.stages + 2);
    MessagesStep(c, At(c, t).x, TurnAt(c, t));
    assert (sent + 1) * c.regionSize == sent * c.regionSize + c.regionSize;
  }

  /** The result the sink adds on the turn at position `turn`, if it adds one. */
  function ResultOf(c: Config, x: Counters, turn: nat): Option<BatchResult>
    requires |x| == c.stages + 3 && turn < Processes(c)
  {
    if turn == 1 && Step(c, x, turn).1 then Some(ReferenceResult(c, x[c.stages + 1])) else None
  }

  function AddResult(results: seq<BatchResult>, r: Option<BatchResult>): seq<BatchResult> {
    if r.Some? then results + [r.value] else results
  }

  lemma ResultsGrow(c: Config, n: nat)
    ensures ReferenceResults(c, n + 1) == ReferenceResults(c, n) + [ReferenceResult(c, n)]
  {
  }

  lemma {:induction false} ResultsStep(c: Config, x: Counters, turn: nat)
    requires |x| == c.stages + 3 && turn < Processes(c)
    ensures ReferenceResults(c, Step(c, x, turn).0[c.stages + 1]) ==
            AddResult(ReferenceResults(c, x[c.stages + 1]), ResultOf(c, x, turn))
  {
    ResultsGrow(c, x[c.stages + 1]);
    SinkCounter(c, x, turn);
  }

  lemma SinkCounter(c: Config, x: Counters, turn: nat)
    requires |x| == c.stages + 3 && turn < Processes(c)
    ensures Step(c, x, turn).0[c.stages + 1] == x[c.stages + 1] + if turn == 1 && Step(c, x, turn).1 then 1 else 0
  {
  }

  /** Where a run is after `t` turns: its report is the one the counters stand for. */
  ghost predicate Tracks(c: Config, t: nat, results: seq<BatchResult>, stats: Stats, idle: nat) {
    && t <= TurnLimit(c) && (t > 0 ==> !Done(c, At(c, t - 1).x))
    && results == ReferenceResults(c, At(c, t).x[c.stages + 1])
    && stats == StatsAt(c, t) && idle == At(c, t).idle <= Processes(c)
  }

  lemma TracksStart(c: Config)
    ensures Tracks(c, 0, [], NO_STATS, 0)
  {
    MessagesWhenEqual(Start(c), 0, c.stages + 2);
  }

  /** One turn of a run that has not finished: either it is tracked on, or it has stalled as expected. */
  lemma {:induction false} TracksStep(c: Config, t: nat, results: seq<BatchResult>, stats: Stats, idle: nat)
    requires Tracks(c, t, results, stats, idle) && |results| < c.batches
    ensures var x, turn := At(c, t).x, TurnAt(c, t); var progressed := Step(c, x, turn).1;
            var idle' := if progressed then 0 else idle + 1;
            var stats' := CountTurn(stats, c, SendsMessage(c, x, turn), progressed);
            && t < TurnLimit(c) && Valid(c, x) && At(c, t + 1).x == Step(c, x, turn).0
            && (idle' <= Processes(c) ==> Tracks(c, t + 1, AddResult(results, ResultOf(c, x, turn)), stats', idle'))
            && (idle' > Processes(c) ==> Expected(c) == GaveUp(stats'.schedulerTurns))
  {
    var x, turn := At(c, t).x, TurnAt(c, t);
    AtValid(c, t);
    RunningMeansInsideLimits(c, t);
    StatsStep(c, t);
    ResultsStep(c, x, turn);
    StepAt(c, t);
    if !Step(c, x, turn).1 {
      StepKeepsValid(c, x, turn);
      if idle == Processes(c) {
        StalledMeansExpected(c, t + 1);
      }
    }
  }
}
