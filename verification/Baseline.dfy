/** The pipeline with ambient authority: plain queues and plain buffers, clocks optional. */
module Baseline {
  import opened Wrappers
  import opened Data
  import opened Ring
  import opened Clocks
  import opened Workload
  import Regions

  datatype Message = Message(batch: nat, region: seq<byte>, stamp: Option<Stamp>)

  datatype Report = Report(results: seq<BatchResult>, stats: Stats)

  /** Channel `i` holds exactly the batches between its two counters, oldest first, each worked on
      by the first `i` stages. */
  ghost predicate Carries(c: Config, x: Counters, i: nat, q: seq<Message>)
    requires |x| == c.stages + 3 && i <= c.stages
  {
    && |q| + x[i + 1] == x[i]
    && forall k :: 0 <= k < |q| ==>
         q[k].batch == x[i + 1] + k && q[k].region == WorkedBytes(c.seed, x[i + 1] + k, c.regionSize, i)
  }

  /** Everything the stages share, and their clocks. */
  datatype Net = Net(chan: seq<seq<Message>>, back: seq<Message>, pool: seq<seq<byte>>, nextBatch: nat, clocks: seq<Stamp>)

  /** The queues and the pool are what the counters say. */
  ghost predicate Shows(c: Config, x: Counters, net: Net) {
    && Valid(c, x)
    && |net.chan| == c.stages + 1 && (forall i :: 0 <= i <= c.stages ==> Carries(c, x, i, net.chan[i]))
    && |net.back| + x[c.stages + 2] == x[c.stages + 1]
    && (forall k :: 0 <= k < |net.back| ==> |net.back[k].region| == c.regionSize)
    && |net.pool| + x[0] == c.pool + x[c.stages + 2]
    && (forall k :: 0 <= k < |net.pool| ==> |net.pool[k]| == c.regionSize)
    && net.nextBatch == x[0] && |net.clocks| == Processes(c)
  }

  /** A send event at stage `i`, recorded only when clocks are on. */
  function SendStamp(clocks: seq<Stamp>, i: nat, on: bool): (r: (seq<Stamp>, Option<Stamp>))
    requires i < |clocks|
    ensures |r.0| == |clocks|
  {
    if on then (clocks[i := LocalEvent(clocks[i])], Some(LocalEvent(clocks[i]))) else (clocks, None)
  }

  function ReceiveStamp(clocks: seq<Stamp>, i: nat, sent: Option<Stamp>): (r: seq<Stamp>)
    requires i < |clocks|
    ensures |r| == |clocks|
  {
    if sent.Some? then clocks[i := ReceiveEvent(clocks[i], sent.value)] else clocks
  }

  lemma PopCarries(c: Config, x: Counters, y: Counters, i: nat, q: seq<Message>)
    requires |x| == |y| == c.stages + 3 && i <= c.stages && Carries(c, x, i, q) && x[i + 1] < x[i]
    requires y[i] == x[i] && y[i + 1] == x[i + 1] + 1
    ensures q != [] && q[0].batch == x[i + 1] && q[0].region == WorkedBytes(c.seed, x[i + 1], c.regionSize, i)
    ensures Carries(c, y, i, q[1..])
  {
  }

  lemma {:induction false} PushCarries(c: Config, x: Counters, y: Counters, i: nat, q: seq<Message>, m: Message)
    requires |x| == |y| == c.stages + 3 && i <= c.stages && Carries(c, x, i, q)
    requires y[i] == x[i] + 1 && y[i + 1] == x[i + 1]
    requires m.batch == x[i] && m.region == WorkedBytes(c.seed, x[i], c.regionSize, i)
    ensures Carries(c, y, i, q + [m])
  {
  }

  lemma KeepCarries(c: Config, x: Counters, y: Counters, i: nat, q: seq<Message>)
    requires |x| == |y| == c.stages + 3 && i <= c.stages && Carries(c, x, i, q)
    requires y[i] == x[i] && y[i + 1] == x[i + 1]
    ensures Carries(c, y, i, q)
  {
  }

  /** A transformer's or the sink's turn. */
  method HopTurn(c: Config, ghost x: Counters, net: Net, at: nat, clocksOn: bool)
    returns (after: Net, result: Option<BatchResult>, progressed: bool)
    requires Shows(c, x, net) && 1 <= at <= c.stages + 1
    ensures Shows(c, Step(c, x, at).0, after) && progressed == Step(c, x, at).1
    ensures result == ResultOf(c, x, at)
  {
    var i := InputOf(c, at);
    ghost var y := Step(c, x, at).0;
    StepKeepsValid(c, x, at);
    assert Carries(c, x, i, net.chan[i]);
    if net.chan[i] == [] {
      return net, None, false;
    }
    PopCarries(c, x, y, i, net.chan[i]);
    result, progressed := None, true;
    var m := net.chan[i][0];
    var chan := net.chan[i := net.chan[i][1..]];
    var (clocks, stamp) := SendStamp(ReceiveStamp(net.clocks, at, m.stamp), at, clocksOn);
    var back := net.back;
    if i < c.stages {
      m := Message(m.batch, Transformed(i, m.region), stamp);
      PushCarries(c, x, y, i + 1, chan[i + 1], m);
      chan := chan[i + 1 := chan[i + 1] + [m]];
    } else {
      result := Some(BatchResult(m.batch, Checksum(m.region)));
      back := back + [m.(stamp := stamp)];
    }
    forall k | 0 <= k <= c.stages && k != i && k != i + 1 ensures Carries(c, y, k, chan[k]) {
      KeepCarries(c, x, y, k, chan[k]);
    }
    after := Net(chan, back, net.pool, net.nextBatch, clocks);
  }

  /** Takes every return back, oldest first. */
  method TakeReturns(c: Config, net: Net) returns (after: Net, any: bool)
    requires |net.clocks| == Processes(c)
    requires forall k :: 0 <= k < |net.back| ==> |net.back[k].region| == c.regionSize
    requires forall k :: 0 <= k < |net.pool| ==> |net.pool[k]| == c.regionSize
    ensures after == net.(back := [], pool := after.pool, clocks := after.clocks) && |after.clocks| == Processes(c)
    ensures |after.pool| == |net.pool| + |net.back| && (any <==> net.back != [])
    ensures forall k :: 0 <= k < |after.pool| ==> |after.pool[k]| == c.regionSize
  {
    var back, pool, clocks := net.back, net.pool, net.clocks;
    while back != []
      invariant |clocks| == Processes(c) && |back| + |pool| == |net.pool| + |net.back|
      invariant forall k :: 0 <= k < |back| ==> |back[k].region| == c.regionSize
      invariant forall k :: 0 <= k < |pool| ==> |pool[k]| == c.regionSize
      decreases |back|
    {
      pool := pool + [back[0].region];
      clocks := ReceiveStamp(clocks, c.stages + 2, back[0].stamp);
      back := back[1..];
    }
    after, any := Net(net.chan, [], pool, net.nextBatch, clocks), net.back != [];
  }

  /** The producer takes the returns back before it sends. */
  method ProducerTurn(c: Config, ghost x: Counters, net: Net, clocksOn: bool)
    returns (after: Net, sent: bool, progressed: bool)
    requires Shows(c, x, net)
    ensures Shows(c, Step(c, x, c.stages + 2).0, after) && progressed == Step(c, x, c.stages + 2).1
    ensures sent == SendsMessage(c, x, c.stages + 2)
  {
    StepKeepsValid(c, x, c.stages + 2);
    ghost var y := Step(c, x, c.stages + 2).0;
    after, progressed := TakeReturns(c, net);
    sent := after.nextBatch < c.batches && after.pool != [];
    if sent {
      var m := Message(after.nextBatch, BatchBytes(c.seed, after.nextBatch, |after.pool[0]|), None);
      var (clocks, stamp) := SendStamp(after.clocks, c.stages + 2, clocksOn);
      m := m.(stamp := stamp);
      assert Carries(c, x, 0, net.chan[0]);
      PushCarries(c, x, y, 0, net.chan[0], m);
      after := Net(after.chan[0 := after.chan[0] + [m]], [], after.pool[1..], after.nextBatch + 1, clocks);
      progressed := true;
    }
    forall k | 0 <= k <= c.stages && (k > 0 || !sent) ensures Carries(c, y, k, after.chan[k]) {
      KeepCarries(c, x, y, k, net.chan[k]);
    }
  }

  /** The turn of the process at position `at` of the round. */
  method OneTurn(c: Config, ghost x: Counters, net: Net, at: nat, clocksOn: bool)
    returns (after: Net, result: Option<BatchResult>, sent: bool, progressed: bool)
    requires Shows(c, x, net) && at < Processes(c)
    ensures Shows(c, Step(c, x, at).0, after) && progressed == Step(c, x, at).1
    ensures result == ResultOf(c, x, at) && sent == SendsMessage(c, x, at)
  {
    after, result, sent, progressed := net, None, false, false;
    if at == c.stages + 2 {
      after, sent, progressed := ProducerTurn(c, x, net, clocksOn);
    } else if at > 0 {
      after, result, progressed := HopTurn(c, x, net, at, clocksOn);
      sent := progressed;
    }
  }

  /** One turn, counted. */
  method CountedTurn(c: Config, net: Net, turn: nat, results: seq<BatchResult>, stats: Stats, idleStreak: nat, clocksOn: bool)
    returns (after: Net, results': seq<BatchResult>, stats': Stats, idle: nat)
    requires Shows(c, At(c, turn).x, net) && Tracks(c, turn, results, stats, idleStreak) && |results| < c.batches
    ensures turn < TurnLimit(c)
    ensures if idle <= Processes(c) then Shows(c, At(c, turn + 1).x, after) && Tracks(c, turn + 1, results', stats', idle)
            else Expected(c) == GaveUp(stats'.schedulerTurns)
  {
    TracksStep(c, turn, results, stats, idleStreak);
    TurnAtIsRemainder(c, turn);
    var result, sent, progressed;
    after, result, sent, progressed := OneTurn(c, At(c, turn).x, net, turn % Processes(c), clocksOn);
    results' := AddResult(results, result);
    stats' := CountTurn(stats, c, sent, progressed);
    idle := if progressed then 0 else idleStreak + 1;
  }

  /** Runs the workload. With clocks on or off the outcome is the expected one. */
  method RunBaseline(c: Config, clocks: bool) returns (r: Result<Report, PipelineError>)
    ensures match Expected(c)
            case Completed(results, stats) => r == Ok(Report(results, stats))
            case GaveUp(turns) => r == Err(Stalled(turns))
  {
    var results: seq<BatchResult> := [];
    var stats := NO_STATS;
    var net := Net(seq(c.stages + 1, _ => []), [], seq(c.pool, _ => Regions.Zeros(c.regionSize)), 0,
                   seq(Processes(c), i requires 0 <= i => NewClock(i)));
    var idleStreak: nat := 0;
    var turn: nat := 0;
    TracksStart(c);
    while |results| < c.batches
      invariant Shows(c, At(c, turn).x, net)
      invariant Tracks(c, turn, results, stats, idleStreak)
      decreases TurnLimit(c) - turn
    {
      net, results, stats, idleStreak := CountedTurn(c, net, turn, results, stats, idleStreak, clocks);
      turn := turn + 1;
      if idleStreak > Processes(c) {
        return Err(Stalled(stats.schedulerTurns));
      }
    }
    FinishedMeansExpected(c, turn, results);
    r := Ok(Report(results, stats));
  }
}
