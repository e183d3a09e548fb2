/** The ring pipeline with its data stripped away: how many batches each hop has passed on.
    Both pipelines are proved to move these counters, so the schedule is analysed here once.

    Counter 0 is what the producer has sent, counter `i + 1` what transformer `i` has passed on,
    counter `stages + 1` what the sink has finished, and counter `stages + 2` what the producer
    has taken back. Channel `c` then holds batches `x[c + 1] .. x[c]`, oldest first. */
module Ring {
  import opened Data

  datatype Config = Config(batches: nat, regionSize: nat, pool: nat, stages: nat, seed: Word64, trace: bool)

  type Counters = seq<nat>

  /** Supervisor, sink, transformers from the last to the first, producer. */
  function Processes(c: Config): nat {
    c.stages + 3
  }

  function Start(c: Config): Counters {
    seq(c.stages + 3, _ => 0)
  }

  /** Later hops are never ahead of earlier ones, and no more batches are out than there are regions. */
  ghost predicate Valid(c: Config, x: Counters) {
    && |x| == c.stages + 3
    && (forall i :: 0 <= i < c.stages + 2 ==> x[i + 1] <= x[i])
    && x[0] <= c.batches && x[0] <= x[c.stages + 2] + c.pool
  }

  /** The channel the process at position `turn` of the round consumes, for the sink and transformers. */
  function InputOf(c: Config, turn: nat): nat
    requires 1 <= turn <= c.stages + 1
  {
    c.stages + 1 - turn
  }

  function Drain(c: Config, x: Counters): Counters
    requires |x| == c.stages + 3
  {
    x[c.stages + 2 := x[c.stages + 1]]
  }

  predicate CanSend(c: Config, x: Counters)
    requires |x| == c.stages + 3
  {
    x[0] < c.batches && x[0] < x[c.stages + 2] + c.pool
  }

  /** One turn of the process at position `turn`: the new counters, and whether it did anything. */
  function Step(c: Config, x: Counters, turn: nat): (Counters, bool)
    requires |x| == c.stages + 3 && turn < Processes(c)
  {
    if turn == 0 then (x, false)
    else if turn <= c.stages + 1 then
      var i := InputOf(c, turn);
      if x[i + 1] < x[i] then (x[i + 1 := x[i + 1] + 1], true) else (x, false)
    else
      var y := Drain(c, x);
      if CanSend(c, y) then (y[0 := y[0] + 1], true) else (y, x[c.stages + 2] < x[c.stages + 1])
  }

  /** The next position of a round of `n`. */
  function Following(n: nat, at: nat): nat {
    if at + 1 == n then 0 else at + 1
  }

  /** The position whose turn it is after `t` turns. */
  function TurnAt(c: Config, t: nat): (p: nat)
    ensures p < Processes(c)
  {
    if t == 0 then 0 else Following(Processes(c), TurnAt(c, t - 1))
  }

  /** The round-robin is the turn count modulo the number of processes. */
  lemma {:induction false} TurnAtIsRemainder(c: Config, t: nat)
    ensures TurnAt(c, t) == t % Processes(c)
  {
    if t > 0 {
      TurnAtIsRemainder(c, t - 1);
      ModSuccessor(t - 1, Processes(c));
    }
  }

  /** The counters after `t` turns, the current streak of idle turns, and all idle turns so far. */
  datatype State = State(x: Counters, idle: nat, idleTurns: nat)

  function At(c: Config, t: nat): (s: State)
    ensures |s.x| == c.stages + 3
  {
    if t == 0 then State(Start(c), 0, 0)
    else
      var s := At(c, t - 1);
      var (x, progressed) := Step(c, s.x, TurnAt(c, t - 1));
      if progressed then State(x, 0, s.idleTurns) else State(x, s.idle + 1, s.idleTurns + 1)
  }

  predicate Done(c: Config, x: Counters)
    requires |x| == c.stages + 3
  {
    x[c.stages + 1] >= c.batches
  }

  lemma StepKeepsValid(c: Config, x: Counters, turn: nat)
    requires Valid(c, x) && turn < Processes(c)
    ensures Valid(c, Step(c, x, turn).0)
    ensures !Step(c, x, turn).1 ==> Step(c, x, turn).0 == x
  {
  }

  lemma {:induction false} AtValid(c: Config, t: nat)
    ensures Valid(c, At(c, t).x)
  {
    if t > 0 {
      AtValid(c, t - 1);
      StepKeepsValid(c, At(c, t - 1).x, TurnAt(c, t - 1));
    }
  }

  lemma {:induction false} Descending(c: Config, x: Counters, i: nat, j: nat)
    requires Valid(c, x) && i <= j < c.stages + 3
    ensures x[j] <= x[i]
    decreases j
  {
    if i < j {
      Descending(c, x, i, j - 1);
    }
  }

  /** Messages sent so far: every hop but the drain sends one message per batch. */
  function Messages(x: Counters, n: nat): nat
    requires n <= |x|
  {
    if n == 0 then 0 else Messages(x, n - 1) + x[n - 1]
  }

  lemma {:induction false} MessagesAfterHop(x: Counters, i: nat, n: nat)
    requires i < |x| && n <= |x|
    ensures Messages(x[i := x[i] + 1], n) == Messages(x, n) + if i < n then 1 else 0
  {
    if n > 0 {
      MessagesAfterHop(x, i, n - 1);
    }
  }

  lemma {:induction false} MessagesIgnoreRest(x: Counters, y: Counters, n: nat)
    requires n <= |x| && n <= |y| && forall i :: 0 <= i < n ==> x[i] == y[i]
    ensures Messages(x, n) == Messages(y, n)
  {
    if n > 0 {
      MessagesIgnoreRest(x, y, n - 1);
    }
  }

  lemma {:induction false} MessagesWhenEqual(x: Counters, b: nat, n: nat)
    requires n <= |x| && forall i :: 0 <= i < n ==> x[i] == b
    ensures Messages(x, n) == n * b
  {
    if n > 0 {
      MessagesWhenEqual(x, b, n - 1);
      assert n * b == (n - 1) * b + b;
    }
  }

  /** When the sink is done every hop has passed every batch on. */
  lemma {:induction false} DoneMeansAllSent(c: Config, x: Counters)
    requires Valid(c, x) && Done(c, x)
    ensures forall i :: 0 <= i <= c.stages + 1 ==> x[i] == c.batches
    ensures Messages(x, c.stages + 2) == c.batches * (c.stages + 2)
  {
    forall i | 0 <= i <= c.stages + 1 ensures x[i] == c.batches {
      Descending(c, x, 0, i);
      Descending(c, x, i, c.stages + 1);
    }
    MessagesWhenEqual(x, c.batches, c.stages + 2);
  }

  // ---- deadlock freedom ----

  ghost predicate Enabled(c: Config, x: Counters, turn: nat)
    requires |x| == c.stages + 3
  {
    turn < Processes(c) && Step(c, x, turn).1
  }

  /** With a region in the pool and work left, some process can always do something. */
  lemma {:induction false} SomeoneEnabled(c: Config, x: Counters) returns (turn: nat)
    requires Valid(c, x) && c.pool > 0 && !Done(c, x)
    ensures Enabled(c, x, turn)
  {
    if i :| 0 <= i <= c.stages && x[i + 1] < x[i] {
      turn := c.stages + 1 - i;
    } else {
      assert forall i :: 0 <= i <= c.stages ==> x[i + 1] == x[i];
      AllEqual(c, x, c.stages + 1);
      turn := c.stages + 2;
    }
  }

  lemma {:induction false} AllEqual(c: Config, x: Counters, n: nat)
    requires Valid(c, x) && n <= c.stages + 1
    requires forall i :: 0 <= i <= c.stages ==> x[i + 1] == x[i]
    ensures x[n] == x[0]
  {
    if n > 0 {
      AllEqual(c, x, n - 1);
    }
  }

  /** Turns until position `turn` of the round comes up, from turn `t` on. */
  function Wait(c: Config, t: nat, turn: nat): nat
    requires turn < Processes(c)
  {
    var now := TurnAt(c, t);
    if now <= turn then turn - now else turn + Processes(c) - now
  }

  lemma ModSuccessor(t: nat, n: nat)
    requires n > 0
    ensures (t + 1) % n == if t % n == n - 1 then 0 else t % n + 1
  {
    var q, r := t / n, t % n;
    assert t == q * n + r;
    if r == n - 1 {
      assert t + 1 == (q + 1) * n;
      ModOfSum(q + 1, 0, n);
    } else {
      ModOfSum(q, r + 1, n);
    }
  }

  lemma ModOfSum(q: nat, r: nat, n: nat)
    requires r < n
    ensures (q * n + r) % n == r && (q * n + r) / n == q
  {
    var a := q * n + r;
    var q', r' := a / n, a % n;
    assert a == q' * n + r';
    QuotientUnique(q, r, q', r', n);
  }

  lemma QuotientUnique(q: nat, r: nat, q': nat, r': nat, n: nat)
    requires r < n && r' < n && q * n + r == q' * n + r'
    ensures q == q' && r == r'
  {
    if q < q' {
      Scale(q + 1, q', n);
    } else if q' < q {
      Scale(q' + 1, q, n);
    }
  }

  lemma Scale(a: nat, b: nat, n: nat)
    requires a <= b
    ensures a * n <= b * n
  {
  }

  lemma StepAt(c: Config, t: nat)
    ensures var (x, progressed) := Step(c, At(c, t).x, TurnAt(c, t));
            At(c, t + 1).x == x && At(c, t + 1).idle == if progressed then 0 else At(c, t).idle + 1
  {
  }

  /** An idle turn brings the turn of whoever is able to act one closer. */
  lemma IdleNext(c: Config, t: nat, turn: nat)
    requires At(c, t + 1).idle > 0 && Enabled(c, At(c, t).x, turn) && At(c, t).idle + Wait(c, t, turn) < Processes(c)
    ensures Enabled(c, At(c, t + 1).x, turn) && At(c, t + 1).idle + Wait(c, t + 1, turn) < Processes(c)
  {
    IdleTurnChangesNothing(c, t);
  }

  lemma WaitBound(c: Config, t: nat, turn: nat)
    requires turn < Processes(c)
    ensures Wait(c, t, turn) < Processes(c)
  {
  }

  /** While work is left, someone able to act gets a turn before a full round of idle turns is up. */
  lemma {:induction false} IdleBounded(c: Config, t: nat) returns (turn: nat)
    requires c.pool > 0 && !Done(c, At(c, t).x)
    ensures Enabled(c, At(c, t).x, turn)
    ensures At(c, t).idle + Wait(c, t, turn) < Processes(c)
  {
    if At(c, t).idle == 0 {
      AtValid(c, t);
      turn := SomeoneEnabled(c, At(c, t).x);
      WaitBound(c, t, turn);
    } else {
      IdleTurnChangesNothing(c, t - 1);
      turn := IdleBounded(c, t - 1);
      IdleNext(c, t - 1, turn);
    }
  }

  lemma IdleTurnChangesNothing(c: Config, t: nat)
    requires At(c, t + 1).idle > 0
    ensures !Enabled(c, At(c, t).x, TurnAt(c, t))
    ensures At(c, t + 1).x == At(c, t).x && At(c, t + 1).idle == At(c, t).idle + 1
  {
    AtValid(c, t);
    StepKeepsValid(c, At(c, t).x, TurnAt(c, t));
  }

  /** Deadlock freedom: with a region in the pool, no window of one full round is idle. */
  lemma NeverIdleForARound(c: Config, t: nat)
    requires c.pool > 0 && !Done(c, At(c, t).x)
    ensures At(c, t).idle < Processes(c)
  {
    var _ := IdleBounded(c, t);
  }

  /** With no region at all nothing ever happens. */
  lemma {:induction false} EmptyPoolNeverMoves(c: Config, t: nat)
    requires c.pool == 0
    ensures At(c, t) == State(Start(c), t, t)
  {
    if t > 0 {
      EmptyPoolNeverMoves(c, t - 1);
      assert Drain(c, Start(c)) == Start(c);
    }
  }
}
