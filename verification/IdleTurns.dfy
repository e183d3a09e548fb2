/** How many turns of a whole run make no progress: a closed form of the batches, the pool and the stages. */
module IdleTurns {
  import opened Ring
  import opened Schedule

  /** Turn `t` is one of the producer's in which it takes back or sends. */
  predicate BusyTurn(c: Config, t: nat) {
    TurnAt(c, t) == c.stages + 2 && Step(c, At(c, t).x, c.stages + 2).1
  }

  /** How many of the first `t` turns are such. */
  function BusyTurns(c: Config, t: nat): nat {
    if t == 0 then 0 else BusyTurns(c, t - 1) + if BusyTurn(c, t - 1) then 1 else 0
  }

  /** The producer sends or takes back in round `r`. */
  predicate BusyRound(c: Config, r: nat) {
    SentBy(c, r) < SentBy(c, r + 1) || SentBy(c, r - c.stages - 1) < SentBy(c, r - c.stages)
  }

  /** In how many of the first `r` rounds it does. */
  function BusyRounds(c: Config, r: nat): nat {
    if r == 0 then 0 else BusyRounds(c, r - 1) + if BusyRound(c, r - 1) then 1 else 0
  }

  function TurnsOver(c: Config): (f: nat -> nat)
    ensures forall t :: f(t) == BusyTurns(c, t)
  {
    t => BusyTurns(c, t)
  }

  function RoundsOver(c: Config): (f: nat -> nat)
    ensures forall r :: f(r) == BusyRounds(c, r)
  {
    r => BusyRounds(c, r)
  }

  // ---- every turn is idle, a hop, or a busy turn of the producer ----

  /** Hops of the sink and the transformers. */
  function Passed(c: Config, x: Counters): int
    requires |x| == c.stages + 3
  {
    Messages(x, c.stages + 2) - x[0]
  }

  lemma PassedStep(c: Config, x: Counters, turn: nat)
    requires |x| == c.stages + 3 && turn < Processes(c)
    ensures Passed(c, Step(c, x, turn).0) == Passed(c, x) + if turn <= c.stages + 1 && Step(c, x, turn).1 then 1 else 0
  {
    if turn == c.stages + 2 {
      MessagesIgnoreRest(x, Drain(c, x), c.stages + 2);
      MessagesAfterHop(Drain(c, x), 0, c.stages + 2);
    } else if turn > 0 {
      MessagesAfterHop(x, InputOf(c, turn) + 1, c.stages + 2);
    }
  }

  lemma {:induction false} TurnsSplit(c: Config, t: nat)
    ensures At(c, t).idleTurns + Passed(c, At(c, t).x) + BusyTurns(c, t) == t
  {
    if t == 0 {
      MessagesWhenEqual(Start(c), 0, c.stages + 2);
    } else {
      TurnsSplit(c, t - 1);
      PassedStep(c, At(c, t - 1).x, TurnAt(c, t - 1));
    }
  }

  // ---- the producer acts once a round, last ----

  /** Busy turns up to `t` only grow on the producer's. */
  ghost predicate SteadyAt(c: Config, turns: nat -> nat, t: nat) {
    TurnAt(c, t) != c.stages + 2 ==> turns(t + 1) == turns(t)
  }

  /** The producer's turn of round `r` is busy if the round is. */
  ghost predicate InStepAt(c: Config, turns: nat -> nat, rounds: nat -> nat, r: nat) {
    turns(FirstTurn(c, r) + c.stages + 3) + rounds(r) == turns(FirstTurn(c, r) + c.stages + 2) + rounds(r + 1)
  }

  lemma {:induction false} BusyWithinRound(c: Config, turns: nat -> nat, r: nat, j: nat)
    requires (forall t: nat :: SteadyAt(c, turns, t)) && j <= c.stages + 2
    ensures turns(FirstTurn(c, r) + j) == turns(FirstTurn(c, r))
  {
    if j > 0 {
      BusyWithinRound(c, turns, r, j - 1);
      PositionInRound(c, r, j - 1);
      assert SteadyAt(c, turns, FirstTurn(c, r) + (j - 1));
    }
  }

  lemma {:induction false} BusyByRound(c: Config, turns: nat -> nat, rounds: nat -> nat, r: nat)
    requires (forall t: nat :: SteadyAt(c, turns, t)) && turns(0) == rounds(0)
    requires forall k: nat :: InStepAt(c, turns, rounds, k)
    ensures turns(FirstTurn(c, r)) == rounds(r)
  {
    if r > 0 {
      BusyByRound(c, turns, rounds, r - 1);
      BusyWithinRound(c, turns, r - 1, c.stages + 2);
      assert InStepAt(c, turns, rounds, r - 1);
    }
  }

  lemma ExpectedBusy(c: Config, sent: int -> nat, r: nat)
    requires GrowsAt(c, sent, r) && sent(r - c.stages - 1) <= sent(r - c.stages)
    ensures Step(c, Schedule.Expected(c, sent, r, c.stages + 2), c.stages + 2).1 <==>
            sent(r) < sent(r + 1) || sent(r - c.stages - 1) < sent(r - c.stages)
  {
    var x := Schedule.Expected(c, sent, r, c.stages + 2);
    assert x[0] == sent(r) && x[c.stages + 1] == sent(r - c.stages) && x[c.stages + 2] == sent(r - c.stages - 1);
  }

  lemma BusyOver(c: Config, sent: int -> nat, r: nat, x: Counters)
    requires Supplies(c, sent) && x == Schedule.Expected(c, sent, r, c.stages + 2)
    ensures Step(c, x, c.stages + 2).1 <==> sent(r) < sent(r + 1) || sent(r - c.stages - 1) < sent(r - c.stages)
  {
    assert GrowsAt(c, sent, r) && GrowsAt(c, sent, r - c.stages - 1);
    ExpectedBusy(c, sent, r);
  }

  lemma BusyRoundIs(c: Config, sent: int -> nat, r: nat)
    requires sent == SentOver(c)
    ensures BusyRound(c, r) <==> sent(r) < sent(r + 1) || sent(r - c.stages - 1) < sent(r - c.stages)
  {
  }

  lemma BusyTurnIs(c: Config, sent: int -> nat, r: nat, t: nat)
    requires c.pool > 0 && sent == SentOver(c) && Supplies(c, sent) && t == FirstTurn(c, r) + c.stages + 2
    ensures BusyTurn(c, t) <==> BusyRound(c, r)
  {
    PositionInRound(c, r, c.stages + 2);
    AtFollows(c, r, c.stages + 2);
    BusyOver(c, sent, r, At(c, t).x);
    BusyRoundIs(c, sent, r);
  }

  lemma TurnsInStep(c: Config, r: nat)
    requires c.pool > 0
    ensures InStepAt(c, TurnsOver(c), RoundsOver(c), r)
  {
    SentBySupplies(c);
    BusyTurnIs(c, SentOver(c), r, FirstTurn(c, r) + c.stages + 2);
  }

  // ---- in which rounds it acts ----

  /** What holds of round `r` in a ring of `n` rounds a lap: it is busy when something is sent or taken
      back, and after the first lap a send goes with something taken back. */
  ghost predicate BusyAt(rounds: nat -> nat, sent: int -> nat, n: nat, r: nat) {
    && rounds(r + 1) == rounds(r) + (if sent(r) < sent(r + 1) || sent(r - n) < sent(r + 1 - n) then 1 else 0)
    && sent(r) <= sent(r + 1) <= sent(r) + 1 && sent(r - n) <= sent(r + 1 - n) <= sent(r - n) + 1
    && (if r < n then sent(r - n) == sent(r + 1 - n) else sent(r) < sent(r + 1) ==> sent(r - n) < sent(r + 1 - n))
  }

  /** In the first lap the busy rounds are the sends. */
  lemma {:induction false} BusyFirstLap(rounds: nat -> nat, sent: int -> nat, n: nat, r: nat)
    requires sent(0) == rounds(0) == 0 && (forall k: nat :: BusyAt(rounds, sent, n, k)) && r <= n
    ensures rounds(r) == sent(r)
  {
    if r > 0 {
      BusyFirstLap(rounds, sent, n, r - 1);
      assert BusyAt(rounds, sent, n, r - 1);
    }
  }

  /** After it they are the rounds in which something is taken back. */
  lemma {:induction false} BusyLater(rounds: nat -> nat, sent: int -> nat, n: nat, r: nat)
    requires sent(0) == rounds(0) == 0 && forall k: nat :: BusyAt(rounds, sent, n, k)
    ensures rounds(n + r) == sent(n) + sent(r)
  {
    if r == 0 {
      BusyFirstLap(rounds, sent, n, n);
    } else {
      BusyLater(rounds, sent, n, r - 1);
      assert BusyAt(rounds, sent, n, n + r - 1);
      assert n + r - 1 - n == r - 1 && n + r - 1 + 1 - n == r;
    }
  }

  lemma TakesWhenSending(c: Config, r: nat)
    requires r > c.stages && SentBy(c, r) < SentBy(c, r + 1)
    ensures SentBy(c, r - c.stages - 1) < SentBy(c, r - c.stages)
  {
    NextLap(c, r - c.stages - 1);
    SupplyMonotone(c, r - c.stages, r);
  }

  lemma BusyIs(c: Config, sent: int -> nat, r: nat)
    requires sent == SentOver(c)
    ensures BusyAt(RoundsOver(c), sent, c.stages + 1, r)
  {
    SentStep(c, r);
    SentStep(c, r - c.stages - 1);
    if r > c.stages && SentBy(c, r) < SentBy(c, r + 1) {
      TakesWhenSending(c, r);
    }
    BusyRoundIs(c, sent, r);
  }

  // ---- over the whole run ----

  lemma BusyRoundsInAll(c: Config, rounds: nat -> nat, sent: int -> nat, lap: nat, last: nat)
    requires lap == c.stages + 1 && c.pool > 0 && c.batches > 0 && last == RoundOf(c, c.batches - 1) && sent == SentOver(c) && rounds(0) == 0
    requires forall r: nat :: BusyAt(rounds, sent, lap, r)
    ensures rounds(lap + last) == c.batches - 1 + Min(c.batches, Width(c))
  {
    BusyLater(rounds, sent, lap, last);
    FirstLap(c, lap);
    SupplyAtRound(c, c.batches - 1);
  }

  lemma BusyTurnsInAll(c: Config, turns: nat -> nat, rounds: nat -> nat, last: nat)
    requires c.pool > 0 && c.batches > 0 && last == RoundOf(c, c.batches - 1) && turns(0) == rounds(0)
    requires (forall t: nat :: SteadyAt(c, turns, t)) && forall r: nat :: InStepAt(c, turns, rounds, r)
    ensures turns(Turns(c)) == rounds(c.stages + 1 + last)
  {
    var round := c.stages + 1 + last;
    FirstTurnIs(c, round);
    BusyByRound(c, turns, rounds, round);
    BusyWithinRound(c, turns, round, 2);
  }

  lemma TurnsAreRounds(c: Config, last: nat)
    requires c.pool > 0 && c.batches > 0 && last == RoundOf(c, c.batches - 1)
    ensures BusyTurns(c, Turns(c)) == BusyRounds(c, c.stages + 1 + last)
  {
    var turns, rounds := TurnsOver(c), RoundsOver(c);
    forall t: nat ensures SteadyAt(c, turns, t) {
    }
    forall r: nat ensures InStepAt(c, turns, rounds, r) {
      TurnsInStep(c, r);
    }
    BusyTurnsInAll(c, turns, rounds, last);
  }

  lemma RoundsInAll(c: Config, lap: nat, last: nat)
    requires c.pool > 0 && c.batches > 0 && last == RoundOf(c, c.batches - 1) && lap == c.stages + 1
    ensures BusyRounds(c, lap + last) == c.batches - 1 + Min(c.batches, Width(c))
  {
    var sent, rounds := SentOver(c), RoundsOver(c);
    forall r: nat ensures BusyAt(rounds, sent, lap, r) {
      BusyIs(c, sent, r);
    }
    BusyRoundsInAll(c, rounds, sent, lap, last);
  }

  /** The producer is busy once for every batch, and once more for every other batch of the last lap,
      which it takes back without sending. */
  lemma BusyInAll(c: Config)
    requires c.pool > 0 && c.batches > 0
    ensures BusyTurns(c, Turns(c)) == c.batches - 1 + Min(c.batches, Width(c))
  {
    TurnsAreRounds(c, RoundOf(c, c.batches - 1));
    RoundsInAll(c, c.stages + 1, RoundOf(c, c.batches - 1));
  }

  /** The turns of a run, less its hops and the producer's busy turns. */
  lemma IdleTurnsAre(c: Config)
    requires c.pool > 0 && c.batches > 0
    ensures At(c, Turns(c)).idleTurns == Turns(c) - c.batches * (c.stages + 2) + 1 - Min(c.batches, Width(c))
  {
    var x := At(c, Turns(c)).x;
    TurnsSplit(c, Turns(c));
    BusyInAll(c);
    DoneExactlyAt(c, Turns(c));
    AtValid(c, Turns(c));
    DoneMeansAllSent(c, x);
  }
}
