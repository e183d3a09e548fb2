/** The exact schedule of the ring: a closed form for every counter at every turn. */
module Schedule {
  import opened Ring

  /** How many batches go round the ring together. */
  function Width(c: Config): nat {
    if c.pool < c.stages + 1 then c.pool else c.stages + 1
  }

  function Min(a: nat, b: nat): nat {
    if a < b then a else b
  }

  /** The position of round `t` in its lap of `stages + 1` rounds. */
  function LapPosition(c: Config, t: nat): (p: nat)
    ensures p <= c.stages
  {
    if t == 0 || LapPosition(c, t - 1) == c.stages then 0 else LapPosition(c, t - 1) + 1
  }

  /** What an endless producer has sent before round `t`: one batch in each of a lap's first `Width` rounds. */
  function Supply(c: Config, t: nat): nat {
    if t == 0 then 0 else Supply(c, t - 1) + if LapPosition(c, t - 1) < Width(c) then 1 else 0
  }

  /** What the producer has sent before round `t`. */
  function SentBy(c: Config, t: int): nat {
    if t <= 0 then 0 else Min(c.batches, Supply(c, t))
  }

  /** The round in which batch `b` is sent. */
  function RoundOf(c: Config, b: nat): nat
    requires c.pool > 0
  {
    b / Width(c) * (c.stages + 1) + b % Width(c)
  }

  /** How many turns the whole run takes. */
  function Turns(c: Config): nat
    requires c.pool > 0
  {
    if c.batches == 0 then 0
    else (RoundOf(c, c.batches - 1) + c.stages + 1) * (c.stages + 3) + 2
  }

  lemma {:induction false} FirstLap(c: Config, t: nat)
    requires t <= c.stages + 1
    ensures Supply(c, t) == Min(t, Width(c)) && LapPosition(c, t) == if t == c.stages + 1 then 0 else t
  {
    if t > 0 {
      FirstLap(c, t - 1);
    }
  }

  lemma {:induction false} NextLap(c: Config, t: nat)
    ensures LapPosition(c, t + c.stages + 1) == LapPosition(c, t)
    ensures Supply(c, t + c.stages + 1) == Supply(c, t) + Width(c)
  {
    if t == 0 {
      FirstLap(c, c.stages + 1);
    } else {
      NextLap(c, t - 1);
    }
  }

  /** With a region for every hop the producer never waits. */
  lemma {:induction false} SupplyUnlimited(c: Config, t: nat)
    requires c.stages + 1 <= c.pool
    ensures Supply(c, t) == t
  {
    if t > 0 {
      SupplyUnlimited(c, t - 1);
    }
  }

  lemma {:induction false} SupplyMonotone(c: Config, s: nat, t: nat)
    requires s <= t
    ensures Supply(c, s) <= Supply(c, t)
    decreases t
  {
    if s < t {
      SupplyMonotone(c, s, t - 1);
    }
  }

  lemma OneMore(a: nat, n: nat)
    ensures (a + 1) * n == a * n + n
  {
  }

  /** `n` times `a`, without multiplication. */
  function Times(n: nat, a: nat): nat {
    if n == 0 then 0 else Times(n - 1, a) + a
  }

  lemma {:induction false} TimesIs(n: nat, a: nat)
    ensures Times(n, a) == n * a
  {
    if n > 0 {
      TimesIs(n - 1, a);
      OneMore(n - 1, a);
    }
  }

  lemma {:induction false} SupplyByLap(c: Config, lap: nat, p: nat)
    requires p <= c.stages + 1
    ensures Supply(c, Times(lap, c.stages + 1) + p) == Times(lap, Width(c)) + Min(p, Width(c))
  {
    if lap == 0 {
      FirstLap(c, p);
    } else {
      SupplyByLap(c, lap - 1, p);
      NextLap(c, Times(lap - 1, c.stages + 1) + p);
    }
  }

  /** The closed form: `Width` batches a lap. */
  lemma SupplyClosedForm(c: Config, lap: nat, p: nat)
    requires p <= c.stages + 1
    ensures Supply(c, lap * (c.stages + 1) + p) == lap * Width(c) + Min(p, Width(c))
  {
    SupplyByLap(c, lap, p);
    TimesIs(lap, c.stages + 1);
    TimesIs(lap, Width(c));
  }

  /** Batch `b` goes out in its round: `b` batches are out before it and `b + 1` after. */
  lemma SupplyAtRound(c: Config, b: nat)
    requires c.pool > 0
    ensures Supply(c, RoundOf(c, b)) == b && Supply(c, RoundOf(c, b) + 1) == b + 1
  {
    var lap, p := b / Width(c), b % Width(c);
    assert b == lap * Width(c) + p;
    SupplyClosedForm(c, lap, p);
    SupplyClosedForm(c, lap, p + 1);
  }

  lemma SentStep(c: Config, t: int)
    ensures SentBy(c, t) <= SentBy(c, t + 1) <= SentBy(c, t) + 1
  {
  }

  lemma SentAllAfter(c: Config, round: nat, t: int)
    requires c.batches > 0 && Supply(c, round) == c.batches - 1 && Supply(c, round + 1) == c.batches
    ensures SentBy(c, t) == c.batches <==> t > round
  {
    if t > round {
      SupplyMonotone(c, round + 1, t);
    } else if t > 0 {
      SupplyMonotone(c, t, round);
    }
  }

  /** Everything has been sent exactly from the round after the last batch's on. */
  lemma AllSentFrom(c: Config, t: int)
    requires c.pool > 0 && c.batches > 0
    ensures SentBy(c, t) == c.batches <==> t > RoundOf(c, c.batches - 1)
  {
    SupplyAtRound(c, c.batches - 1);
    SentAllAfter(c, RoundOf(c, c.batches - 1), t);
  }

  /** The producer's test at the end of round `t` is whether its supply grows. */
  lemma ProducerSends(c: Config, t: nat)
    requires c.pool > 0
    ensures var sent, back := SentBy(c, t), SentBy(c, t - c.stages);
            SentBy(c, t + 1) == sent + if sent < c.batches && sent < back + c.pool then 1 else 0
  {
    if t <= c.stages {
      FirstLap(c, t);
    } else if c.pool <= c.stages + 1 {
      NextLap(c, t - c.stages);
      SupplyMonotone(c, t - c.stages, t);
    } else {
      SupplyUnlimited(c, t);
      SupplyUnlimited(c, t - c.stages);
    }
  }

  // ---- the counters follow any supply that grows as the producer's test says ----

  /** What holds of a supply at round `t`: none before the start, at most one batch a round, and
      one exactly when the producer's test passes. */
  ghost predicate GrowsAt(c: Config, sent: int -> nat, t: int) {
    && (t <= 0 ==> sent(t) == 0)
    && sent(t) <= sent(t + 1) <= sent(t) + 1
    && (t >= 0 ==>
          sent(t + 1) == sent(t) + if sent(t) < c.batches && sent(t) < sent(t - c.stages) + c.pool then 1 else 0)
  }

  ghost predicate Supplies(c: Config, sent: int -> nat) {
    forall t :: GrowsAt(c, sent, t)
  }

  function SentOver(c: Config): (f: int -> nat)
    ensures forall t :: f(t) == SentBy(c, t)
  {
    t => SentBy(c, t)
  }

  lemma SentBySupplies(c: Config)
    requires c.pool > 0
    ensures Supplies(c, SentOver(c))
  {
    var sent := SentOver(c);
    forall t ensures GrowsAt(c, sent, t) {
      SentStep(c, t);
      if t >= 0 {
        ProducerSends(c, t);
      }
    }
  }

  /** The round up to which hop `i` has passed on everything sent, when `j` turns of round `t` are
      over. Later hops act first within a round; the producer takes back last. */
  function Reached(c: Config, t: nat, j: nat, i: nat): int {
    if i == c.stages + 2 then (if j == c.stages + 3 then t - c.stages else t - c.stages - 1)
    else if i + j >= c.stages + 3 then t + 1 - i
    else t - i
  }

  function Expected(c: Config, sent: int -> nat, t: nat, j: nat): (x: Counters)
    ensures |x| == c.stages + 3
    ensures forall i :: 0 <= i < |x| ==> x[i] == sent(Reached(c, t, j, i))
  {
    seq(c.stages + 3, i requires 0 <= i < c.stages + 3 => sent(Reached(c, t, j, i)))
  }

  lemma ExpectedHop(c: Config, sent: int -> nat, t: nat, j: nat, i: nat)
    requires 1 <= j && i + j == c.stages + 1
    requires GrowsAt(c, sent, t - i - 1)
    ensures Step(c, Expected(c, sent, t, j), j).0 == Expected(c, sent, t, j + 1)
  {
    var x, y := Expected(c, sent, t, j), Expected(c, sent, t, j + 1);
    assert x[i] == sent(t - i) == y[i + 1] && x[i + 1] == sent(t - i - 1);
    assert y == x[i + 1 := y[i + 1]];
  }

  lemma {:induction false} ExpectedProducer(c: Config, sent: int -> nat, t: nat)
    requires GrowsAt(c, sent, t)
    ensures Step(c, Expected(c, sent, t, c.stages + 2), c.stages + 2).0 == Expected(c, sent, t, c.stages + 3)
  {
    var x, y := Expected(c, sent, t, c.stages + 2), Expected(c, sent, t, c.stages + 3);
    assert x[0] == sent(t) && x[c.stages + 1] == sent(t - c.stages) == y[c.stages + 2] && y[0] == sent(t + 1);
    assert y == Drain(c, x)[0 := y[0]];
  }

  lemma ExpectedStep(c: Config, sent: int -> nat, t: nat, j: nat)
    requires Supplies(c, sent) && j < c.stages + 3
    ensures Step(c, Expected(c, sent, t, j), j).0 == Expected(c, sent, t, j + 1)
  {
    if j == 0 {
      assert Expected(c, sent, t, 0) == Expected(c, sent, t, 1);
    } else if j <= c.stages + 1 {
      var i := InputOf(c, j);
      assert GrowsAt(c, sent, t - i - 1);
      ExpectedHop(c, sent, t, j, i);
    } else {
      assert GrowsAt(c, sent, t);
      ExpectedProducer(c, sent, t);
    }
  }

  /** The first turn of round `t`. */
  function FirstTurn(c: Config, t: nat): nat {
    if t == 0 then 0 else FirstTurn(c, t - 1) + c.stages + 3
  }

  lemma {:induction false} FirstTurnIs(c: Config, t: nat)
    ensures FirstTurn(c, t) == t * (c.stages + 3)
  {
    if t > 0 {
      FirstTurnIs(c, t - 1);
      OneMore(t - 1, c.stages + 3);
    }
  }

  lemma {:induction false} PositionInRound(c: Config, t: nat, j: nat)
    requires j <= c.stages + 3
    ensures TurnAt(c, FirstTurn(c, t) + j) == if j == c.stages + 3 then 0 else j
    decreases t, j
  {
    if j > 0 {
      PositionInRound(c, t, j - 1);
    } else if t > 0 {
      PositionInRound(c, t - 1, c.stages + 3);
    }
  }

  /** The counters `xs` give for each turn are those of a run. */
  ghost predicate StepsAt(c: Config, xs: nat -> Counters, t: nat) {
    |xs(t)| == c.stages + 3 && xs(t + 1) == Step(c, xs(t), TurnAt(c, t)).0
  }

  ghost predicate Runs(c: Config, xs: nat -> Counters) {
    xs(0) == Start(c) && forall t: nat :: StepsAt(c, xs, t)
  }

  function CountersOver(c: Config): (f: nat -> Counters)
    ensures forall t :: f(t) == At(c, t).x
  {
    t => At(c, t).x
  }

  lemma AtRuns(c: Config)
    ensures Runs(c, CountersOver(c))
  {
    var xs := CountersOver(c);
    forall t: nat ensures StepsAt(c, xs, t) {
      StepAt(c, t);
    }
  }

  lemma StartExpected(c: Config, sent: int -> nat)
    requires Supplies(c, sent)
    ensures Expected(c, sent, 0, 0) == Start(c)
  {
    forall i | 0 <= i < c.stages + 3 ensures Expected(c, sent, 0, 0)[i] == 0 {
      assert GrowsAt(c, sent, Reached(c, 0, 0, i));
    }
  }

  lemma NextRound(c: Config, sent: int -> nat, t: nat)
    ensures Expected(c, sent, t, c.stages + 3) == Expected(c, sent, t + 1, 0)
  {
  }

  lemma {:induction false} FollowOn(c: Config, sent: int -> nat, xs: nat -> Counters, t: nat, j: nat)
    requires Supplies(c, sent) && Runs(c, xs) && j < c.stages + 3 && xs(FirstTurn(c, t) + j) == Expected(c, sent, t, j)
    ensures xs(FirstTurn(c, t) + j + 1) == Expected(c, sent, t, j + 1)
  {
    PositionInRound(c, t, j);
    assert StepsAt(c, xs, FirstTurn(c, t) + j);
    ExpectedStep(c, sent, t, j);
  }

  /** The closed form holds at every turn of every round. */
  lemma {:induction false} CountersFollow(c: Config, sent: int -> nat, xs: nat -> Counters, t: nat, j: nat)
    requires Supplies(c, sent) && Runs(c, xs) && j <= c.stages + 3
    ensures xs(FirstTurn(c, t) + j) == Expected(c, sent, t, j)
    decreases t, j
  {
    if j > 0 {
      CountersFollow(c, sent, xs, t, j - 1);
      FollowOn(c, sent, xs, t, j - 1);
    } else if t > 0 {
      CountersFollow(c, sent, xs, t - 1, c.stages + 3);
      NextRound(c, sent, t - 1);
    } else {
      StartExpected(c, sent);
    }
  }

  lemma AtFollows(c: Config, t: nat, j: nat)
    requires c.pool > 0 && j <= c.stages + 3
    ensures At(c, FirstTurn(c, t) + j).x == Expected(c, SentOver(c), t, j)
  {
    SentBySupplies(c);
    AtRuns(c);
    var xs := CountersOver(c);
    CountersFollow(c, SentOver(c), xs, t, j);
    assert xs(FirstTurn(c, t) + j) == At(c, FirstTurn(c, t) + j).x;
  }

  lemma ScheduleAt(c: Config, t: nat, j: nat, i: nat)
    requires c.pool > 0 && j < c.stages + 3 && i <= c.stages + 1
    ensures At(c, FirstTurn(c, t) + j).x[i] == SentBy(c, if i + j >= c.stages + 3 then t + 1 - i else t - i)
    ensures At(c, FirstTurn(c, t) + j).x[c.stages + 2] == SentBy(c, t - c.stages - 1)
  {
    AtFollows(c, t, j);
  }

  /** At turn `j` of round `t` hop `i` has passed on what was sent `i` rounds ago, counting the
      current round once the hop has had its turn. */
  lemma ScheduleIsExact(c: Config, t: nat, j: nat, i: nat)
    requires c.pool > 0 && j < c.stages + 3 && i <= c.stages + 1
    ensures At(c, t * (c.stages + 3) + j).x[i] == SentBy(c, if i + j >= c.stages + 3 then t + 1 - i else t - i)
    ensures At(c, t * (c.stages + 3) + j).x[c.stages + 2] == SentBy(c, t - c.stages - 1)
  {
    FirstTurnIs(c, t);
    ScheduleAt(c, t, j, i);
  }

  /** The sink finishes the last batch on its turn, the second of the round. */
  lemma {:induction false} DoneInRound(c: Config, round: nat, j: nat)
    requires c.pool > 0 && c.batches > 0 && j < c.stages + 3
    ensures var last := RoundOf(c, c.batches - 1) + c.stages + 1;
            Done(c, At(c, round * (c.stages + 3) + j).x) <==> round > last || (round == last && j >= 2)
  {
    ScheduleIsExact(c, round, j, c.stages + 1);
    AllSentFrom(c, if j >= 2 then round - c.stages else round - c.stages - 1);
  }

  /** The run is over after exactly `Turns` turns. */
  lemma {:induction false} DoneExactlyAt(c: Config, t: nat)
    requires c.pool > 0
    ensures Done(c, At(c, t).x) <==> t >= Turns(c)
  {
    if c.batches > 0 {
      var n, round, j := c.stages + 3, t / (c.stages + 3), t % (c.stages + 3);
      assert t == round * n + j;
      DoneInRound(c, round, j);
      LaterRound(round, j, RoundOf(c, c.batches - 1) + c.stages + 1, n);
    }
  }

  lemma LaterRound(round: nat, j: nat, last: nat, n: nat)
    requires j < n && n >= 3
    ensures round * n + j >= last * n + 2 <==> round > last || (round == last && j >= 2)
  {
    if round < last {
      Scale(round + 1, last, n);
    } else if round > last {
      Scale(last + 1, round, n);
    }
  }

  /** At every turn boundary no channel, the return channel included, holds more than one message. */
  lemma {:induction false} AtMostOneMessage(c: Config, t: nat, i: nat)
    requires c.pool > 0 && i <= c.stages + 1
    ensures At(c, t).x[i + 1] <= At(c, t).x[i] <= At(c, t).x[i + 1] + 1
  {
    var n := c.stages + 3;
    var round, j := t / n, t % n;
    assert t == round * n + j;
    FirstTurnIs(c, round);
    AtFollows(c, round, j);
    SentBySupplies(c);
    OneMessageApart(c, SentOver(c), round, j, i);
    AtValid(c, t);
  }

  lemma OneMessageApart(c: Config, sent: int -> nat, t: nat, j: nat, i: nat)
    requires Supplies(c, sent) && j < c.stages + 3 && i <= c.stages + 1
    ensures Expected(c, sent, t, j)[i] <= Expected(c, sent, t, j)[i + 1] + 1
  {
    assert GrowsAt(c, sent, t - i - 1) && GrowsAt(c, sent, t - i);
  }
}
