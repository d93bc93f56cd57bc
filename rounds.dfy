/**
 * The control logic of the interactive round loop (main.py:150-209) over a
 * given sequence of inputs, with the console abstracted away: each call to
 * `int(input(...))` consumes one input, which is either an integer or a
 * parse failure. `RoundStep` is one pass through the loop body and
 * `RunSession` the whole loop.
 */
module Rounds {
  import opened Wrappers
  import opened Tables
  import opened Health

  /** One line the user typed, after `int()`: a number, or the `ValueError` of a non-number. */
  datatype Input = Int(k: int) | ParseError

  /** Why the loop ended. `EndOfInput`: the inputs ran out where the source would wait for another line. */
  datatype Reason = GameOver(verdict: Verdict) | Quit | EndOfInput

  /** The effect of one pass through the loop body; `used` counts the inputs it consumed. */
  datatype Step =
    | Next(health: Snapshot, round: int, used: nat)
    | Halt(reason: Reason, used: nat)

  /** The state in which the loop ends. */
  datatype Outcome = Outcome(health: Snapshot, round: int, reason: Reason)

  /** Python list indexing `s[i]`: a negative index counts from the end; anything else is an `IndexError`. */
  function PyIndex<T>(s: seq<T>, i: int): (r: Option<T>)
    ensures r.Some? <==> -|s| <= i < |s|
    ensures 0 <= i < |s| ==> r == Some(s[i])
    ensures -|s| <= i < 0 ==> r == Some(s[|s| + i])
  {
    if 0 <= i < |s| then Some(s[i])
    else if -|s| <= i < 0 then Some(s[|s| + i])
    else None
  }

  /**
   * One pass through the loop body with health `h`, round counter `round`
   * and the remaining inputs: check for a winner, read the attack number
   * (0 quits, -1 only shows the chart), pick the attack by list index k-1,
   * then go on as `TargetStep`. A `ValueError` or `IndexError` restarts
   * the pass with nothing changed.
   */
  function RoundStep(h: Snapshot, round: int, inputs: seq<Input>): (r: Step)
    requires InRange(h)
    ensures r.used <= |inputs|
    ensures r.Next? ==> 1 <= r.used && InRange(r.health)
  {
    var winner := CheckWinner(h);
    if winner.Some? then Halt(GameOver(winner.value), 0)
    else if |inputs| == 0 then Halt(EndOfInput, 0)
    else match inputs[0]
      case ParseError => Next(h, round, 1)
      case Int(attackNum) =>
        if attackNum == 0 then Halt(Quit, 1)
        else if attackNum == -1 then Next(h, round, 1)
        else match PyIndex(Attacks, attackNum - 1)
          case None => Next(h, round, 1)
          case Some(a) => TargetStep(h, round, a, inputs[1..])
  }

  /**
   * The rest of a pass once attack `a` is chosen: read the country number,
   * pick the country by list index k-1, apply the attack and count the
   * round. apply_attack is called with keys of both tables, so it always
   * applies (`AttackedByOwnNames`), which is why the step is stated on
   * identities. `used` counts the attack number too.
   */
  function TargetStep(h: Snapshot, round: int, a: Attack, rest: seq<Input>): (r: Step)
    requires InRange(h)
    ensures r.used <= |rest| + 1
    ensures r.Next? ==> 1 <= r.used && InRange(r.health)
  {
    if |rest| == 0 then Halt(EndOfInput, 1)
    else match rest[0]
      case ParseError => Next(h, round, 2)
      case Int(countryNum) =>
        match PyIndex(Countries, countryNum - 1)
        case None => Next(h, round, 2)
        case Some(c) => Next(Damaged(h, a, c), round + 1, 2)
  }

  /**
   * When the country number is valid, the pass ends in what apply_attack
   * makes of the two table keys the menu numbers select.
   */
  lemma TargetStepByNames(h: Snapshot, round: int, a: Attack, rest: seq<Input>)
    requires InRange(h) && |rest| > 0 && rest[0].Int? && PyIndex(Countries, rest[0].k - 1).Some?
    ensures TargetStep(h, round, a, rest) ==
      Next(Attacked(h, AttackName(a), CountryName(PyIndex(Countries, rest[0].k - 1).value)), round + 1, 2)
  {
    AttackedByOwnNames(h, a, PyIndex(Countries, rest[0].k - 1).value);
  }

  /** The whole loop: repeat `RoundStep` on the remaining inputs until it halts. */
  function RunSession(h: Snapshot, round: int, inputs: seq<Input>): (r: Outcome)
    requires InRange(h)
    ensures InRange(r.health)
    ensures r.round >= round
    decreases |inputs|
  {
    match RoundStep(h, round, inputs)
    case Halt(reason, _) => Outcome(h, round, reason)
    case Next(h', round', used) => RunSession(h', round', inputs[used..])
  }

  /**
   * One pass either leaves health and the round counter as they were, or
   * applies one attack to one country after reading two inputs and counts
   * exactly one round; a decided game halts it before any input is read.
   */
  lemma RoundStepEffect(h: Snapshot, round: int, inputs: seq<Input>)
    requires InRange(h)
    ensures var r := RoundStep(h, round, inputs);
      && (CheckWinner(h).Some? ==> r == Halt(GameOver(CheckWinner(h).value), 0))
      && (r.Halt? && r.reason.GameOver? ==> CheckWinner(h).Some?)
      && (r.Next? ==>
        || (r.health == h && r.round == round)
        || (r.round == round + 1 && r.used == 2 && exists a, c :: r.health == Damaged(h, a, c)))
  {
  }

  /**
   * Over a whole session health stays in [0, 100] and never rises, the
   * round counter grows by one per applied attack (each needing two
   * inputs), an unchanged counter means unchanged health, and a session
   * that ends with a verdict ends in a state check_winner decides that way.
   */
  lemma {:induction false} SessionInvariants(h: Snapshot, round: int, inputs: seq<Input>)
    requires InRange(h)
    ensures var r := RunSession(h, round, inputs);
      && InRange(r.health)
      && (forall c: Country :: r.health[c] <= h[c])
      && round <= r.round && 2 * (r.round - round) <= |inputs|
      && (r.round == round ==> r.health == h)
      && (r.reason.GameOver? ==> CheckWinner(r.health) == Some(r.reason.verdict))
    decreases |inputs|
  {
    RoundStepEffect(h, round, inputs);
    match RoundStep(h, round, inputs)
    case Halt(reason, _) =>
    case Next(h', round', used) =>
      SessionInvariants(h', round', inputs[used..]);
      if round' != round {
        var a, c :| h' == Damaged(h, a, c);
      }
  }

  /** A verdict stops the loop before it reads any input, so no attack follows a decided game. */
  lemma NoRoundAfterGameOver(h: Snapshot, round: int, inputs: seq<Input>)
    requires InRange(h) && CheckWinner(h).Some?
    ensures RunSession(h, round, inputs) == Outcome(h, round, GameOver(CheckWinner(h).value))
  {
  }

  /**
   * The two sentinels of the attack slot: 0 ends the loop, -1 only shows
   * the chart; neither changes health or the round counter.
   */
  lemma Sentinels(h: Snapshot, round: int, rest: seq<Input>)
    requires InRange(h) && CheckWinner(h) == None
    ensures RoundStep(h, round, [Int(0)] + rest) == Halt(Quit, 1)
    ensures RoundStep(h, round, [Int(-1)] + rest) == Next(h, round, 1)
  {
  }

  /**
   * A non-number, or an attack number whose index k-1 lies outside the
   * attack list, restarts the pass after one input with nothing changed;
   * with a valid attack, a bad country number does so after two.
   */
  lemma InvalidInputChangesNothing(h: Snapshot, round: int, first: Input, second: Input, rest: seq<Input>)
    requires InRange(h) && CheckWinner(h) == None
    ensures first.ParseError? || (first.k != 0 && !(-|Attacks| <= first.k - 1 < |Attacks|)) ==>
      RoundStep(h, round, [first] + rest) == Next(h, round, 1)
    ensures first.Int? && first.k !in {0, -1} && -|Attacks| <= first.k - 1 < |Attacks| &&
            (second.ParseError? || !(-|Countries| <= second.k - 1 < |Countries|)) ==>
      RoundStep(h, round, [first, second] + rest) == Next(h, round, 2)
  {
  }

  /**
   * Two valid menu numbers apply the chosen attack to the chosen country,
   * both picked by Python list index k-1, and advance the round counter by one.
   */
  lemma AttackRound(h: Snapshot, round: int, attackNum: int, countryNum: int, rest: seq<Input>)
    requires InRange(h) && CheckWinner(h) == None
    requires attackNum !in {0, -1} && -|Attacks| <= attackNum - 1 < |Attacks|
    requires -|Countries| <= countryNum - 1 < |Countries|
    ensures
      var a, c := PyIndex(Attacks, attackNum - 1).value, PyIndex(Countries, countryNum - 1).value;
      RoundStep(h, round, [Int(attackNum), Int(countryNum)] + rest) == Next(Damaged(h, a, c), round + 1, 2)
  {
    var inputs := [Int(attackNum), Int(countryNum)] + rest;
    assert inputs[0] == Int(attackNum);
    assert inputs[1..][0] == Int(countryNum);
  }

  /**
   * Menu numbers wrap like Python indices: country 0 is the last country,
   * attack -2 the third from last, and numbers past either end select nothing.
   */
  lemma MenuIndexing()
    ensures PyIndex(Countries, 0 - 1) == Some(CountryG)
    ensures PyIndex(Attacks, -2 - 1) == Some(SovereignDefault)
    ensures PyIndex(Attacks, 9 - 1) == None && PyIndex(Attacks, -8 - 1) == None
    ensures PyIndex(Countries, 5 - 1) == None && PyIndex(Countries, -4 - 1) == None
  {
  }
}
