/**
 * The simulator object (main.py:4-209) and the scripted demonstration
 * (main.py:212-241). The object's only mutable state is the health map;
 * its methods are proved against the functions of `Health` and `Rounds`.
 */
module Simulator {
  import opened Wrappers
  import opened Tables
  import opened Health
  import opened Rounds

  class CountryAttackSimulator {
    /** country_health: the current health of every country. */
    var countryHealth: Snapshot

    ghost predicate Valid()
      reads this
    {
      InRange(countryHealth)
    }

    /** Every country starts at full health (main.py:24). */
    constructor ()
      ensures Valid()
      ensures countryHealth == InitialHealth()
    {
      countryHealth := InitialHealth();
    }

    /**
     * apply_attack: reports whether both names are keys of their tables;
     * if so the named country's health drops by the cost and is clamped at
     * 0, and otherwise nothing changes.
     */
    method ApplyAttack(attackName: string, countryName: string) returns (applied: bool)
      requires Valid()
      modifies this
      ensures Valid()
      ensures applied == Known(attackName, countryName)
      ensures countryHealth == Attacked(old(countryHealth), attackName, countryName)
    {
      var attack := AttackNamed(attackName);
      var country := CountryNamed(countryName);
      if attack.None? || country.None? {
        applied := false;
      } else {
        var c := country.value;
        var damage := CalculateAttackCost(attackName, countryName);
        ghost var expected := Attacked(countryHealth, attackName, countryName);
        countryHealth := countryHealth[c := countryHealth[c] - damage];
        if countryHealth[c] < 0.0 {
          countryHealth := countryHealth[c := 0.0];
        }
        assert countryHealth == expected;
        applied := true;
      }
    }

    /** The bar colours of the health chart, one per country in table order (main.py:73-80). */
    method HealthColours() returns (colours: seq<Colour>)
      requires Valid()
      ensures |colours| == |Countries|
      ensures forall i :: 0 <= i < |Countries| ==> colours[i] == Band(countryHealth[Countries[i]])
    {
      colours := [];
      for i := 0 to |Countries|
        invariant |colours| == i
        invariant forall j :: 0 <= j < i ==> colours[j] == Band(countryHealth[Countries[j]])
      {
        var health := countryHealth[Countries[i]];
        if health <= 0.0 {
          colours := colours + [Red];
        } else if health < 30.0 {
          colours := colours + [Orange];
        } else {
          colours := colours + [Green];
        }
      }
    }

    /**
     * One pass through the body of the round loop of
     * run_interactive_simulation, reading from `inputs`: what it does is
     * `RoundStep`, and health changes only as that step says.
     */
    method PlayRound(roundCount: int, inputs: seq<Input>) returns (step: Step)
      requires Valid()
      modifies this
      ensures Valid()
      ensures step == RoundStep(old(countryHealth), roundCount, inputs)
      ensures countryHealth == if step.Next? then step.health else old(countryHealth)
    {
      var winner := CheckWinner(countryHealth);
      if winner.Some? {
        step := Halt(GameOver(winner.value), 0);
      } else if |inputs| == 0 {
        step := Halt(EndOfInput, 0);
      } else if inputs[0].ParseError? {
        step := Next(countryHealth, roundCount, 1);
      } else if inputs[0].k == 0 {
        step := Halt(Quit, 1);
      } else if inputs[0].k == -1 {
        step := Next(countryHealth, roundCount, 1);
      } else {
        var attack := PyIndex(Attacks, inputs[0].k - 1);
        if attack.None? {
          step := Next(countryHealth, roundCount, 1);
        } else {
          step := PlayTarget(roundCount, attack.value, inputs[1..]);
        }
      }
    }

    /** The rest of a pass once the attack is chosen: what it does is `TargetStep`. */
    method PlayTarget(roundCount: int, attack: Attack, rest: seq<Input>) returns (step: Step)
      requires Valid()
      modifies this
      ensures Valid()
      ensures step == TargetStep(old(countryHealth), roundCount, attack, rest)
      ensures countryHealth == if step.Next? then step.health else old(countryHealth)
    {
      if |rest| == 0 {
        step := Halt(EndOfInput, 1);
      } else if rest[0].ParseError? {
        step := Next(countryHealth, roundCount, 2);
      } else {
        var country := PyIndex(Countries, rest[0].k - 1);
        if country.None? {
          step := Next(countryHealth, roundCount, 2);
        } else {
          TargetStepByNames(countryHealth, roundCount, attack, rest);
          var applied := ApplyAttack(AttackName(attack), CountryName(country.value));
          step := Next(countryHealth, roundCount + 1, 2);
        }
      }
    }

    /**
     * run_interactive_simulation over the given inputs: starting from round
     * 1 it plays rounds until one halts, and returns the final round counter
     * and why the loop ended; the result is what `RunSession` describes.
     */
    method RunInteractiveSimulation(inputs: seq<Input>) returns (roundCount: int, reason: Reason)
      requires Valid()
      modifies this
      ensures Valid()
      ensures RunSession(old(countryHealth), 1, inputs) == Outcome(countryHealth, roundCount, reason)
    {
      roundCount := 1;
      var pos := 0;
      ghost var session := RunSession(countryHealth, 1, inputs);
      while true
        invariant Valid() && 0 <= pos <= |inputs|
        invariant RunSession(countryHealth, roundCount, inputs[pos..]) == session
        decreases |inputs| - pos
      {
        var step := PlayRound(roundCount, inputs[pos..]);
        match step
        case Halt(why, _) =>
          return roundCount, why;
        case Next(_, nextRound, used) =>
          assert inputs[pos..][used..] == inputs[pos + used..];
          roundCount, pos := nextRound, pos + used;
      }
    }
  }

  /** The six scripted (attack, country) pairs of the demonstration, by name (main.py:220-227). */
  const DemoAttacks: seq<(string, string)> := [
    ("Энергоколлапс", "Страна А"),
    ("Финансовая паника", "Страна Б"),
    ("Дефолт", "Страна Г"),
    ("Кибератака", "Страна В"),
    ("Торговая война", "Страна А"),
    ("Сырьевая блокада", "Страна Б")
  ]

  /** The same six pairs as table identities. */
  const DemoScript: seq<(Attack, Country)> := [
    (EnergyCollapse, CountryA),
    (FinancialPanic, CountryB),
    (SovereignDefault, CountryG),
    (Cyberattack, CountryV),
    (TradeWar, CountryA),
    (RawMaterialBlockade, CountryB)
  ]

  /** Every scripted name is a key of its table and names the identity `DemoScript` lists. */
  lemma DemoNames()
    ensures |DemoAttacks| == |DemoScript|
    ensures forall i :: 0 <= i < |DemoScript| ==>
      DemoAttacks[i] == (AttackName(DemoScript[i].0), CountryName(DemoScript[i].1))
  {
  }

  /** The snapshot after the attacks of `script` hit their countries in order. */
  function ApplyScript(h: Snapshot, script: seq<(Attack, Country)>): (r: Snapshot)
    requires InRange(h)
    ensures InRange(r)
    decreases |script|
  {
    if script == [] then h
    else ApplyScript(Damaged(h, script[0].0, script[0].1), script[1..])
  }

  /**
   * A run of attacks never raises any health, and leaves every country
   * that no attack of the run targets as it was.
   */
  lemma {:induction false} ApplyScriptBounds(h: Snapshot, script: seq<(Attack, Country)>)
    requires InRange(h)
    ensures forall c: Country :: ApplyScript(h, script)[c] <= h[c]
    ensures forall c: Country :: (forall p :: p in script ==> p.1 != c) ==> ApplyScript(h, script)[c] == h[c]
    decreases |script|
  {
    if script != [] {
      ApplyScriptBounds(Damaged(h, script[0].0, script[0].1), script[1..]);
      assert forall p :: p in script[1..] ==> p in script;
    }
  }

  /**
   * example_simulation: a fresh simulator takes the six scripted attacks by
   * name; every country ends at 0 and check_winner reports that all lost.
   */
  method ExampleSimulation() returns (winner: Option<Verdict>, finalHealth: Snapshot)
    ensures InRange(finalHealth) && forall c: Country :: finalHealth[c] == 0.0
    ensures winner == CheckWinner(finalHealth) == Some(AllLost)
  {
    var simulator := new CountryAttackSimulator();
    ghost var h0 := simulator.countryHealth;
    DemoNames();
    for i := 0 to |DemoAttacks|
      invariant simulator.Valid()
      invariant ApplyScript(simulator.countryHealth, DemoScript[i..]) == ApplyScript(h0, DemoScript)
    {
      var (attack, country) := DemoAttacks[i];
      DemoLoopStep(simulator.countryHealth, i);
      var applied := simulator.ApplyAttack(attack, country);
    }
    assert DemoScript[|DemoAttacks|..] == [];
    DemoOutcome(h0);
    winner := CheckWinner(simulator.countryHealth);
    finalHealth := simulator.countryHealth;
  }

  /** Applying the i-th scripted pair by name is the first step of the rest of the script. */
  lemma DemoLoopStep(h: Snapshot, i: nat)
    requires InRange(h) && i < |DemoScript|
    ensures ApplyScript(h, DemoScript[i..]) ==
      ApplyScript(Attacked(h, DemoAttacks[i].0, DemoAttacks[i].1), DemoScript[i + 1..])
  {
    DemoNames();
    assert DemoScript[i..][1..] == DemoScript[i + 1..];
    AttackedByOwnNames(h, DemoScript[i].0, DemoScript[i].1);
  }

  /**
   * The health of each country after the first k scripted attacks: А drops
   * to 20, then Б, Г and В fall to 0 (144, 240 and 112 damage), А falls to
   * 0 (20 - 90 clamped), and the last attack hits Б at 0.
   */
  function DemoExpected(k: nat, c: Country): (r: real)
    requires k <= |DemoScript|
    ensures 0.0 <= r <= 100.0
  {
    match c
    case CountryA => if k == 0 then 100.0 else if k < 5 then 20.0 else 0.0
    case CountryB => if k < 2 then 100.0 else 0.0
    case CountryV => if k < 4 then 100.0 else 0.0
    case CountryG => if k < 3 then 100.0 else 0.0
  }

  /** Each scripted attack takes the expected health of every country to the next expected one. */
  lemma DemoStep(k: nat, h: Snapshot)
    requires k < |DemoScript|
    requires InRange(h) && forall c: Country :: h[c] == DemoExpected(k, c)
    ensures forall c: Country :: Damaged(h, DemoScript[k].0, DemoScript[k].1)[c] == DemoExpected(k + 1, c)
  {
    var r := Damaged(h, DemoScript[k].0, DemoScript[k].1);
    forall c: Country ensures r[c] == DemoExpected(k + 1, c) {
      if c != DemoScript[k].1 {
        assert r[c] == h[c];
      }
    }
  }

  /**
   * The demonstration is a fixed fixture: from full health, after the
   * first k scripted attacks every country's health is `DemoExpected(k, c)`.
   */
  lemma {:induction false} DemoTrace(h0: Snapshot, k: nat)
    requires h0 == InitialHealth() && k <= |DemoScript|
    ensures forall c: Country :: ApplyScript(h0, DemoScript[..k])[c] == DemoExpected(k, c)
  {
    if k == 0 {
      assert DemoScript[..0] == [];
    } else {
      DemoTrace(h0, k - 1);
      DemoStep(k - 1, ApplyScript(h0, DemoScript[..k - 1]));
      assert DemoScript[..k] == DemoScript[..k - 1] + [DemoScript[k - 1]];
      ApplyScriptSnoc(h0, DemoScript[..k - 1], DemoScript[k - 1]);
    }
  }

  /** The demonstration ends with every country at 0, and check_winner reports that all lost. */
  lemma DemoOutcome(h0: Snapshot)
    requires h0 == InitialHealth()
    ensures forall c: Country :: ApplyScript(h0, DemoScript)[c] == 0.0
    ensures CheckWinner(ApplyScript(h0, DemoScript)) == Some(AllLost)
  {
    DemoTrace(h0, 6);
    assert DemoScript[..6] == DemoScript;
    CheckWinnerClassifies(ApplyScript(h0, DemoScript));
  }

  /**
   * Part way through, the game is first still open and then decided: the
   * script never asks check_winner in between, so it goes on attacking
   * after the fourth attack has left А as the sole survivor.
   */
  lemma DemoMidgame(h0: Snapshot)
    requires h0 == InitialHealth()
    ensures CheckWinner(ApplyScript(h0, DemoScript[..3])) == None
    ensures CheckWinner(ApplyScript(h0, DemoScript[..4])) == Some(Winner(CountryA))
  {
    DemoTrace(h0, 3);
    var h3 := ApplyScript(h0, DemoScript[..3]);
    CheckWinnerClassifies(h3);
    assert IsAlive(h3, CountryA) && IsAlive(h3, CountryV);
    DemoTrace(h0, 4);
    CheckWinnerClassifies(ApplyScript(h0, DemoScript[..4]));
  }

  /** One more attack at the end of a run hits the snapshot the run left. */
  lemma {:induction false} ApplyScriptSnoc(h: Snapshot, script: seq<(Attack, Country)>, last: (Attack, Country))
    requires InRange(h)
    ensures ApplyScript(h, script + [last]) == Damaged(ApplyScript(h, script), last.0, last.1)
    decreases |script|
  {
    if script == [] {
      assert ([] + [last])[1..] == [];
    } else {
      assert (script + [last])[1..] == script[1..] + [last];
      ApplyScriptSnoc(Damaged(h, script[0].0, script[0].1), script[1..], last);
    }
  }
}
