/**
 * The damage and health rules of the simulator as functions of a health
 * snapshot: the cost of an attack (main.py:26-30), the subtract-then-clamp
 * step of an applied attack (main.py:32-55), the winner classification
 * (main.py:57-66) and the colour band of the health chart (main.py:73-80).
 * Numbers are exact reals; the source's floating-point rounding is not modelled.
 */
module Health {
  import opened Wrappers
  import opened Tables

  /** The health of every tracked country, keyed by country. */
  type Snapshot = map<Country, real>

  const FullHealth: real := 100.0

  /** Health at construction: every country of the table at full health (main.py:24). */
  function InitialHealth(): (r: Snapshot)
    ensures InRange(r)
    ensures forall c: Country :: c in r && r[c] == FullHealth
  {
    TablesEnumerate();
    map c | c in Countries :: FullHealth
  }

  /** Every country is tracked and its health lies in [0, 100]. */
  predicate InRange(h: Snapshot)
  {
    forall c: Country :: c in h && 0.0 <= h[c] <= FullHealth
  }

  /** A country counts as alive while its health is strictly positive. */
  predicate IsAlive(h: Snapshot, c: Country)
  {
    c in h && h[c] > 0.0
  }

  predicate Distinct(s: seq<Country>)
  {
    forall i, j :: 0 <= i < j < |s| ==> s[i] != s[j]
  }

  /** The damage an attack deals to a country: base cost times multiplier. */
  function Damage(a: Attack, c: Country): (r: real)
    ensures 64.0 <= r <= 240.0
  {
    BaseCost(a) as real * Multiplier(c)
  }

  /**
   * calculate_attack_cost: both names must be keys of their tables, since
   * the source indexes the dictionaries directly.
   */
  function CalculateAttackCost(attackName: string, countryName: string): (r: real)
    requires AttackNamed(attackName).Some? && CountryNamed(countryName).Some?
    ensures forall a: Attack, c: Country ::
      AttackName(a) == attackName && CountryName(c) == countryName ==> r == Damage(a, c)
    ensures 0.0 < r
  {
    var a, c := AttackNamed(attackName).value, CountryNamed(countryName).value;
    forall b: Attack, d: Country | AttackName(b) == attackName && CountryName(d) == countryName
      ensures b == a && d == c
    {
      NamesAreKeys(a, b, c, d);
    }
    Damage(a, c)
  }

  /**
   * The damage figures that visualize_attack_power charts: `None` for an
   * unknown attack name, otherwise calculate_attack_cost of that attack for
   * every country, in the order of the country table.
   */
  function AttackPowers(attackName: string): (r: Option<seq<real>>)
    ensures r.None? <==> forall a: Attack :: AttackName(a) != attackName
    ensures r.Some? ==> |r.value| == |Countries|
    ensures r.Some? ==>
      forall i :: 0 <= i < |Countries| ==> r.value[i] == Damage(AttackNamed(attackName).value, Countries[i])
  {
    if AttackNamed(attackName).None? then None
    else
      Some(seq(|Countries|, i requires 0 <= i < |Countries| =>
        LookupByOwnName(AttackNamed(attackName).value, Countries[i]);
        CalculateAttackCost(attackName, CountryName(Countries[i]))))
  }

  /**
   * The snapshot after attack `a` hits country `c`: its health drops by the
   * damage and is clamped at 0; no other country changes.
   */
  function Damaged(h: Snapshot, a: Attack, c: Country): (r: Snapshot)
    requires c in h
    ensures r.Keys == h.Keys
    ensures forall d :: d in h && d != c ==> r[d] == h[d]
    ensures r[c] >= 0.0 && r[c] >= h[c] - Damage(a, c)
    ensures r[c] == 0.0 || r[c] == h[c] - Damage(a, c)
    ensures InRange(h) ==> InRange(r) && r[c] <= h[c]
    ensures InRange(h) && h[c] > 0.0 ==> r[c] < h[c]
  {
    var lowered := h[c := h[c] - Damage(a, c)];
    if lowered[c] < 0.0 then lowered[c := 0.0] else lowered
  }

  /** Both names are keys of their tables, the condition apply_attack checks first. */
  predicate Known(attackName: string, countryName: string)
  {
    AttackNamed(attackName).Some? && CountryNamed(countryName).Some?
  }

  /**
   * apply_attack on a snapshot: an unknown attack or country name changes
   * nothing; otherwise the named country takes the damage of the named attack.
   */
  function Attacked(h: Snapshot, attackName: string, countryName: string): (r: Snapshot)
    requires InRange(h)
    ensures InRange(r)
    ensures !Known(attackName, countryName) ==> r == h
    ensures Known(attackName, countryName) ==>
      r == Damaged(h, AttackNamed(attackName).value, CountryNamed(countryName).value)
  {
    if !Known(attackName, countryName) then h
    else Damaged(h, AttackNamed(attackName).value, CountryNamed(countryName).value)
  }

  /**
   * Attacking by a table's own names deals that attack's damage to that
   * country and to no other.
   */
  lemma AttackedByOwnNames(h: Snapshot, a: Attack, c: Country)
    requires InRange(h)
    ensures Attacked(h, AttackName(a), CountryName(c)) == Damaged(h, a, c)
    ensures forall d :: d != c ==> Attacked(h, AttackName(a), CountryName(c))[d] == h[d]
  {
    LookupByOwnName(a, c);
  }

  /** The countries of `order` alive in `h`: the list comprehension of check_winner. */
  function AliveAmong(h: Snapshot, order: seq<Country>): (r: seq<Country>)
    ensures forall c :: c in r <==> c in order && IsAlive(h, c)
    ensures Distinct(order) ==> Distinct(r)
  {
    if order == [] then []
    else
      var rest := AliveAmong(h, order[1..]);
      assert Distinct(order) ==> order[0] !in order[1..];
      if IsAlive(h, order[0]) then [order[0]] + rest else rest
  }

  /** What check_winner reports when it does not return `None`. */
  datatype Verdict = AllLost | Winner(country: Country)

  /** Exactly one country, `x`, is alive. */
  predicate SoleSurvivor(h: Snapshot, x: Country)
  {
    IsAlive(h, x) && forall c :: IsAlive(h, c) ==> c == x
  }

  /**
   * check_winner: `AllLost` when no country is alive, `Winner(x)` when `x`
   * is the only one alive, and `None` (the game goes on) when two or more are.
   */
  function CheckWinner(h: Snapshot): (r: Option<Verdict>)
    ensures r.Some? && r.value.Winner? ==> IsAlive(h, r.value.country)
  {
    var alive := AliveAmong(h, Countries);
    if |alive| == 0 then Some(AllLost)
    else if |alive| == 1 then Some(Winner(alive[0]))
    else None
  }

  /**
   * check_winner reports `AllLost` exactly when no country is alive,
   * `Winner(x)` exactly when `x` is the only one alive, and `None` exactly
   * when two or more are.
   */
  lemma CheckWinnerClassifies(h: Snapshot)
    ensures CheckWinner(h) == Some(AllLost) <==> forall c :: !IsAlive(h, c)
    ensures forall x :: CheckWinner(h) == Some(Winner(x)) <==> SoleSurvivor(h, x)
    ensures CheckWinner(h) == None <==> exists c, d :: c != d && IsAlive(h, c) && IsAlive(h, d)
  {
    TablesEnumerate();
    var alive := AliveAmong(h, Countries);
    assert forall c :: IsAlive(h, c) <==> c in alive;
    if |alive| == 1 {
      assert IsAlive(h, alive[0]);
      assert forall c :: c in alive ==> c == alive[0];
    } else if |alive| > 1 {
      assert alive[0] != alive[1] && IsAlive(h, alive[0]) && IsAlive(h, alive[1]);
      assert forall x :: !SoleSurvivor(h, x);
    }
  }

  /** Hitting a country that is already at 0 changes nothing, so neither does the verdict. */
  lemma DefeatedTargetUnchanged(h: Snapshot, a: Attack, c: Country)
    requires InRange(h) && h[c] == 0.0
    ensures Damaged(h, a, c) == h
    ensures CheckWinner(Damaged(h, a, c)) == CheckWinner(h)
  {
    var r := Damaged(h, a, c);
    assert r[c] == 0.0;
    assert forall d :: d in r ==> r[d] == h[d];
  }

  /**
   * Once the game is decided it stays decided: after any further attack at
   * most the former winner is alive.
   */
  lemma DecidedStaysDecided(h: Snapshot, a: Attack, c: Country)
    requires InRange(h) && CheckWinner(h).Some?
    ensures CheckWinner(Damaged(h, a, c)).Some?
    ensures CheckWinner(h) == Some(AllLost) ==> CheckWinner(Damaged(h, a, c)) == Some(AllLost)
    ensures forall x :: CheckWinner(h) == Some(Winner(x)) ==>
      CheckWinner(Damaged(h, a, c)) in {Some(Winner(x)), Some(AllLost)}
  {
    var r := Damaged(h, a, c);
    CheckWinnerClassifies(h);
    CheckWinnerClassifies(r);
    assert forall d :: IsAlive(r, d) ==> IsAlive(h, d);
  }

  /** The colour of one bar of the health chart. */
  datatype Colour = Red | Orange | Green

  /** The colour band of the health chart: at most 0 red, below 30 orange, otherwise green. */
  function Band(health: real): (r: Colour)
    ensures r == Red <==> health <= 0.0
    ensures r == Orange <==> 0.0 < health < 30.0
    ensures r == Green <==> 30.0 <= health
  {
    if health <= 0.0 then Red
    else if health < 30.0 then Orange
    else Green
  }

  /** The order of the bands from the darkest (red) to the brightest (green). */
  function Brightness(colour: Colour): (r: nat)
    ensures r <= 2
  {
    match colour
    case Red => 0
    case Orange => 1
    case Green => 2
  }

  /**
   * The chart paints a country red exactly when check_winner counts it as
   * lost, and an attack never moves any bar to a brighter band.
   */
  lemma BandAgreesWithDamage(h: Snapshot, a: Attack, c: Country, d: Country)
    requires InRange(h)
    ensures Band(h[d]) == Red <==> !IsAlive(h, d)
    ensures Brightness(Band(Damaged(h, a, c)[d])) <= Brightness(Band(h[d]))
  {
  }
}
