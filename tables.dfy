/**
 * The two fixed tables of the simulator: eight attacks with their base
 * costs and four countries with their vulnerability multipliers
 * (main.py:7-22). The tables are built once and never change, so they are
 * constants here. Identities are enumerations; the display names the
 * source uses as dictionary keys are kept by `AttackName` and
 * `CountryName`. A name is looked up by an ordered scan of the table, which
 * agrees with the source's `name in dict` hash lookup because the keys are
 * distinct (`NamesAreKeys`).
 */
module Tables {
  import opened Wrappers

  datatype Attack =
    | EnergyCollapse
    | FinancialPanic
    | Cyberattack
    | TradeWar
    | CurrencyCrisis
    | SovereignDefault
    | RawMaterialBlockade
    | SocialProtest

  datatype Country = CountryA | CountryB | CountryV | CountryG

  /** The key of `a` in the base-cost table. */
  function AttackName(a: Attack): (r: string)
    ensures |r| > 0
  {
    match a
    case EnergyCollapse => "Энергоколлапс"
    case FinancialPanic => "Финансовая паника"
    case Cyberattack => "Кибератака"
    case TradeWar => "Торговая война"
    case CurrencyCrisis => "Валютный кризис"
    case SovereignDefault => "Дефолт"
    case RawMaterialBlockade => "Сырьевая блокада"
    case SocialProtest => "Социальный протест"
  }

  /** The base cost of an attack; every one is positive. */
  function BaseCost(a: Attack): (r: nat)
    ensures 80 <= r <= 160
  {
    match a
    case EnergyCollapse => 80
    case FinancialPanic => 120
    case Cyberattack => 140
    case TradeWar => 90
    case CurrencyCrisis => 110
    case SovereignDefault => 160
    case RawMaterialBlockade => 130
    case SocialProtest => 80
  }

  /** The attacks in the order the base-cost table declares them (its key order). */
  const Attacks: seq<Attack> := [
    EnergyCollapse, FinancialPanic, Cyberattack, TradeWar,
    CurrencyCrisis, SovereignDefault, RawMaterialBlockade, SocialProtest
  ]

  /** The key of `c` in the country table. */
  function CountryName(c: Country): (r: string)
    ensures |r| > 0
  {
    match c
    case CountryA => "Страна А"
    case CountryB => "Страна Б"
    case CountryV => "Страна В"
    case CountryG => "Страна Г"
  }

  /** The vulnerability multiplier of a country; every one is positive. */
  function Multiplier(c: Country): (r: real)
    ensures 0.8 <= r <= 1.5
  {
    match c
    case CountryA => 1.0
    case CountryB => 1.2
    case CountryV => 0.8
    case CountryG => 1.5
  }

  /** The countries in the order the country table declares them. */
  const Countries: seq<Country> := [CountryA, CountryB, CountryV, CountryG]

  /** Each table lists every identity exactly once. */
  lemma TablesEnumerate()
    ensures |Attacks| == 8 && |Countries| == 4
    ensures forall a: Attack :: a in Attacks
    ensures forall c: Country :: c in Countries
    ensures forall i, j :: 0 <= i < j < |Attacks| ==> Attacks[i] != Attacks[j]
    ensures forall i, j :: 0 <= i < j < |Countries| ==> Countries[i] != Countries[j]
  {
    forall a: Attack ensures a in Attacks {
      match a
      case EnergyCollapse => assert Attacks[0] == a;
      case FinancialPanic => assert Attacks[1] == a;
      case Cyberattack => assert Attacks[2] == a;
      case TradeWar => assert Attacks[3] == a;
      case CurrencyCrisis => assert Attacks[4] == a;
      case SovereignDefault => assert Attacks[5] == a;
      case RawMaterialBlockade => assert Attacks[6] == a;
      case SocialProtest => assert Attacks[7] == a;
    }
    forall c: Country ensures c in Countries {
      match c
      case CountryA => assert Countries[0] == c;
      case CountryB => assert Countries[1] == c;
      case CountryV => assert Countries[2] == c;
      case CountryG => assert Countries[3] == c;
    }
  }

  /** No two attacks and no two countries share a display name. */
  lemma NamesAreKeys(a: Attack, b: Attack, c: Country, d: Country)
    ensures AttackName(a) == AttackName(b) <==> a == b
    ensures CountryName(c) == CountryName(d) <==> c == d
  {
  }

  /**
   * The first element of `s` whose name is `name`. On a table whose names
   * are distinct this is the only such element, so the scan answers what a
   * dictionary membership test answers.
   */
  function Find<T>(s: seq<T>, nameOf: T -> string, name: string): (r: Option<T>)
    ensures r.Some? ==> r.value in s && nameOf(r.value) == name
    ensures r.None? <==> forall x :: x in s ==> nameOf(x) != name
  {
    if s == [] then None
    else if nameOf(s[0]) == name then Some(s[0])
    else Find(s[1..], nameOf, name)
  }

  /** The attack whose key is `name`, or `None` when the base-cost table has no such key. */
  function AttackNamed(name: string): (r: Option<Attack>)
    ensures r.Some? ==> AttackName(r.value) == name
    ensures r.None? <==> forall a: Attack :: AttackName(a) != name
  {
    TablesEnumerate();
    Find(Attacks, AttackName, name)
  }

  /** The country whose key is `name`, or `None` when the country table has no such key. */
  function CountryNamed(name: string): (r: Option<Country>)
    ensures r.Some? ==> CountryName(r.value) == name
    ensures r.None? <==> forall c: Country :: CountryName(c) != name
  {
    TablesEnumerate();
    Find(Countries, CountryName, name)
  }

  /** Looking up a table's own key finds the identity it names. */
  lemma LookupByOwnName(a: Attack, c: Country)
    ensures AttackNamed(AttackName(a)) == Some(a)
    ensures CountryNamed(CountryName(c)) == Some(c)
  {
    NamesAreKeys(a, AttackNamed(AttackName(a)).value, c, CountryNamed(CountryName(c)).value);
  }
}
