# Country attack simulator — a Dafny model

`CountryAttackSimulator` in `main.py` is a small damage-and-health game.
Four countries start at health 100. Each of eight named attacks has a
fixed base cost. Each country has a fixed vulnerability multiplier. An
attack on a country costs base cost × multiplier. The cost is subtracted
from that country's health, and the result is clamped at 0. The game is
decided when at most one country has positive health: either every
country lost, or one winner remains. It can be played in two ways: an
interactive round loop driven by menu numbers, or a fixed six-attack
demonstration.

The project has five modules:

- `Wrappers` (`wrappers.dfy`): the `Option` type.
- `Tables` (`tables.dfy`): the two fixed tables. Attacks and countries are
  enumerations. Their display names, the dictionary keys of the source,
  are kept verbatim. A lookup by name is an ordered scan of the table.
  It agrees with the source's `name in dict` hash lookup because the keys
  are distinct (`NamesAreKeys`).
- `Health` (`health.dfy`): the rules as functions of a health snapshot. These
  are the cost of an attack, the subtract-then-clamp step, apply_attack as a
  function, check_winner and the colour band of the health chart.
  Health values are exact reals.
- `Rounds` (`rounds.dfy`): the interactive loop with the console abstracted.
  Each line the user types is an `Input`, either `Int(k)` or a `ParseError`
  for text that `int()` rejects. `RoundStep` is one pass through the loop
  body. `RunSession` is the whole loop over a given input sequence.
- `Simulator` (`simulator.dfy`): the simulator object as a class whose only
  mutable field is the health map. Its methods are proved against the
  functions above. The module also holds the scripted demonstration and the
  trace of its six attacks.

Three facts about the code shape the model:
- `apply_attack` returns only a boolean. The model's `ApplyAttack` does the
  same.
- `calculate_attack_cost` indexes both dictionaries directly, so an unknown
  key would raise `KeyError`. Its model requires both keys to exist.
- There is no health accessor. Callers read the `country_health` field, and
  the model's class exposes the same field.

## Model

| member | source | states |
|---|---|---|
| Tables.AttackName | main.py:8-15 | each attack's key in the base-cost table is a non-empty string; `NamesAreKeys` proves the keys distinct |
| Tables.CountryName | main.py:18-21 | each country's key in the country table is a non-empty string; `NamesAreKeys` proves the keys distinct |
| Tables.BaseCost | main.py:7-16 | every base cost lies between 80 and 160, so every attack does positive damage |
| Tables.Multiplier | main.py:17-22 | every vulnerability multiplier lies between 0.8 and 1.5, so it is positive |
| Tables.TablesEnumerate | main.py:7-22 | the attack table has 8 entries and the country table 4; each lists every identity exactly once |
| Tables.NamesAreKeys | main.py:7-22 | two attacks, or two countries, have the same key exactly when they are the same entry |
| Tables.Find | main.py:34-40 | a found element is in the table and has the name searched for; nothing is found exactly when no element has that name |
| Tables.AttackNamed | main.py:34-36 | a found attack has the given key; the lookup fails exactly when no attack has that key |
| Tables.CountryNamed | main.py:38-40 | a found country has the given key; the lookup fails exactly when no country has that key |
| Tables.LookupByOwnName | main.py:196-200 | looking up a table's own key of an attack or a country finds that same attack or country |
| Health.InitialHealth | main.py:24 | every country is tracked and starts at 100, which satisfies the [0, 100] invariant |
| Health.Damage | main.py:26-30 | the damage of any attack on any country lies between 64 and 240 |
| Health.CalculateAttackCost | main.py:26-30 | for two known keys the cost is the base cost of the named attack times the multiplier of the named country; it is positive; both keys must exist |
| Health.AttackPowers | main.py:106-113 | an unknown attack name gives nothing; a known one gives one figure per country in table order, each equal to base cost × that country's multiplier |
| Health.Damaged | main.py:43-50 | only the target changes; its new health is max(0, old − damage); a snapshot in [0, 100] stays in it; a target still alive loses health strictly |
| Health.Attacked | main.py:32-55 | an unknown attack or country name leaves the snapshot unchanged; known names apply `Damaged` to the named pair; health stays in [0, 100] |
| Health.AttackedByOwnNames | main.py:32-55 | attacking by a table's own keys always applies; it damages the named country and no other |
| Health.AliveAmong | main.py:59 | a country is in the result exactly when it is in the given order and has health > 0; the result has no duplicates when the order has none |
| Health.CheckWinner | main.py:57-66 | a reported winner is a country that is alive; the full three-way classification is `CheckWinnerClassifies` |
| Health.CheckWinnerClassifies | main.py:57-66 | check_winner reports "all lost" exactly when no country is alive, "winner X" exactly when X alone is alive, and nothing exactly when two distinct countries are alive |
| Health.DefeatedTargetUnchanged | main.py:46-59 | attacking a country already at 0 leaves every health value and the verdict of check_winner unchanged |
| Health.DecidedStaysDecided | main.py:57-66 | a decided game stays decided under any further attack; "all lost" stays "all lost"; "winner X" becomes either "winner X" or "all lost" |
| Health.Band | main.py:74-80 | the three colours partition the health values: red exactly at or below 0, orange exactly strictly between 0 and 30, green exactly from 30 up |
| Health.BandAgreesWithDamage | main.py:74-80 | a bar is red exactly when check_winner counts that country as lost; an attack never moves any bar to a brighter colour |
| Rounds.PyIndex | main.py:196-200 | an index selects an element exactly when it lies in [−len, len); a non-negative index selects that position and a negative one counts from the end; anything else is an `IndexError` |
| Rounds.RoundStep | main.py:158-209 | a pass never consumes more inputs than there are; a pass that continues consumes at least one input and keeps health in [0, 100] |
| Rounds.TargetStep | main.py:196-205 | once an attack is chosen, at most one more input is read; a continuing pass keeps health in [0, 100] |
| Rounds.TargetStepByNames | main.py:196-205 | for a valid country number, the pass ends in apply_attack on the two table keys the menu numbers select, and the round counter goes up by one |
| Rounds.RunSession | main.py:158-209 | the whole loop over a given input sequence ends with health in [0, 100] and a round counter no smaller than at the start |
| Rounds.RoundStepEffect | main.py:158-209 | a decided game halts the pass before any input is read, and a verdict comes only from check_winner; a continuing pass either leaves health and the counter alone, or applies one attack after two inputs and counts exactly one round |
| Rounds.SessionInvariants | main.py:156-209 | over a whole session health stays in [0, 100] and never rises; the counter only grows, by at most one per two inputs; an unchanged counter means unchanged health; a session ended by a verdict ends in a state check_winner decides that way |
| Rounds.NoRoundAfterGameOver | main.py:170-177 | once check_winner reports a verdict, the session ends at once with that verdict; health and the counter are unchanged |
| Rounds.Sentinels | main.py:189-194 | attack number 0 ends the loop after one input; −1 consumes one input and changes neither health nor the counter |
| Rounds.InvalidInputChangesNothing | main.py:186-209 | each of these leaves health and the counter unchanged: a non-number, an attack number outside the list, or a bad country number after a valid attack |
| Rounds.AttackRound | main.py:196-205 | two valid menu numbers apply the attack and country they select, by Python list index k − 1, and raise the counter by one after consuming two inputs |
| Rounds.MenuIndexing | main.py:196-200 | menu numbers wrap like Python indices: country 0 is Страна Г, and attack −2 is the third from last (Дефолт); 9 and −8 select no attack; 5 and −4 select no country |
| Simulator.CountryAttackSimulator.constructor | main.py:6-24 | a new simulator has every country at 100 |
| Simulator.CountryAttackSimulator.ApplyAttack | main.py:32-55 | returns true exactly when both names are keys; the new health map is `Attacked` of the old one; health stays in [0, 100] |
| Simulator.CountryAttackSimulator.HealthColours | main.py:73-80 | one colour per country in table order, each the band of that country's health |
| Simulator.CountryAttackSimulator.PlayRound | main.py:159-209 | one pass of the loop body does exactly what `RoundStep` says; health changes only on a continuing pass, and then to that step's snapshot |
| Simulator.CountryAttackSimulator.PlayTarget | main.py:196-205 | the part of a pass after the attack number does exactly what `TargetStep` says |
| Simulator.CountryAttackSimulator.RunInteractiveSimulation | main.py:150-209 | starting at round 1, the final health, round counter and reason for stopping are those of `RunSession` on the given inputs |
| Simulator.DemoNames | main.py:220-227 | each of the six scripted name pairs is the pair of table keys of the corresponding attack and country |
| Simulator.ApplyScript | main.py:229-231 | applying a fixed list of attacks in order keeps health in [0, 100] |
| Simulator.ApplyScriptBounds | main.py:229-231 | a list of attacks never raises any health, and leaves untouched every country that none of them targets |
| Simulator.ApplyScriptSnoc | main.py:229-231 | one more attack at the end of a list hits the snapshot that the rest of the list left |
| Simulator.DemoLoopStep | main.py:229-231 | applying the i-th scripted pair by name is the first attack of the rest of the script |
| Simulator.DemoStep | main.py:229-231 | each scripted attack takes the expected health of every country to the next expected value |
| Simulator.DemoTrace | main.py:220-231 | after the first k scripted attacks every country has its expected health: А goes to 20; Б, Г and В then go to 0 after 144, 240 and 112 damage; then А goes to 0 (20 − 90, clamped) |
| Simulator.DemoMidgame | main.py:229-234 | after three attacks the game is still open; after four, Страна А is already the sole survivor, and the script goes on anyway |
| Simulator.DemoOutcome | main.py:229-235 | the demonstration ends with all four countries at 0, and check_winner reports that all lost |
| Simulator.ExampleSimulation | main.py:212-235 | a fresh simulator running the six attacks by name ends with every country at 0, and its check_winner verdict is "all lost" |

## Left out

- Health.CalculateAttackCost: the `KeyError` path for an unknown name is excluded by `requires`. Neither call site in main.py can reach it: line 43 runs after both membership tests (34-40), and line 113 runs after the attack test (108) on the country table's own keys.
- Console output is not modelled: every `print`, the `:.1f` formatting, the round banner, the per-round health listing, `show_available_attacks` and `show_countries` (main.py:134-148). It is presentation only.
- The matplotlib charts in `visualize_health` (main.py:82-104) and `visualize_attack_power` (main.py:115-132) are not modelled, because they are calls into a plotting library. The colour computation (`HealthColours`) and the damage figures (`AttackPowers`) are modelled. Chart requests in the loop and in the demo change no state, so they are omitted.
- `input()` and `int()` are not modelled; the loop receives a given sequence of `Input` values. The opening `y/n` question of the `__main__` block (main.py:244-254) is left out as input plumbing.
- RunInteractiveSimulation: when the inputs run out, the loop stops with reason `EndOfInput`. The source would instead block on `input()`, or end with an uncaught `EOFError`.
- Health values are exact reals. Python's float rounding of products such as 140 × 0.8 is not reproduced.
- The message strings of check_winner are represented by the `Verdict` datatype (`AllLost`, `Winner(country)`), not by the Russian text.
- Rounds.RoundStep: the source calls apply_attack by name. Because menu names are always table keys, the step is stated on the attack and country identities. `TargetStepByNames` proves that the two forms agree.
- Simulator.CountryAttackSimulator.PlayRound: the source has one loop body. Here it is split into PlayRound (winner check and attack number) and PlayTarget (country number and the attack). The early `continue`/`break` exits are written as a single if–else chain.
