# DnD damage estimator: a verified model

`DnD.py` estimates, by repeated trials, the average damage that a tabletop
character deals per turn with different feats. This project models its core
in Dafny:

- **Dice** (`dice.dfy`): `roll_die`, `roll` and `avg_roll`. The random
  generator is a `DieSource` object. It holds a scripted oracle and counts how
  many draws were read. The only promise kept from `random.randint(1, size)` is
  that a draw on a die with `size >= 1` faces lies in `[1, size]` (`Fair`). An
  empty range (`size < 1`) is `randint`'s `ValueError`. The model returns it as
  `Err(EmptyRange)` and consumes no draw.
- **Character rules** (`rules.dfy`): ability modifiers, the proficiency bonus,
  the `Character` and `Attack` constructors, `Attack.execute` and
  `Character.attack`. Characters and attacks are never changed after
  construction, so they are values. The attribute lookup by name
  (`__getattribute__`) is a map from a six-valued `Ability` to a score.
  `int(x / n)` rounds toward zero and is modelled as `TruncDiv`.
- **Sampler** (`sampling.dfy`): a class with the fields `name`, `samples`,
  `sum`, `standard` and `avg`. `Run` takes what the successive
  `calculate()` calls return or raise. `Summarize` gives the row that `summarize` prints:
  either the short layout or the one with the gain columns.
- **Savage attacker** (`savage.dfy`): the reroll rule nested in `main`, as a
  method over the damage of successive attack calls. A corrected version sits
  beside it (see Findings).

`prelude.dfy` holds the shared `Option`, `Result`, `Outcome` and `Error` types,
plus `RangeLength`, the iteration count of `range(n)`, and `Max`, the
"keep the larger" choice of the reroll rule.

## Model

| member | source | states |
|---|---|---|
| `Dice.DieSource.RollDie` | DnD.py:23-26 | a draw on a die of `size >= 1` faces lies in `[1, size]` and advances the generator by one; `size < 1` fails with no draw consumed |
| `Dice.Roll` | DnD.py:29-33 | the loop's sum is the sum of the next `quantity` draws and consumes exactly that many; no draws for `quantity <= 0`; an empty die range fails on the first draw |
| `Dice.RollSumBounds` | DnD.py:29-33 | with every draw in `[1, dice]`, a roll lies in `[quantity, quantity * dice]`; a non-positive quantity rolls 0 |
| `Dice.AvgRoll` | DnD.py:36-37 | `avg_roll(q, d)` is the midpoint of `q` and `q * d` |
| `Dice.FaceSumClosedForm` | DnD.py:36-37 | the faces of a `d`-sided die add up to `d * (d + 1) / 2` |
| `Dice.AvgRollIsMeanOfFaces` | DnD.py:36-37 | `avg_roll(q, d)` equals `q` times the mean of the `d` equally likely faces |
| `Rules.TruncDiv` | DnD.py:42 | Python's `int(a / b)` is the quotient rounded toward zero: its remainder has the dividend's sign and is smaller than `b` |
| `Rules.ScoreBonus` | DnD.py:41-42 | `score_bonus` equals floor division `score / 2 - 5` for non-negative or even scores, and is one higher for negative odd scores (truncation) |
| `Rules.ScoreBonusMonotone` | DnD.py:41-42 | a higher score never gives a lower modifier |
| `Rules.ScoreBonusSign` | DnD.py:41-42 | the modifier is non-negative exactly from score 10 up; 10 gives 0, 19 gives 4, 7 gives -2, -1 gives -5 |
| `Rules.ProficiencyBonus` | DnD.py:45-46 | for level at least 1 the bonus is `(level - 1) / 4 + 2`; it is at least 2 exactly when the level is at least -2 |
| `Rules.ProficiencyBonusMonotone` | DnD.py:45-46 | a higher level never gives a lower bonus |
| `Rules.ProficiencyBonusTable` | DnD.py:45-46 | levels 1-4 give 2, levels 5-8 give 3, levels 17 and 20 give 6 |
| `Rules.AbilityName` | DnD.py:6-13 | every ability's attribute name is one of the accepted attack bases |
| `Rules.EveryAbilityScored` | DnD.py:58-60 | a character has a score under every ability name, so the lookup by name never fails |
| `Rules.NewCharacter` | DnD.py:48-56 | the constructor stores the level and the six scores unchanged and sets the proficiency bonus from the level |
| `Rules.ParseBase` | DnD.py:13 | an accepted base maps to the attack kind whose name it is |
| `Rules.NewAttack` | DnD.py:68-73 | construction succeeds exactly when the base is in `scores`, otherwise it fails with the unknown-kind error; on success `type`, `quantity` and `dice` are stored unchanged |
| `Rules.KindNamesDistinct` | DnD.py:13 | every attack kind has an accepted name, and distinct kinds have distinct names |
| `Rules.Execute` | DnD.py:75-76 | `execute` returns `roll(quantity, dice)` and consumes its draws |
| `Rules.CharacterAttack` | DnD.py:58-64 | the attack's roll plus the modifier of the attack's ability, or plus 0 when it has none; errors from the roll propagate; neither value changes |
| `Rules.AttackOutcomeBounds` | DnD.py:58-64 | on a real die an attack always succeeds, and its damage lies between `quantity + modifier` and `quantity * dice + modifier` |
| `Sampling.Sampler.constructor` | DnD.py:80-84 | a new sampler stores its name and sample count, has sum 0, no standard and no average |
| `Sampling.Sampler.Run` | DnD.py:90-93 | `calculate` is called once per sample; `sum` grows by the total of the results without being reset; a call that raises ends the run with its error, keeping the results added before it in `sum` and leaving `avg` unchanged; otherwise `avg` becomes `sum / samples`; 0 samples raise a division error and leave `avg` unchanged; nothing else changes |
| `Sampling.ReturnedCount` | DnD.py:91-92 | the calls before the first raising one all returned, and the call at that position raised |
| `Sampling.TotalAppend` | DnD.py:90-92 | the total of two consecutive batches of results is the sum of their totals |
| `Sampling.TotalBounds` | DnD.py:90-92 | results within `[lo, hi]` total between `n * lo` and `n * hi` |
| `Sampling.AverageWithinBounds` | DnD.py:90-93 | a fresh run's average lies between the smallest and the largest possible result |
| `Sampling.ConstantRun` | DnD.py:90-93 | a constant result `v` over `n` samples totals `n * v` and averages `v` |
| `Sampling.RunTwice` | DnD.py:90-93 | running one sampler twice adds both runs into `sum` and divides by one `samples`, so the average is double-counted |
| `Sampling.Sampler.Summarize` | DnD.py:95-104 | the gain columns appear exactly when `standard` is truthy (set and non-zero); gain is `avg - standard`; percent gain times the sampler's own `avg` is the gain; a missing `avg` or a zero `avg` with gain columns is an error |
| `Sampling.PercentGainExample` | DnD.py:97-101 | an average of 12 against a standard of 10 gains 2, or 2/12 |
| `Sampling.FalsyStandardIsShort` | DnD.py:97-104 | no standard and a standard of 0 both select the short layout |
| `Savage.SavageTurnAsWritten` | DnD.py:129-143 | a rerolled attack keeps the larger of its first damage and its reroll, an attack not rerolled keeps its first damage; attack 1 rerolls exactly when its first damage is at most the average; attack 2 rerolls when attack 1 did not, or when attack 1's reroll was 0 |
| `Savage.SavageAttacker` | DnD.py:129-143 | the turn's damage is the sum of both attacks as the rule plays them, with two attack calls plus one per reroll |
| `Savage.AsWrittenRerollsTwice` | DnD.py:131-141 | as written, every turn rerolls at least once, and rerolls twice exactly when attack 1 rerolls and the reroll deals 0 |
| `Savage.DoubleRerollWitness` | DnD.py:131-141 | attacks dealing 0 against a threshold of 10 reroll both attacks |
| `Savage.SavageTurn` | DnD.py:129-143 | the intended rule rerolls attack 1 exactly when its first damage is at most the average and then keeps the larger of damage and reroll, leaving attack 2 alone; otherwise attack 2 keeps the larger of its damage and the reroll |
| `Savage.SavageTurnRerollsOnce` | DnD.py:129-143 | the intended rule spends exactly one reroll, on attack 2 exactly when attack 1 did not use it, and never deals less than the first damages |
| `Savage.SavageTurnAgreesOtherwise` | DnD.py:131-141 | the code and the intended rule agree on every turn without a zero-damage reroll of attack 1 |

## Left out

- `random.randint` and the process entropy are replaced by a scripted oracle. Its only promise is the range of each draw, which is a precondition of the dice methods. Uniformity is not modelled.
- `DEBUG` printing, and the text rendering in `summarize`: `print`, `ljust`, column width 24, the 4-decimal formatting and `_percent`. Only the choice of columns and their values are modelled.
- Floating point: `avg`, `avg_roll`, the gains and the comparison with the reroll threshold are exact reals. `int(score / 2)` and `int((level - 1) / 4)` are exact integer truncation, as IEEE doubles give for integers below 2^53.
- `Sampling.Sampler.Run`: `calculate` is given by the list of what its calls return or raise, so its side effects are not modelled, in particular the draws it consumes. The requirement that the list has one entry per sample stands for "calls `calculate` exactly `samples` times"; entries after a raising call are never read.
- `Savage.SavageAttacker`: the attack calls of a turn are taken as the damage they return. An attack that raises mid-turn (a die with no faces) is not modelled; the attack that `main` passes to the rule uses a six-sided die.
- The default `calculate`, which raises `NotImplementedError`, and the assignment of `calculate` and `standard` by callers. Callers set `standard` directly on the field.
- `main`'s fixed scenario wiring (lines 111-128 and 144-200), the unused `inspect` import and the `__main__` entry point. The savage-attacker rule is modelled; its threshold `avg_roll(2, d6) + 3` is a parameter.
- `DnD.py` has no minimum/maximum tracking, no baseline registry and no guard against a second `run`, so the model has none. A second run double-counts, as `Sampling.RunTwice` states.

## Findings

| source | as written | input that shows it | evidently intended | confidence | as-written member | corrected member |
|---|---|---|---|---|---|---|
| DnD.py:131-141 | `reroll = 0` marks "no reroll spent yet", and attack 2 rerolls `if not reroll`, so a spent reroll that dealt 0 damage is taken for an unspent one | first attack damage 0 against threshold 10.0 and a reroll of 0: both attacks are rerolled; latent in `main`, whose attack (2d6 + 4 for dexterity 19, lines 113, 127) deals at least 6, and reached by an attack that can deal 0, such as a strength-based 2d6 for strength 7 (modifier -2) | the reroll is spent once per turn (comment at line 130): attack 2 rerolls only when attack 1 did not | medium, not executed | `Savage.DoubleRerollWitness` | `Savage.SavageTurnRerollsOnce` |
