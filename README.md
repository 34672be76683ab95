# DiceGame in Dafny

A model of `game.py`, a console game of non-transitive dice played by a
user against the computer. The dice are given on the command line, one
argument per die, each as six comma-separated integers. A coin flip, to
which the computer commits with an HMAC before the user guesses, decides
who claims a die first. Both players then claim one die each from the
shared pool. One throw follows: the computer commits to a number in
`[0, 6)`, the user adds a number of their own modulo 6, and the faces read
from the two dice are compared.

The model is split along the program's parts:

- `text.dfy` (module `Text`): `str.split(',')` and `int(...)` on a token,
  with the inverse functions `Join` and `ShowInt` (Python's `str`) and the
  round trips between them.
- `args.dfy` (module `Args`): `validate_args`. It is a method with the
  source's `for` loop and early returns, specified by the per-argument
  function `ParseDie`.
- `prompt.dfy` (module `Prompt`): the classification shared by the three
  prompts (`x`/`X` quits, `h`/`H` shows help, otherwise an integer in
  `[0, bound)` is accepted and anything else is refused). Also the
  `while True` re-prompt loop (`Ask`) and its specification `Settle` over
  the lines the user types.
- `pool.dfy` (module `Pool`): the dice pool as a class whose `dice`
  sequence is changed in place. The user's claim pops a position
  (`list.pop`); the computer's claim removes the first die equal to the
  drawn one (`list.remove`).
- `round.dfy` (module `Round`): the joint index `(computer + user) % 6`,
  the two face look-ups and the three-way comparison of `roll_dice`.
- `game.dfy` (module `Game`): `first_move`, `roll_dice` with its prompt,
  and `main`'s sequencing of the coin flip, the two claims and the throw.

Behaviour as written, which the model keeps:

- The user's throw is `opponent_dice[user_number]`, indexed by the user's
  own number and not by the joint index. Only the computer's throw uses
  the joint index (`Round.Resolve`, `Round.UserThrowIgnoresCommitment`).
- `main` always passes the die of whoever claimed first as `roll_dice`'s
  `dice`, and `roll_dice` announces that die's face as the computer's
  throw. So when the user wins the coin flip, the throw called the
  computer's comes from the user's die, and the user's throw comes from
  the computer's die. `Game.Play` states this outright.
- A claimed die stays in the pool when the pool held two equal dice: it
  leaves the pool only when the pool held a single copy of it
  (`Pool.ClaimedDieLeavesPool`). `list.remove` may also take
  an earlier copy than the drawn position. The dice left over are the
  same, but their order can differ (`Pool.RemoveFirstIsPop`).
- Face values may be any integers, negative ones included; only the
  count of six is checked.

## Model

| member | source | states |
|---|---|---|
| `Text.Split` | game.py:16 | `arg.split(',')` yields at least one field, and no field contains a comma |
| `Text.JoinSplit` | game.py:16 | splitting loses nothing: joining the fields with commas gives back the argument |
| `Text.SplitJoin` | game.py:16 | comma-free fields joined with commas split back into exactly those fields |
| `Text.ParseShowInt` | game.py:16 | `int(str(n)) == n` for every integer, negative ones included, under the modelled `int()` and `str()` (ASCII, no digit limit) |
| `Args.ParseAll` | game.py:16 | `list(map(int, fields))` succeeds iff every field is an integer, and then the i-th value is the i-th field's integer |
| `Args.ReadDie` | game.py:16-21 | a non-integer field gives the "comma-separated values" error whatever the field count; otherwise a count other than 6 gives the "exactly 6 values" error; otherwise the die holds the six fields' integers in order |
| `Args.ParseFormat` | game.py:16-19 | every die, typed as six comma-separated numerals, is read back as the same die |
| `Args.ValidateArgs` | game.py:9-22 | fewer than three arguments: "at least three" error, no argument read; success iff every argument reads as a die, and then one die per argument in argument order; otherwise the error of the first bad argument |
| `Prompt.Classify` | game.py:32-44 | a line quits iff it is `x`/`X`, asks for help iff it is `h`/`H`, and an accepted number always lies in `[0, bound)` |
| `Prompt.ClassifyNumber` | game.py:40-44 | a line that is neither command and reads as the integer `n` is accepted as `n` iff `0 <= n < bound`, and refused otherwise |
| `Prompt.ClassifyAccepts` | game.py:38-44 | a line is accepted iff it is neither command and `int()` reads it as an integer in `[0, bound)`, and then it is accepted as that integer; a line `int()` rejects is never accepted |
| `Prompt.ClassifyNumeral` | game.py:70-73 | a typed integer is accepted exactly when `0 <= n < bound`, so negative positions are refused although `pop` would take them |
| `Prompt.SettleMeaning` | game.py:30-44 | a prompt settles on the first line that quits or is accepted; every earlier line was help or refused; a chosen answer is in range; if nothing settles it, all input was read |
| `Prompt.SettleInRange` | game.py:108-111 | an answer a prompt accepts lies in `[0, bound)` |
| `Prompt.SettleSkipsReprompts` | game.py:102-114 | help and refused lines before the input change nothing about the answer; they only add to the count of lines read |
| `Prompt.Ask` | game.py:88-114 | the `while True` loop returns exactly what `Settle` specifies: the same answer after the same number of lines |
| `Pool.RemoveAt` | game.py:74 | popping a position shortens the pool by exactly one |
| `Pool.RemoveAtShifts` | game.py:74 | popping position `i` keeps the entries before `i` in place and shifts the later ones down by one |
| `Pool.FirstIndex` | game.py:79 | the position found is the first one holding the value |
| `Pool.RemoveAtTakesOne` | game.py:74 | a pop takes out exactly the popped die: the remaining dice plus that die are the old pool |
| `Pool.RemoveFirstTakesOne` | game.py:78-79 | `remove` shrinks the pool by one and takes out exactly one copy of the drawn die |
| `Pool.RemoveFirstIsPop` | game.py:78-79 | removing the drawn die by value leaves the same dice as popping its position, in the same order when no equal die comes before it |
| `Pool.ClaimedDieLeavesPool` | game.py:74 | a claimed die is absent from the pool afterwards iff the pool held exactly one copy of it |
| `Pool.DicePool.constructor` | game.py:146 | the pool starts as the validated dice, in argument order |
| `Pool.DicePool.ClaimChosen` | game.py:55-76 | the prompt's bound is the pool size; an accepted position is popped and its die returned; quitting or running out of input leaves the pool unchanged |
| `Pool.DicePool.ClaimDrawn` | game.py:77-81 | the die returned is the drawn entry; the first entry equal to it, at or before the drawn position, is removed |
| `Round.ThrowIndex` | game.py:116 | the joint index lies in `[0, 6)` and is the plain sum or the sum minus 6 |
| `Round.ThrowIndexIsFair` | game.py:116 | for any number the user adds, each index comes from exactly one committed number |
| `Round.Decide` | game.py:127-132 | computer wins iff its throw is larger, user wins iff smaller, draw iff equal: exactly one outcome |
| `Round.DecideIsAntisymmetric` | game.py:127-132 | exchanging the two throws exchanges the two wins and keeps a draw |
| `Round.Resolve` | game.py:116-134 | the computer's throw is `dice` at the joint index, the user's throw is `opponent_dice` at the user's number, and the winner follows their comparison |
| `Round.UserThrowIgnoresCommitment` | game.py:120-123 | the user's throw does not depend on the computer's committed number |
| `Game.FirstMove` | game.py:24-52 | the guess is read by the {0, 1} prompt; the user moves first iff the accepted guess equals the computer's choice |
| `Game.RollDice` | game.py:83-134 | the user's number is read by the `[0, 6)` prompt and the round is resolved with it and the committed number |
| `Game.ThrowPromptRefusesSeven` | game.py:108-114 | `7` at the throw prompt is refused and re-prompted |
| `Game.UserClaimsFirst` | game.py:152-154 | the user pops a position, then the computer draws from what is left; the pool loses exactly those two dice; quitting or running out of input at the prompt leaves the pool unchanged |
| `Game.ComputerClaimsFirst` | game.py:156-158 | the computer draws from the full pool, then the user pops a position of what is left; the pool loses exactly those two dice; quitting or running out of input at the prompt leaves the pool without the computer's die only |
| `Game.Play` | game.py:146-159 | the three prompts (coin flip, claim over the pool the user is shown, throw) read the console in turn; the session is played iff all three are answered, ends `Aborted` iff the first prompt not answered with a number was quit, and `InputExhausted` iff the input ran out there; a played session records the three answers, follows the coin flip's turn order, takes exactly the two claimed dice out of the pool, and reads the first claimer's die at the joint index as the computer's throw |

## Left out

- `hmac_hash` (HMAC-SHA-256 of the chosen value under a random key) is not modelled. Its digest is only printed, and the program never checks it against anything. The printed "KEY" is the digest again, not the key. A commitment verification step does not exist in the code and is not invented here.
- The random key in `first_move` and in `main` only feeds the HMAC and is dropped. The other random values are parameters: the computer's coin value, the position `random.choice` draws, and the computer's number. `Game.Play` takes one drawn position for each moment the computer may claim (`drawFirst` for the full pool, `drawSecond` for the pool the user left).
- Printing, menus and help text are not modelled. `exit()` after `x`/`X` is modelled as the `Quit` answer and the `Aborted` ending, not as a process exit.
- End of input is the `EndOfInput` answer and the `InputExhausted` ending. Python would raise `EOFError` there.
- `main`'s `sys.argv` handling is not modelled: the `len(sys.argv) < 4` pre-check, its message and the `sys.exit(1)` calls. `Game.Play` starts from the dice `validate_args` returned; `Args.ValidateArgs` is modelled on its own.
- Text.ParseShowInt: `int()` and `str()` are modelled without the limit of 4300 decimal digits that CPython 3.11 and later enforce (a `ValueError` beyond it); the round trip is stated for every integer.
- Args.ValidateArgs: a face written with more than 4300 digits is read as a number, where CPython 3.11 and later raise `ValueError` and `validate_args` reports the "comma-separated values" error.
- Text.ParseInt: `int()` is modelled on ASCII only. It trims ASCII whitespace, then reads an optional sign and one or more ASCII digits. Python also accepts underscores between digits, non-ASCII digits and Unicode whitespace; the model refuses those.
- The `x`/`X` and `h`/`H` tests are modelled as a comparison with the one-letter line in either case. This matches `lower()` for these letters.
- Python's `list.remove` and `list.index` are modelled as functions (`Pool.RemoveFirst`, `Pool.FirstIndex`), not as the library's internal loops.
