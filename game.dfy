/**
 A game session once the dice have been read (`main` from line 146 on):
 the coin flip decides who claims a die first, both players claim one in
 that order from the shared pool, and one throw is played.

 Everything random is a parameter: the computer's coin value, the position
 `random.choice` draws from the pool (for each of the two moments the
 computer may claim), and the computer's number for the throw. The console
 is the sequence of lines the user types; the prompts read it in turn.
 */
module Game {
  import opened Text
  import opened Args
  import opened Prompt
  import opened Pool
  import opened Round

  /**
   `first_move`: the computer has committed to `computerChoice` in {0, 1};
   the user guesses, and moves first exactly when the guess matches.
   */
  method FirstMove(computerChoice: nat, lines: seq<string>) returns (s: Settled, userFirst: bool)
    requires computerChoice < 2
    ensures s == Settle(lines, 2)
    ensures s.answer.Chosen? ==> s.answer.n < 2 && (userFirst <==> s.answer.n == computerChoice)
  {
    s := Ask(lines, 2);
    SettleInRange(lines, 2);
    userFirst := s.answer.Chosen? && s.answer.n == computerChoice;
  }

  /**
   `roll_dice`: the computer has committed to `computerNumber` in `[0, 6)`;
   the user adds a number in `[0, 6)` and the round is resolved with it.
   */
  method RollDice(dice: Die, computerNumber: nat, opponentDice: Die, lines: seq<string>)
    returns (s: Settled, round: Round)
    requires computerNumber < FACES
    ensures s == Settle(lines, FACES)
    ensures s.answer.Chosen? ==>
              s.answer.n < FACES && round == Resolve(dice, opponentDice, computerNumber, s.answer.n)
  {
    s := Ask(lines, FACES);
    SettleInRange(lines, FACES);
    round := Round(0, 0, 0, Draw);
    if s.answer.Chosen? {
      round := Resolve(dice, opponentDice, computerNumber, s.answer.n);
    }
  }

  /** A `7` typed at the throw prompt is refused and the prompt is shown again. */
  lemma ThrowPromptRefusesSeven()
    ensures Classify("7", FACES) == Invalid
    ensures Reprompts(Classify("7", FACES))
  {
    ClassifyNumeral(7, FACES);
    assert ShowInt(7) == "7";
  }

  /** How a session ends: the user quits at a prompt, the input runs out, or one round is played. */
  datatype Ending =
    | Aborted
    | InputExhausted
    | Played(guess: nat, userFirst: bool, user: Claim, computer: Claim,
             userNumber: nat, round: Round, pool: seq<Die>)

  /** The answers of a session's three prompts: the coin flip, the claim of a die and the throw. */
  datatype Transcript = Transcript(flip: Settled, claim: Settled, throw: Settled)

  /**
   The three prompts read over the console in turn, each from the lines the
   one before it left. The claim prompt lists the full pool when the user
   won the coin flip, and one die fewer when the computer claimed first.
   */
  function Prompts(lines: seq<string>, coin: nat, poolSize: nat): Transcript
    requires poolSize >= 1
  {
    var flip := Settle(lines, 2);
    var afterFlip := lines[flip.used..];
    var claim := Settle(afterFlip, if flip.answer == Chosen(coin) then poolSize else poolSize - 1);
    Transcript(flip, claim, Settle(afterFlip[claim.used..], FACES))
  }

  /**
   The claims of `main` when the user won the coin flip (lines 153-154):
   the user pops a position, then the computer draws position `draw` of
   what is left and removes the first die equal to it.
   */
  method UserClaimsFirst(pool: DicePool, draw: nat, lines: seq<string>)
    returns (s: Settled, user: Claim, computer: Claim)
    requires draw < |pool.dice| - 1
    modifies pool
    ensures s == Settle(lines, |old(pool.dice)|)
    ensures s.answer.Chosen? ==> user.index == s.answer.n
    ensures !s.answer.Chosen? ==> pool.dice == old(pool.dice)
    ensures s.answer.Chosen? ==>
              user.index < |old(pool.dice)| && user.die == old(pool.dice)[user.index] &&
              computer.die == RemoveAt(old(pool.dice), user.index)[draw] &&
              pool.dice == RemoveFirst(RemoveAt(old(pool.dice), user.index), computer.die)
    ensures s.answer.Chosen? ==>
              |pool.dice| == |old(pool.dice)| - 2 &&
              multiset(old(pool.dice)) == multiset(pool.dice) + multiset{user.die, computer.die}
  {
    ghost var sets := pool.dice;
    s, user := pool.ClaimChosen(lines);
    computer := Claim(0, [0, 0, 0, 0, 0, 0]);
    if s.answer.Chosen? {
      ghost var left := pool.dice;
      RemoveAtTakesOne(sets, user.index);
      computer := pool.ClaimDrawn(draw);
      RemoveFirstTakesOne(left, computer.die);
      TwoClaimsTakeTwo(sets, left, pool.dice, user.die, computer.die);
    }
  }

  /**
   The claims of `main` when the computer won the coin flip (lines
   157-158): the computer draws position `draw` of the full pool and removes
   the first die equal to it, then the user pops a position of what is left.
   */
  method ComputerClaimsFirst(pool: DicePool, draw: nat, lines: seq<string>)
    returns (s: Settled, user: Claim, computer: Claim)
    requires draw < |pool.dice|
    modifies pool
    ensures s == Settle(lines, |old(pool.dice)| - 1)
    ensures s.answer.Chosen? ==> user.index == s.answer.n
    ensures computer.die == old(pool.dice)[draw]
    ensures !s.answer.Chosen? ==> pool.dice == RemoveFirst(old(pool.dice), computer.die)
    ensures s.answer.Chosen? ==>
              user.index < |old(pool.dice)| - 1 &&
              user.die == RemoveFirst(old(pool.dice), computer.die)[user.index] &&
              pool.dice == RemoveAt(RemoveFirst(old(pool.dice), computer.die), user.index)
    ensures s.answer.Chosen? ==>
              |pool.dice| == |old(pool.dice)| - 2 &&
              multiset(old(pool.dice)) == multiset(pool.dice) + multiset{user.die, computer.die}
  {
    ghost var sets := pool.dice;
    computer := pool.ClaimDrawn(draw);
    ghost var left := pool.dice;
    RemoveFirstTakesOne(sets, computer.die);
    assert |left| == |sets| - 1;
    s, user := pool.ClaimChosen(lines);
    if s.answer.Chosen? {
      RemoveAtTakesOne(left, user.index);
      TwoClaimsTakeTwo(sets, left, pool.dice, computer.die, user.die);
    }
  }

  /**
   The session: coin flip, the two claims in turn order, one throw. The die
   of whoever claimed first is always passed to `roll_dice` as `dice`, whose
   face at the joint index is announced as the computer's throw; so when the
   user moves first, the throw called the computer's is read from the
   user's die and the user's throw from the computer's die.
   */
  method Play(sets: seq<Die>, coin: nat, drawFirst: nat, drawSecond: nat, computerNumber: nat,
              lines: seq<string>) returns (e: Ending)
    requires coin < 2 && computerNumber < FACES
    requires drawFirst < |sets| && drawSecond < |sets| - 1
    // every prompt reads the lines the one before it left; the session is played
    // exactly when all three are answered, and stops at the first quit or end of input
    ensures var p := Prompts(lines, coin, |sets|);
              e.Played? <==> p.flip.answer.Chosen? && p.claim.answer.Chosen? && p.throw.answer.Chosen?
    ensures var p := Prompts(lines, coin, |sets|);
              e == Aborted <==>
                p.flip.answer == Quit ||
                (p.flip.answer.Chosen? && (p.claim.answer == Quit || (p.claim.answer.Chosen? && p.throw.answer == Quit)))
    ensures var p := Prompts(lines, coin, |sets|);
              e == InputExhausted <==>
                p.flip.answer == EndOfInput ||
                (p.flip.answer.Chosen? &&
                 (p.claim.answer == EndOfInput || (p.claim.answer.Chosen? && p.throw.answer == EndOfInput)))
    ensures var p := Prompts(lines, coin, |sets|);
              e.Played? ==>
                p.flip.answer == Chosen(e.guess) && (e.userFirst <==> e.guess == coin) &&
                p.claim.answer == Chosen(e.user.index) && p.throw.answer == Chosen(e.userNumber)
    // turn order of the claims
    ensures e.Played? && e.userFirst ==>
              e.user.index < |sets| && e.user.die == sets[e.user.index] &&
              e.computer.die == RemoveAt(sets, e.user.index)[drawSecond] &&
              e.pool == RemoveFirst(RemoveAt(sets, e.user.index), e.computer.die)
    ensures e.Played? && !e.userFirst ==>
              e.computer.die == sets[drawFirst] &&
              e.user.index < |sets| - 1 && e.user.die == RemoveFirst(sets, e.computer.die)[e.user.index] &&
              e.pool == RemoveAt(RemoveFirst(sets, e.computer.die), e.user.index)
    // the two claimed dice are gone from the pool and nothing else is
    ensures e.Played? ==>
              |e.pool| == |sets| - 2 && multiset(sets) == multiset(e.pool) + multiset{e.user.die, e.computer.die}
    // the throw: the first claimer's die is read at the joint index
    ensures e.Played? ==>
              e.userNumber < FACES && e.round.index == ThrowIndex(computerNumber, e.userNumber) &&
              e.round.computerThrow == (if e.userFirst then e.user.die else e.computer.die)[e.round.index] &&
              e.round.userThrow == (if e.userFirst then e.computer.die else e.user.die)[e.userNumber] &&
              e.round.winner == Decide(e.round.computerThrow, e.round.userThrow)
  {
    ghost var p := Prompts(lines, coin, |sets|);
    var pool := new DicePool(sets);
    var coinFlip, userFirst := FirstMove(coin, lines);
    assert coinFlip == p.flip;
    if coinFlip.answer == Quit {
      return Aborted;
    } else if coinFlip.answer == EndOfInput {
      return InputExhausted;
    }
    var rest := lines[coinFlip.used..];
    ghost var shown := if userFirst then |sets| else |sets| - 1;
    var choice, user, computer;
    if userFirst {
      choice, user, computer := UserClaimsFirst(pool, drawSecond, rest);
    } else {
      choice, user, computer := ComputerClaimsFirst(pool, drawFirst, rest);
    }
    assert choice == Settle(rest, shown) == p.claim;
    if choice.answer == Quit {
      return Aborted;
    } else if choice.answer == EndOfInput {
      return InputExhausted;
    }
    rest := rest[choice.used..];
    var first, second := if userFirst then user.die else computer.die, if userFirst then computer.die else user.die;
    var throw, round := RollDice(first, computerNumber, second, rest);
    assert throw == p.throw;
    if throw.answer == Quit {
      return Aborted;
    } else if throw.answer == EndOfInput {
      return InputExhausted;
    }
    return Played(coinFlip.answer.n, userFirst, user, computer, throw.answer.n, round, pool.dice);
  }
}
