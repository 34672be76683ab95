/**
 One throw and its resolution (`roll_dice` after the prompt): the index
 into the die is the computer's committed number plus the user's number
 modulo 6; the face read from `dice` at that index is announced as the
 computer's throw, the face read from `opponent_dice` at the USER'S NUMBER
 (not at the joint index) as the user's throw, and a three-way comparison
 names the winner.
 */
module Round {
  import opened Args

  /** Who wins a round. */
  datatype Winner = ComputerWins | UserWins | Draw

  /** The outcome with the two players' roles exchanged. */
  function Mirror(w: Winner): Winner {
    match w
    case ComputerWins => UserWins
    case UserWins => ComputerWins
    case Draw => Draw
  }

  /** The joint index `(computer_number + user_number) % 6`. */
  function ThrowIndex(committed: nat, added: nat): (r: nat)
    requires committed < FACES && added < FACES
    ensures r < FACES
    ensures r == committed + added || r == committed + added - FACES
  {
    (committed + added) % FACES
  }

  /**
   Neither number alone fixes the index: whatever the user adds, each index
   comes from exactly one committed number, so a uniform commitment gives a
   uniform index.
   */
  lemma ThrowIndexIsFair(added: nat, target: nat)
    requires added < FACES && target < FACES
    ensures exists committed: nat :: committed < FACES && ThrowIndex(committed, added) == target
    ensures forall c1: nat, c2: nat ::
              (c1 < FACES && c2 < FACES && ThrowIndex(c1, added) == target && ThrowIndex(c2, added) == target)
              ==> c1 == c2
  {
    var committed := (target + FACES - added) % FACES;
    assert ThrowIndex(committed, added) == target;
  }

  /** The three-way comparison of the two throws, the computer's first. */
  function Decide(computerThrow: int, userThrow: int): (w: Winner)
    ensures w == ComputerWins <==> computerThrow > userThrow
    ensures w == UserWins <==> computerThrow < userThrow
    ensures w == Draw <==> computerThrow == userThrow
  {
    if computerThrow > userThrow then ComputerWins
    else if computerThrow < userThrow then UserWins
    else Draw
  }

  /** Exchanging the two throws exchanges the two winning outcomes and keeps a draw. */
  lemma DecideIsAntisymmetric(a: int, b: int)
    ensures Decide(b, a) == Mirror(Decide(a, b))
  {
  }

  /**
   The round: the joint index, the two throws (in the order `roll_dice`
   returns them, the user's first) and the winner.
   */
  datatype Round = Round(index: nat, userThrow: int, computerThrow: int, winner: Winner)

  /** `roll_dice` once both numbers are known. */
  function Resolve(dice: Die, opponentDice: Die, committed: nat, added: nat): (r: Round)
    requires committed < FACES && added < FACES
    ensures r.index == ThrowIndex(committed, added)
    ensures r.computerThrow == dice[r.index]
    ensures r.userThrow == opponentDice[added]
    ensures r.winner == Decide(r.computerThrow, r.userThrow)
  {
    var index := ThrowIndex(committed, added);
    Round(index, opponentDice[added], dice[index], Decide(dice[index], opponentDice[added]))
  }

  /**
   The user's throw is fixed by the user's own number: the committed number
   does not enter it, so the fairness of the joint index does not reach it.
   */
  lemma UserThrowIgnoresCommitment(dice: Die, opponentDice: Die, c1: nat, c2: nat, added: nat)
    requires c1 < FACES && c2 < FACES && added < FACES
    ensures Resolve(dice, opponentDice, c1, added).userThrow == Resolve(dice, opponentDice, c2, added).userThrow
  {
  }
}
