/**
 The shared pool of dice (`sets` in `main`) and the two ways a die leaves
 it (`select_dice`): the user names a position and that entry is popped;
 the computer draws a die at random and the first entry equal to it is
 removed.
 */
module Pool {
  import opened Args
  import opened Prompt

  /** The sequence without its entry at position `i` (Python's `list.pop(i)` on the list). */
  function RemoveAt<T>(s: seq<T>, i: nat): (r: seq<T>)
    requires i < |s|
    ensures |r| == |s| - 1
  {
    s[..i] + s[i + 1..]
  }

  /** Popping position `i` keeps the entries before it in place and moves each later one down by one. */
  lemma RemoveAtShifts<T>(s: seq<T>, i: nat)
    requires i < |s|
    ensures forall j :: 0 <= j < i ==> RemoveAt(s, i)[j] == s[j]
    ensures forall j :: i <= j < |s| - 1 ==> RemoveAt(s, i)[j] == s[j + 1]
  {
  }

  /** The position of the first entry equal to `x` (Python's `list.index(x)`). */
  function FirstIndex<T(==)>(s: seq<T>, x: T): (i: nat)
    requires x in s
    ensures i < |s| && s[i] == x
    ensures forall j :: 0 <= j < i ==> s[j] != x
  {
    if s[0] == x then 0 else FirstIndex(s[1..], x) + 1
  }

  /** The sequence without the first entry equal to `x` (Python's `list.remove(x)`). */
  function RemoveFirst<T(==)>(s: seq<T>, x: T): seq<T>
    requires x in s
  {
    RemoveAt(s, FirstIndex(s, x))
  }

  /** Popping a position takes exactly that one entry out: the rest is a permutation of what was left. */
  lemma RemoveAtTakesOne<T>(s: seq<T>, i: nat)
    requires i < |s|
    ensures multiset(RemoveAt(s, i)) + multiset{s[i]} == multiset(s)
  {
    assert s == s[..i] + [s[i]] + s[i + 1..];
  }

  /** Removing by value takes out one copy of that value and leaves every other copy. */
  lemma RemoveFirstTakesOne<T>(s: seq<T>, x: T)
    requires x in s
    ensures |RemoveFirst(s, x)| == |s| - 1
    ensures multiset(RemoveFirst(s, x)) + multiset{x} == multiset(s)
    ensures multiset(RemoveFirst(s, x))[x] == multiset(s)[x] - 1
  {
    RemoveAtTakesOne(s, FirstIndex(s, x));
  }

  /**
   Removing the drawn entry by value leaves the same dice as popping its
   position, and in the same order when no equal entry comes before it.
   */
  lemma RemoveFirstIsPop<T>(s: seq<T>, k: nat)
    requires k < |s|
    ensures multiset(RemoveFirst(s, s[k])) == multiset(RemoveAt(s, k))
    ensures s[k] !in s[..k] ==> RemoveFirst(s, s[k]) == RemoveAt(s, k)
  {
    RemoveAtTakesOne(s, k);
    RemoveFirstTakesOne(s, s[k]);
    var byValue, byPosition := multiset(RemoveFirst(s, s[k])), multiset(RemoveAt(s, k));
    assert forall y :: byValue[y] == (byValue + multiset{s[k]})[y] - multiset{s[k]}[y];
    assert forall y :: byPosition[y] == (byPosition + multiset{s[k]})[y] - multiset{s[k]}[y];
  }

  /** Two claims in a row take out exactly the two claimed entries. */
  lemma TwoClaimsTakeTwo<T>(s: seq<T>, between: seq<T>, after: seq<T>, first: T, second: T)
    requires multiset(between) + multiset{first} == multiset(s)
    requires multiset(after) + multiset{second} == multiset(between)
    ensures multiset(s) == multiset(after) + multiset{first, second}
  {
    assert multiset{first, second} == multiset{second} + multiset{first};
  }

  /** A claimed die is gone from the pool exactly when the pool held one copy of it. */
  lemma ClaimedDieLeavesPool<T>(s: seq<T>, i: nat)
    requires i < |s|
    ensures s[i] !in RemoveAt(s, i) <==> multiset(s)[s[i]] == 1
  {
    RemoveAtTakesOne(s, i);
    assert multiset(RemoveAt(s, i))[s[i]] == multiset(s)[s[i]] - 1;
  }

  /** A claim: the die, and where it stood in the pool it was taken from. */
  datatype Claim = Claim(index: nat, die: Die)

  class DicePool {
    /** The unclaimed dice, in the order the user sees them listed. */
    var dice: seq<Die>

    constructor (sets: seq<Die>)
      ensures dice == sets
    {
      dice := sets;
    }

    /**
     `select_dice(sets, "user")`: asks for a position in `[0, len(sets))` and
     pops it. Quitting, or running out of input, leaves the pool as it was.
     */
    method ClaimChosen(lines: seq<string>) returns (s: Settled, claim: Claim)
      modifies this
      ensures s == Settle(lines, |old(dice)|)
      ensures s.answer.Chosen? ==>
                s.answer.n < |old(dice)| && claim == Claim(s.answer.n, old(dice)[s.answer.n]) &&
                dice == RemoveAt(old(dice), s.answer.n)
      ensures !s.answer.Chosen? ==> dice == old(dice)
    {
      s := Ask(lines, |dice|);
      SettleInRange(lines, |dice|);
      claim := Claim(0, [0, 0, 0, 0, 0, 0]);
      if s.answer.Chosen? {
        var i := s.answer.n;
        claim := Claim(i, dice[i]);
        dice := RemoveAt(dice, i);
      }
    }

    /**
     `select_dice(sets, "computer")`: `random.choice` picks the entry at
     position `k`; `remove` then takes out the first entry equal to it.
     */
    method ClaimDrawn(k: nat) returns (claim: Claim)
      requires k < |dice|
      modifies this
      ensures claim.die == old(dice)[k]
      ensures claim.index == FirstIndex(old(dice), claim.die) <= k
      ensures dice == RemoveFirst(old(dice), claim.die)
    {
      var die := dice[k];
      var i := FirstIndex(dice, die);
      claim := Claim(i, die);
      dice := RemoveAt(dice, i);
    }
  }
}
