/**
 The interactive prompts of the game. Each of the three prompts (the
 coin-flip guess, the choice of a die, the number added modulo 6) reads
 lines until one settles it: `x` or `X` ends the game, `h` or `H` only shows
 help, and any other line is taken when it is an integer in `[0, bound)`
 and refused otherwise. Help and refused lines change nothing and the
 prompt is shown again.
 */
module Prompt {
  import opened Text

  /** What one line means at a prompt whose answers are `0 .. bound - 1`. */
  datatype Reply = Abort | Help | Invalid | Accept(n: nat)

  /** How a prompt ends: the user quits, gives an answer, or the input runs out. */
  datatype Answer = Quit | Chosen(n: nat) | EndOfInput

  /** The answer and the number of lines read to reach it. */
  datatype Settled = Settled(answer: Answer, used: nat)

  /** `line.lower() == key` for a one-letter key given in both cases. */
  predicate IsCommand(line: string, lower: char, upper: char) {
    line == [lower] || line == [upper]
  }

  /** Whether a reply sends the user back to the same prompt. */
  predicate Reprompts(r: Reply) {
    r == Help || r == Invalid
  }

  /** One line at a prompt: the exit command first, then help, then the number. */
  function Classify(line: string, bound: nat): (r: Reply)
    ensures r == Abort <==> IsCommand(line, 'x', 'X')
    ensures r == Help <==> IsCommand(line, 'h', 'H')
    ensures r.Accept? ==> r.n < bound
  {
    if IsCommand(line, 'x', 'X') then Abort
    else if IsCommand(line, 'h', 'H') then Help
    else match ParseInt(line)
      case Some(n) => if 0 <= n < bound then Accept(n) else Invalid
      case None => Invalid
  }

  /**
   A line that is neither command is accepted exactly when it reads as an
   integer in range, and then as that integer; every other line is refused.
   */
  lemma ClassifyNumber(line: string, bound: nat, n: int)
    requires !IsCommand(line, 'x', 'X') && !IsCommand(line, 'h', 'H')
    requires ParseInt(line) == Some(n)
    ensures Classify(line, bound) == if 0 <= n < bound then Accept(n) else Invalid
  {
  }

  /**
   A line is accepted exactly when it is neither command and reads as an
   integer in `[0, bound)`, and then it is accepted as that integer: a line
   that does not read as an integer is never accepted.
   */
  lemma ClassifyAccepts(line: string, bound: nat)
    ensures Classify(line, bound).Accept? <==>
              !IsCommand(line, 'x', 'X') && !IsCommand(line, 'h', 'H') &&
              ParseInt(line).Some? && 0 <= ParseInt(line).value < bound
    ensures Classify(line, bound).Accept? ==> ParseInt(line) == Some(Classify(line, bound).n as int)
    ensures ParseInt(line).None? ==> Reprompts(Classify(line, bound)) || Classify(line, bound) == Abort
  {
  }

  /** The numeral of a number is accepted exactly when the number is in range. */
  lemma ClassifyNumeral(n: int, bound: nat)
    ensures Classify(ShowInt(n), bound) == if 0 <= n < bound then Accept(n) else Invalid
  {
    ParseShowInt(n);
    var s := ShowInt(n);
    if n < 0 {
      assert s[0] == '-';
    } else {
      assert IsDigit(s[0]);
    }
    ClassifyNumber(s, bound, n);
  }

  /** The prompt read over the remaining input lines: the first line that is not help or refused settles it. */
  function Settle(lines: seq<string>, bound: nat): (s: Settled)
    ensures s.used <= |lines|
  {
    if lines == [] then Settled(EndOfInput, 0)
    else
      var reply := Classify(lines[0], bound);
      if reply == Abort then Settled(Quit, 1)
      else if reply.Accept? then Settled(Chosen(reply.n), 1)
      else
        var rest := Settle(lines[1..], bound);
        Settled(rest.answer, rest.used + 1)
  }

  /**
   What settling a prompt means: every line before the settling one was
   help or refused, the settling line is the exit command or an accepted
   number, and a chosen answer is in range; when no line settles it, the
   whole input was read.
   */
  lemma {:induction false} SettleMeaning(lines: seq<string>, bound: nat)
    ensures var s := Settle(lines, bound);
      && (forall i :: 0 <= i < s.used - 1 ==> Reprompts(Classify(lines[i], bound)))
      && (s.answer == EndOfInput ==>
            s.used == |lines| && forall i :: 0 <= i < |lines| ==> Reprompts(Classify(lines[i], bound)))
      && (s.answer == Quit ==> s.used >= 1 && Classify(lines[s.used - 1], bound) == Abort)
      && (s.answer.Chosen? ==>
            s.used >= 1 && Classify(lines[s.used - 1], bound) == Accept(s.answer.n) && s.answer.n < bound)
  {
    if lines != [] && Reprompts(Classify(lines[0], bound)) {
      SettleMeaning(lines[1..], bound);
      assert forall i :: 1 <= i < |lines| ==> lines[i] == lines[1..][i - 1];
    }
  }

  /** A chosen answer is always in range. */
  lemma SettleInRange(lines: seq<string>, bound: nat)
    ensures Settle(lines, bound).answer.Chosen? ==> Settle(lines, bound).answer.n < bound
  {
    SettleMeaning(lines, bound);
  }

  /** Help and refused lines in front of the input change nothing but the line count. */
  lemma {:induction false} SettleSkipsReprompts(skipped: seq<string>, lines: seq<string>, bound: nat)
    requires forall i :: 0 <= i < |skipped| ==> Reprompts(Classify(skipped[i], bound))
    ensures Settle(skipped + lines, bound).answer == Settle(lines, bound).answer
    ensures Settle(skipped + lines, bound).used == |skipped| + Settle(lines, bound).used
  {
    if skipped == [] {
      assert skipped + lines == lines;
    } else {
      assert (skipped + lines)[0] == skipped[0];
      assert (skipped + lines)[1..] == skipped[1..] + lines;
      SettleSkipsReprompts(skipped[1..], lines, bound);
    }
  }

  /**
   The `while True` loop of a prompt: reads lines until one settles it.
   */
  method Ask(lines: seq<string>, bound: nat) returns (s: Settled)
    ensures s == Settle(lines, bound)
  {
    var i := 0;
    while i < |lines|
      invariant i <= |lines|
      invariant Settle(lines, bound) == Settled(Settle(lines[i..], bound).answer, Settle(lines[i..], bound).used + i)
    {
      assert lines[i..][1..] == lines[i + 1..];
      var reply := Classify(lines[i], bound);
      match reply {
        case Abort =>
          return Settled(Quit, i + 1);
        case Accept(n) =>
          return Settled(Chosen(n), i + 1);
        case Help =>
        case Invalid =>
      }
      i := i + 1;
    }
    assert lines[i..] == [];
    return Settled(EndOfInput, i);
  }
}
