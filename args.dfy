/**
 Reading the dice from the command-line arguments (`validate_args`).

 Each argument is one die written as comma-separated integers. The checks
 run in a fixed order: the number of arguments first, then each argument
 from left to right; inside one argument every field is converted to an
 integer before the number of fields is looked at. The first failing
 check decides the message.
 */
module Args {
  import opened Text

  /** The number of faces of every die. */
  const FACES := 6

  /** A die: its face values by face index 0..5 (any integers). */
  type Die = d: seq<int> | |d| == FACES witness [0, 0, 0, 0, 0, 0]

  /** The three ways the arguments can be refused. */
  datatype ArgError = TooFewSets | WrongCount | NotIntegers

  /** The message printed for each refusal. */
  function Message(e: ArgError): string {
    match e
    case TooFewSets => "Error: At least three data sets are required."
    case WrongCount => "Error: Each data set must contain exactly 6 values"
    case NotIntegers => "Error: Each data set must contain exactly 6 comma-separated values"
  }

  datatype Result<+T> = Ok(value: T) | Err(error: ArgError)

  /** Converts every field, as `list(map(int, fields))` does; None when any field is not an integer. */
  function ParseAll(fields: seq<string>): (r: Option<seq<int>>)
    ensures r.Some? <==> forall i :: 0 <= i < |fields| ==> ParseInt(fields[i]).Some?
    ensures r.Some? ==> |r.value| == |fields|
    ensures r.Some? ==> forall i :: 0 <= i < |fields| ==> ParseInt(fields[i]) == Some(r.value[i])
  {
    if fields == [] then Some([])
    else match (ParseInt(fields[0]), ParseAll(fields[1..]))
      case (Some(v), Some(vs)) =>
        assert forall i :: 1 <= i < |fields| ==> fields[i] == fields[1..][i - 1];
        Some([v] + vs)
      case (None, _) => None
      case (_, None) =>
        assert forall i :: 1 <= i < |fields| ==> fields[i] == fields[1..][i - 1];
        None
  }

  /** The fields of one argument read as a die, or the refusal they earn. */
  function ReadDie(fields: seq<string>): (r: Result<Die>)
    ensures r != Err(TooFewSets)
    // conversion comes first: a non-integer field is reported whatever the field count
    ensures r == Err(NotIntegers) <==> exists i :: 0 <= i < |fields| && ParseInt(fields[i]).None?
    ensures r == Err(WrongCount) <==>
              (forall i :: 0 <= i < |fields| ==> ParseInt(fields[i]).Some?) && |fields| != FACES
    ensures r.Ok? ==> (|fields| == FACES &&
              forall i :: 0 <= i < FACES ==> ParseInt(fields[i]) == Some(r.value[i]))
  {
    match ParseAll(fields)
    case None => Err(NotIntegers)
    case Some(values) => if |values| != FACES then Err(WrongCount) else Ok(values)
  }

  /** One argument read as a die: `list(map(int, arg.split(',')))` and the length check. */
  function ParseDie(arg: string): Result<Die> {
    ReadDie(Split(arg, ','))
  }

  /** The comma-separated text of a die, as a user would type it. */
  function Format(d: Die): string {
    Join(seq(FACES, i requires 0 <= i < FACES => ShowInt(d[i])), ',')
  }

  /** Every die can be typed as an argument, and that argument reads back as the same die. */
  lemma ParseFormat(d: Die)
    ensures ParseDie(Format(d)) == Ok(d)
  {
    var fields := seq(FACES, i requires 0 <= i < FACES => ShowInt(d[i]));
    forall i | 0 <= i < FACES
      ensures ',' !in fields[i] && ParseInt(fields[i]) == Some(d[i])
    {
      ParseShowInt(d[i]);
      ShowIntHasNoComma(d[i]);
    }
    SplitJoin(fields, ',');
    assert Split(Format(d), ',') == fields;
    var values := ParseAll(fields).value;
    assert values == d by {
      assert forall i :: 0 <= i < FACES ==> Some(values[i]) == ParseInt(fields[i]) == Some(d[i]);
    }
  }

  lemma ShowIntHasNoComma(n: int)
    ensures ',' !in ShowInt(n)
  {
  }

  /**
   `validate_args`: the dice, one per argument in argument order, or the
   message of the first check that fails.
   */
  method ValidateArgs(args: seq<string>) returns (r: Result<seq<Die>>)
    // fewer than three arguments: refused before any argument is read
    ensures |args| < 3 ==> r == Err(TooFewSets)
    // success: one die per argument, in order
    ensures r.Ok? ==> (|args| >= 3 && |r.value| == |args| &&
              forall i :: 0 <= i < |args| ==> ParseDie(args[i]) == Ok(r.value[i]))
    // every argument readable: success
    ensures |args| >= 3 && (forall i :: 0 <= i < |args| ==> ParseDie(args[i]).Ok?) ==> r.Ok?
    // otherwise the first bad argument's message
    ensures r.Err? && |args| >= 3 ==>
              exists k :: 0 <= k < |args| && ParseDie(args[k]) == Err(r.error) &&
                          forall j :: 0 <= j < k ==> ParseDie(args[j]).Ok?
  {
    if |args| < 3 {
      return Err(TooFewSets);
    }
    var sets: seq<Die> := [];
    for i := 0 to |args|
      invariant |sets| == i
      invariant forall j :: 0 <= j < i ==> ParseDie(args[j]) == Ok(sets[j])
    {
      var die := ParseDie(args[i]);
      if die.Err? {
        return Err(die.error);
      }
      sets := sets + [die.value];
    }
    return Ok(sets);
  }
}
