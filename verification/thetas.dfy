/**
 Reading the trained coefficients back (predict.go `loadThetas`): the first
 line of the `thetas` file must be two comma-separated fields, each of which
 parses as a number once surrounding white space is trimmed. The file
 contents are a parameter, and `strconv.ParseFloat` is an arbitrary partial
 function `parse` from text to reals.
 */
module Thetas {
  import opened Wrappers
  import opened Text
  import opened LinearModel

  /** The four ways `loadThetas` rejects a file it could open, in the order
      it checks them. */
  datatype LoadError = EmptyFile | InvalidFormat | InvalidTheta0 | InvalidTheta1

  /** The text before the first comma of a line. */
  function Field0(line: string): string
  {
    line[..IndexOf(line, ',')]
  }

  /** The text after the first comma of a line (empty when there is none). */
  function Field1(line: string): string
  {
    var i := IndexOf(line, ',');
    if i < |line| then line[i + 1..] else ""
  }

  /** A line with exactly one comma splits into the texts around it. */
  lemma {:induction false} SplitOneComma(line: string)
    requires Count(line, ',') == 1
    ensures ',' in line
    ensures Split(line, ',') == [Field0(line), Field1(line)]
  {
    CountZero(line, ',');
    var i := IndexOf(line, ',');
    var parts := Split(line, ',');
    var tail := Split(line[i + 1..], ',');
    assert parts == [line[..i]] + tail;
    assert |tail| == 1;
    assert Join(tail, ',') == tail[0];
  }

  /** `loadThetas` after the file is opened: scan the first line, split it
      on commas, require two fields, then parse each trimmed field. */
  function LoadThetas(content: string, parse: string -> Option<real>): (r: Result<Model, LoadError>)
    ensures r == Failure(EmptyFile) <==> |content| == 0
    ensures r == Failure(InvalidFormat)
        <==> |content| > 0 && Count(FirstLine(content).value, ',') != 1
    ensures r == Failure(InvalidTheta0)
        <==> && |content| > 0
             && Count(FirstLine(content).value, ',') == 1
             && parse(TrimSpace(Field0(FirstLine(content).value))).None?
    ensures r == Failure(InvalidTheta1)
        <==> && |content| > 0
             && Count(FirstLine(content).value, ',') == 1
             && parse(TrimSpace(Field0(FirstLine(content).value))).Some?
             && parse(TrimSpace(Field1(FirstLine(content).value))).None?
    ensures r.Success? ==>
             && |content| > 0
             && Count(FirstLine(content).value, ',') == 1
             && parse(TrimSpace(Field0(FirstLine(content).value))) == Some(r.value.theta0)
             && parse(TrimSpace(Field1(FirstLine(content).value))) == Some(r.value.theta1)
  {
    match FirstLine(content)
    case None => Failure(EmptyFile)
    case Some(line) =>
      var parts := Split(line, ',');
      if |parts| != 2 then Failure(InvalidFormat)
      else
        SplitOneComma(line);
        match parse(TrimSpace(parts[0]))
        case None => Failure(InvalidTheta0)
        case Some(theta0) =>
          match parse(TrimSpace(parts[1]))
          case None => Failure(InvalidTheta1)
          case Some(theta1) => Success(Model(theta0, theta1))
  }

  /** What `storeThetas` writes, `a,b` with two comma-free number tokens and
      optionally a line break after it, always passes the arity check and
      loads as the model whose coefficients the tokens denote. */
  lemma {:induction false} StoredLineLoads(
    a: string, b: string, rest: string, parse: string -> Option<real>, x: real, y: real)
    requires ',' !in a && ',' !in b
    requires '\n' !in a && '\n' !in b
    requires |b| == 0 || b[|b| - 1] != '\r'
    requires rest == [] || rest[0] == '\n' || (rest[0] == '\r' && (|rest| == 1 || rest[1] == '\n'))
    requires parse(TrimSpace(a)) == Some(x)
    requires parse(TrimSpace(b)) == Some(y)
    ensures LoadThetas(a + "," + b + rest, parse) == Success(Model(x, y))
  {
    var line := a + "," + b;
    assert line[|line| - 1] == (if |b| == 0 then ',' else b[|b| - 1]);
    FirstLineOfLine(line, rest);
    SplitPair(a, b, ',');
  }
}
