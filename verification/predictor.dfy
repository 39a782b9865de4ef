/**
 The decisions of the predictor's `main` (predict.go): load the model, read
 one line of input, parse it as a mileage, refuse a negative mileage, and
 report a negative estimate as 0 with a flag. The `thetas` file contents and
 standard input are parameters; `parse` stands for `strconv.ParseFloat`.
 */
module Predictor {
  import opened Wrappers
  import opened Text
  import opened LinearModel
  import opened Thetas

  /** Why the predictor exits with status 1, in the order it checks. */
  datatype PredictError =
    | LoadFailed(cause: LoadError)
    | ReadFailed
    | InvalidMileage
    | NegativeMileage

  /** A successful run: the mileage entered, the line's value at it, the
      price shown to the user and whether it was replaced by 0. */
  datatype Quote = Quote(mileage: real, price: real, shown: real, clamped: bool)

  /** The reporting decision: a negative estimate is shown as 0 and flagged,
      any other estimate is shown as it is. */
  function Report(m: Model, mileage: real): (q: Quote)
    ensures q.mileage == mileage
    ensures q.price == Predict(m, mileage)
    ensures q.shown >= 0.0 && q.shown >= q.price
    ensures q.shown == 0.0 || q.shown == q.price
    ensures q.clamped <==> q.price < 0.0
    ensures q.clamped ==> q.shown == 0.0
  {
    var price := Predict(m, mileage);
    if price < 0.0 then Quote(mileage, price, 0.0, true)
    else Quote(mileage, price, price, false)
  }

  /** `reader.ReadString('\n')`: the input up to and including the first
      line feed; an error when the input has none. */
  function ReadLine(input: string): (line: Option<string>)
    ensures line.None? <==> '\n' !in input
    ensures line.Some? ==> line.value == UpToNewline(input) + "\n"
    ensures line.Some? ==> line.value <= input
  {
    var i := IndexOf(input, '\n');
    if i == |input| then None
    else
      assert input[..i + 1] == input[..i] + "\n";
      Some(input[..i + 1])
  }

  /** The text the user entered, as parsed: the first input line without
      its line feed and surrounding white space. */
  function Entered(input: string): string
  {
    TrimSpace(UpToNewline(input))
  }

  /** The decisions of predict.go `main` once the model is loaded: read a
      line, parse it, refuse a negative mileage, report the estimate. */
  function Ask(model: Model, input: string, parse: string -> Option<real>): (r: Result<Quote, PredictError>)
    ensures r.Failure? ==> !r.error.LoadFailed?
    ensures r == Failure(ReadFailed) <==> '\n' !in input
    ensures r == Failure(InvalidMileage) <==> '\n' in input && parse(Entered(input)).None?
    ensures r == Failure(NegativeMileage)
        <==> '\n' in input && parse(Entered(input)).Some? && parse(Entered(input)).value < 0.0
    ensures r.Success? ==>
             && parse(Entered(input)) == Some(r.value.mileage)
             && r.value.mileage >= 0.0
             && r.value == Report(model, r.value.mileage)
  {
    match ReadLine(input)
    case None => Failure(ReadFailed)
    case Some(line) =>
      TrimSpaceTrailing(UpToNewline(input), "\n");
      match parse(TrimSpace(line))
      case None => Failure(InvalidMileage)
      case Some(mileage) =>
        if mileage < 0.0 then Failure(NegativeMileage)
        else Success(Report(model, mileage))
  }

  /** predict.go `main` from loading the model to printing the estimate. */
  function Run(thetas: string, input: string, parse: string -> Option<real>): (r: Result<Quote, PredictError>)
    ensures LoadThetas(thetas, parse).Failure? ==> r == Failure(LoadFailed(LoadThetas(thetas, parse).error))
    ensures r.Failure? && r.error.LoadFailed? <==> LoadThetas(thetas, parse).Failure?
    ensures r == Failure(ReadFailed) <==> LoadThetas(thetas, parse).Success? && '\n' !in input
    ensures r == Failure(InvalidMileage)
        <==> LoadThetas(thetas, parse).Success? && '\n' in input && parse(Entered(input)).None?
    ensures r == Failure(NegativeMileage)
        <==> && LoadThetas(thetas, parse).Success? && '\n' in input
             && parse(Entered(input)).Some? && parse(Entered(input)).value < 0.0
    ensures r.Success? ==>
             && LoadThetas(thetas, parse).Success?
             && parse(Entered(input)) == Some(r.value.mileage)
             && r.value.mileage >= 0.0
             && r.value == Report(LoadThetas(thetas, parse).value, r.value.mileage)
  {
    match LoadThetas(thetas, parse)
    case Failure(e) => Failure(LoadFailed(e))
    case Success(model) => Ask(model, input, parse)
  }
}
