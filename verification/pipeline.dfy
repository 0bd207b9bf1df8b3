/** The "Run" action (ContentView.swift, `runGAEModel`): load the image,
    preprocess it, run the gender, age and expression models in that order on
    the same input, decode each score vector, and report. The first failure
    decides the message and nothing after it runs. Asset lookup, rendering,
    the model bundle and the TensorFlow Lite interpreter are parameters. */
module Pipeline {
  import opened Outcomes
  import opened Buffers
  import opened Text
  import opened Decoding
  import opened Pixels

  /** The three classifiers, in the order they run. */
  datatype Model = GenderModel | AgeModel | ExpressionModel {

    /** Resource name of the model file in the app bundle. */
    function Resource(): string {
      match this
      case GenderModel => "gender_model"
      case AgeModel => "age3_model"
      case ExpressionModel => "expression7_model"
    }

    /** `forResource: Resource(), withExtension: "tflite"`. */
    function FileName(): string {
      Resource() + ".tflite"
    }

    /** The word used in the "Unexpected … output size" message. */
    function Kind(): string {
      match this
      case GenderModel => "gender"
      case AgeModel => "age"
      case ExpressionModel => "expression"
    }

    /** Number of scores the model must produce. */
    function ClassCount(): nat {
      match this
      case GenderModel => GenderClasses
      case AgeModel => AgeClasses
      case ExpressionModel => ExpressionClasses
    }
  }

  const ModelOrder: seq<Model> := [GenderModel, AgeModel, ExpressionModel]

  /** What reading a model file and running it produced: either something
      threw (reading the file, creating the interpreter, allocating, copying
      the input, invoking, reading the output), or the output tensor's bytes. */
  datatype Invocation = Threw(description: string) | Produced(output: seq<byte>)

  /** The collaborators `runGAEModel` calls, as functions:
      - `assets`: `UIImage(named:)`;
      - `render`: `resized(to: 128x128)` followed by drawing into the RGBA
        bitmap context of `rgbData` (nil when either step fails);
      - `bundle`: whether `Bundle.main.url(forResource:withExtension:)` finds
        a file name;
      - `interpreter`: running the model read from a file on an input vector;
      - `float32`: the bit-level decoding of four bytes as a `Float`. */
  datatype Environment<!Image> = Environment(
    assets: string -> Option<Image>,
    render: Image -> Option<RgbaBitmap>,
    bundle: string -> bool,
    interpreter: (string, seq<real>) -> Invocation,
    float32: seq<byte> -> real)

  /** Each way the action can stop, in pipeline order. */
  datatype PipelineError =
    | ImageNotFound(imageName: string)
    | PreprocessFailed
    | ModelNotFound(model: Model)
    | InterpreterError(description: string)
    | UnexpectedOutputSize(model: Model, count: nat)

  /** The three decoded predictions for one image. */
  datatype Report = Report(imageName: string, gender: Classification, age: Classification, expression: Classification)

  /** The result of one press of "Run", with the models whose file was found
      and whose run was attempted (reading the file, then interpreting it), in
      the order that happened. */
  datatype Outcome = Outcome(result: Result<Report, PipelineError>, invoked: seq<Model>)

  /** The text shown for each error. */
  function Message(e: PipelineError): (t: string)
    ensures 7 <= |t| && t[..7] != "Image: "
    ensures e.ImageNotFound? ==> 22 <= |t| && t[21..|t| - 1] == e.imageName
    ensures e.ModelNotFound? ==> 23 <= |t| && t[15..|t| - 8] == e.model.Resource()
    ensures e.InterpreterError? ==> 19 <= |t| && t[19..] == e.description
    ensures e.UnexpectedOutputSize? ==>
      |Decimal(e.count)| <= |t| && t[|t| - |Decimal(e.count)|..] == Decimal(e.count)
  {
    match e
    case ImageNotFound(name) =>
      var t := "Could not load image " + name + ".";
      assert t[..7][0] == 'C';
      t
    case PreprocessFailed =>
      var t := "Failed to preprocess image.";
      assert t[..7][0] == 'F';
      t
    case ModelNotFound(m) =>
      var t := "Could not find " + m.Resource() + ".tflite" + ".";
      assert t[..7][0] == 'C';
      assert t[15..|t| - 8] == m.Resource();
      t
    case InterpreterError(d) =>
      var t := "Interpreter error: " + d;
      assert t[..7][1] == 'n';
      t
    case UnexpectedOutputSize(m, n) =>
      var t := "Unexpected " + m.Kind() + " output size: " + Decimal(n);
      assert t[..7][0] == 'U';
      t
  }

  /** The preprocessed input for `imageName`, or the error that stopped it. */
  function Preprocess<Image>(env: Environment<Image>, imageName: string): (r: Result<seq<real>, PipelineError>)
    ensures r == Failure(ImageNotFound(imageName)) <==> env.assets(imageName).None?
    ensures r == Failure(PreprocessFailed) <==> env.assets(imageName).Some? && env.render(env.assets(imageName).value).None?
    ensures r.Success? ==> exists b :: env.render(env.assets(imageName).value) == Some(b) && r.value == PackRgb(b)
    ensures env.assets(imageName).Some? && env.render(env.assets(imageName).value).Some? ==>
      r == Success(PackRgb(env.render(env.assets(imageName).value).value))
  {
    match env.assets(imageName)
    case None => Failure(ImageNotFound(imageName))
    case Some(uiImage) =>
      match env.render(uiImage)
      case None => Failure(PreprocessFailed)
      case Some(resized) => Success(PackRgb(resized))
  }

  /** One model's section of `runGAEModel` up to and including the size
      check: find the file, run it, read the output as floats, and demand the
      model's class count. */
  function ModelScores<Image>(env: Environment<Image>, m: Model, input: seq<real>): (r: Result<seq<real>, PipelineError>)
    ensures r == Failure(ModelNotFound(m)) <==> !env.bundle(m.FileName())
    ensures r.Success? ==> |r.value| == m.ClassCount()
    ensures r.Success? ==> env.interpreter(m.FileName(), input).Produced?
    ensures r.Failure? && r.error.UnexpectedOutputSize? ==>
      r.error.model == m && r.error.count != m.ClassCount()
    ensures r.Failure? ==> r.error.ModelNotFound? || r.error.InterpreterError? || r.error.UnexpectedOutputSize?
    ensures env.bundle(m.FileName()) && env.interpreter(m.FileName(), input).Threw? ==>
      r == Failure(InterpreterError(env.interpreter(m.FileName(), input).description))
    ensures env.bundle(m.FileName()) && env.interpreter(m.FileName(), input).Produced? ==>
      var output := env.interpreter(m.FileName(), input).output;
      if |output| / FloatSize == m.ClassCount() then r == Success(FloatsFromData(output, env.float32))
      else r == Failure(UnexpectedOutputSize(m, |output| / FloatSize))
  {
    if !env.bundle(m.FileName()) then Failure(ModelNotFound(m))
    else
      match env.interpreter(m.FileName(), input)
      case Threw(d) => Failure(InterpreterError(d))
      case Produced(output) =>
        var scores := FloatsFromData(output, env.float32);
        if |scores| != m.ClassCount() then Failure(UnexpectedOutputSize(m, |scores|))
        else Success(scores)
  }

  /** The models whose run was attempted in `m`'s section: `m` itself when
      its file was found. */
  function Attempted<Image>(env: Environment<Image>, m: Model): seq<Model> {
    if env.bundle(m.FileName()) then [m] else []
  }

  /** The decoding rule for each model. */
  function Decode(m: Model, scores: seq<real>): Classification
    requires |scores| == m.ClassCount()
  {
    match m
    case GenderModel => DecodeGender(scores)
    case AgeModel => DecodeAge(scores)
    case ExpressionModel => DecodeExpression(scores)
  }

  /** The three model sections in order, each stopping the run on failure. */
  function RunModels<Image>(env: Environment<Image>, imageName: string, input: seq<real>): (o: Outcome)
    ensures o.invoked <= ModelOrder
    ensures o.result.Success? ==> o.invoked == ModelOrder
    ensures forall m :: m in o.invoked ==> env.bundle(m.FileName())
    ensures o.result.Failure? ==> !o.result.error.ImageNotFound? && !o.result.error.PreprocessFailed?
  {
    match ModelScores(env, GenderModel, input)
    case Failure(e) => Outcome(Failure(e), Attempted(env, GenderModel))
    case Success(genderScores) =>
      var gender := Decode(GenderModel, genderScores);
      match ModelScores(env, AgeModel, input)
      case Failure(e) => Outcome(Failure(e), [GenderModel] + Attempted(env, AgeModel))
      case Success(ageScores) =>
        var age := Decode(AgeModel, ageScores);
        match ModelScores(env, ExpressionModel, input)
        case Failure(e) => Outcome(Failure(e), [GenderModel, AgeModel] + Attempted(env, ExpressionModel))
        case Success(exprScores) =>
          var expression := Decode(ExpressionModel, exprScores);
          Outcome(Success(Report(imageName, gender, age, expression)), ModelOrder)
  }

  /** `runGAEModel(imageName:)` without its display side effect. */
  function Run<Image>(env: Environment<Image>, imageName: string): (o: Outcome)
    ensures o.invoked <= ModelOrder
    ensures o.result == Failure(ImageNotFound(imageName)) <==> env.assets(imageName).None?
    ensures o.result == Failure(PreprocessFailed) <==>
      env.assets(imageName).Some? && env.render(env.assets(imageName).value).None?
    ensures o.result.Failure? && (o.result.error.ImageNotFound? || o.result.error.PreprocessFailed?) ==> o.invoked == []
    ensures o.result.Success? ==> o.invoked == ModelOrder && o.result.value.imageName == imageName
    ensures forall m :: m in o.invoked ==> env.bundle(m.FileName())
  {
    match Preprocess(env, imageName)
    case Failure(e) => Outcome(Failure(e), [])
    case Success(input) => RunModels(env, imageName, input)
  }

  /** When the image renders to the 128 by 128 bitmap asked for, the
      preprocessed input has 49152 values, all in [0, 1]. */
  lemma PreprocessShape<Image>(env: Environment<Image>, imageName: string)
    requires env.assets(imageName).Some?
    requires env.render(env.assets(imageName).value).Some?
    requires env.render(env.assets(imageName).value).value.width == InputSide
    requires env.render(env.assets(imageName).value).value.height == InputSide
    ensures Preprocess(env, imageName).Success?
    ensures |Preprocess(env, imageName).value| == 49152
    ensures forall k :: 0 <= k < |Preprocess(env, imageName).value| ==> 0.0 <= Preprocess(env, imageName).value[k] <= 1.0
  {
    ModelInputShape(env.render(env.assets(imageName).value).value);
  }

  /** The run succeeds exactly when the image loads and renders and all three
      models produce vectors of the right size; the report then holds, in
      order, the gender, age and expression decodings of those vectors. */
  lemma RunSucceeds<Image>(env: Environment<Image>, imageName: string)
    ensures Run(env, imageName).result.Success? <==>
      Preprocess(env, imageName).Success? &&
      forall m :: m in ModelOrder ==> ModelScores(env, m, Preprocess(env, imageName).value).Success?
    ensures Run(env, imageName).result.Success? ==>
      var input := Preprocess(env, imageName).value;
      Run(env, imageName).result.value == Report(imageName,
        DecodeGender(ModelScores(env, GenderModel, input).value),
        DecodeAge(ModelScores(env, AgeModel, input).value),
        DecodeExpression(ModelScores(env, ExpressionModel, input).value))
  {
  }

  /** The first model section that fails decides the result, and no model
      after it is attempted. */
  lemma FirstFailureWins<Image>(env: Environment<Image>, imageName: string, input: seq<real>, k: nat)
    requires Preprocess(env, imageName) == Success(input)
    requires k < |ModelOrder|
    requires forall i :: 0 <= i < k ==> ModelScores(env, ModelOrder[i], input).Success?
    requires ModelScores(env, ModelOrder[k], input).Failure?
    ensures Run(env, imageName).result == Failure(ModelScores(env, ModelOrder[k], input).error)
    ensures Run(env, imageName).invoked == ModelOrder[..k] + Attempted(env, ModelOrder[k])
  {
    if k == 0 {
      assert ModelOrder[..0] + Attempted(env, GenderModel) == Attempted(env, GenderModel);
    } else if k == 1 {
      assert ModelScores(env, ModelOrder[0], input).Success?;
      assert ModelOrder[..1] == [GenderModel];
    } else {
      assert ModelScores(env, ModelOrder[0], input).Success?;
      assert ModelScores(env, ModelOrder[1], input).Success?;
      assert ModelOrder[..2] == [GenderModel, AgeModel];
    }
  }

  /** Nothing after the first failing section is evaluated: changing the
      bundle or the interpreter for the later models changes nothing. */
  lemma LaterModelsIrrelevant<Image>(env: Environment<Image>, env': Environment<Image>, imageName: string, input: seq<real>, k: nat)
    requires env'.assets == env.assets && env'.render == env.render && env'.float32 == env.float32
    requires Preprocess(env, imageName) == Success(input)
    requires k < |ModelOrder|
    requires forall i :: 0 <= i <= k ==>
      env'.bundle(ModelOrder[i].FileName()) == env.bundle(ModelOrder[i].FileName()) &&
      env'.interpreter(ModelOrder[i].FileName(), input) == env.interpreter(ModelOrder[i].FileName(), input)
    requires forall i :: 0 <= i < k ==> ModelScores(env, ModelOrder[i], input).Success?
    requires ModelScores(env, ModelOrder[k], input).Failure?
    ensures Run(env', imageName) == Run(env, imageName)
  {
    assert Preprocess(env', imageName) == Success(input);
    forall i | 0 <= i <= k
      ensures ModelScores(env', ModelOrder[i], input) == ModelScores(env, ModelOrder[i], input)
      ensures Attempted(env', ModelOrder[i]) == Attempted(env, ModelOrder[i])
    {
    }
    FirstFailureWins(env, imageName, input, k);
    FirstFailureWins(env', imageName, input, k);
  }

  /** The first and eleventh characters of a message tell which kind of
      error it reports. */
  lemma MessageKind(e: PipelineError)
    ensures 11 < |Message(e)|
    ensures e.ImageNotFound? <==> Message(e)[0] == 'C' && Message(e)[10] == 'l'
    ensures e.ModelNotFound? <==> Message(e)[0] == 'C' && Message(e)[10] == 'f'
    ensures e.PreprocessFailed? <==> Message(e)[0] == 'F'
    ensures e.InterpreterError? <==> Message(e)[0] == 'I'
    ensures e.UnexpectedOutputSize? <==> Message(e)[0] == 'U'
  {
    var t := Message(e);
    match e
    case ImageNotFound(_) => assert t[0] == 'C' && t[10] == 'l';
    case PreprocessFailed => assert t[0] == 'F';
    case ModelNotFound(_) => assert t[0] == 'C' && t[10] == 'f';
    case InterpreterError(_) => assert t[0] == 'I';
    case UnexpectedOutputSize(_, _) => assert t[0] == 'U';
  }

  /** Every error has its own message: equal messages mean equal errors. */
  lemma MessageInjective(e1: PipelineError, e2: PipelineError)
    ensures Message(e1) == Message(e2) ==> e1 == e2
  {
    if Message(e1) == Message(e2) {
      MessageKind(e1);
      MessageKind(e2);
      var t := Message(e1);
      match e1
      case ImageNotFound(a) =>
        assert t[21..|t| - 1] == a;
      case PreprocessFailed =>
      case ModelNotFound(m) =>
        assert t[15] == Message(e2)[15];
      case InterpreterError(d) =>
        assert t[19..] == d;
      case UnexpectedOutputSize(m, n) =>
        SameSizeMessage(e1, e2);
    }
  }

  lemma SameSizeMessage(e1: PipelineError, e2: PipelineError)
    requires e1.UnexpectedOutputSize? && e2.UnexpectedOutputSize?
    requires Message(e1) == Message(e2)
    ensures e1 == e2
  {
    var t := Message(e1);
    assert t[11] == Message(e2)[11];
    var m := e1.model;
    assert m == e2.model;
    var p := |"Unexpected " + m.Kind() + " output size: "|;
    assert t[p..] == Decimal(e1.count);
    assert t[p..] == Decimal(e2.count);
    DecimalInjective(e1.count, e2.count);
  }

  /** One result line: `"<title>: <label> (<percent>%)"`, where `percent` is
      the `%.1f` rendering of the confidence times 100. */
  function ResultLine(title: string, c: Classification, percent: real -> string): (line: string)
    ensures |title| + 2 <= |line| && line[..|title| + 2] == title + ": "
    ensures line[|line| - 2..] == "%)"
    ensures '\n' !in title && '\n' !in c.name && '\n' !in percent(c.confidence * 100.0) ==> '\n' !in line
  {
    title + ": " + c.name + " (" + percent(c.confidence * 100.0) + "%)"
  }

  /** The five lines of the text shown after a successful run. */
  function SummaryLines(r: Report, percent: real -> string): (lines: seq<string>)
    ensures |lines| == 5
    ensures 7 <= |lines[0]| && lines[0][..7] == "Image: " && lines[1] == ""
    ensures 8 <= |lines[2]| && lines[2][..8] == "Gender: "
    ensures 11 <= |lines[3]| && lines[3][..11] == "Age group: "
    ensures 12 <= |lines[4]| && lines[4][..12] == "Expression: "
    ensures ('\n' !in r.imageName && (forall v :: '\n' !in percent(v)) &&
             '\n' !in r.gender.name && '\n' !in r.age.name && '\n' !in r.expression.name) ==>
      forall i :: 0 <= i < |lines| ==> '\n' !in lines[i]
  {
    [ "Image: " + r.imageName,
      "",
      ResultLine("Gender", r.gender, percent),
      ResultLine("Age group", r.age, percent),
      ResultLine("Expression", r.expression, percent) ]
  }

  /** `predictionText` after pressing "Run": the error's message, or the
      summary lines joined by newlines. Only a successful run's text starts
      with "Image: ". */
  function PredictionText(o: Outcome, percent: real -> string): (t: string)
    ensures o.result.Failure? ==> t == Message(o.result.error)
    ensures o.result.Success? <==> 7 <= |t| && t[..7] == "Image: "
  {
    match o.result
    case Failure(e) =>
      assert Message(e)[1] != 'm';
      Message(e)
    case Success(r) =>
      var lines := SummaryLines(r, percent);
      assert Join(lines) == lines[0] + "\n" + Join(lines[1..]);
      assert Join(lines)[..7] == "Image: ";
      Join(lines)
  }

  /** Reading the success text back line by line recovers the image name and
      the three result lines in the order gender, age, expression, provided
      the name and the rendered percentages contain no newline. */
  lemma SummaryRoundTrip(o: Outcome, percent: real -> string)
    requires o.result.Success?
    requires '\n' !in o.result.value.imageName
    requires forall v :: '\n' !in percent(v)
    requires '\n' !in o.result.value.gender.name && '\n' !in o.result.value.age.name && '\n' !in o.result.value.expression.name
    ensures var r := o.result.value;
      Split(PredictionText(o, percent)) ==
        [ "Image: " + r.imageName,
          "",
          "Gender: " + r.gender.name + " (" + percent(r.gender.confidence * 100.0) + "%)",
          "Age group: " + r.age.name + " (" + percent(r.age.confidence * 100.0) + "%)",
          "Expression: " + r.expression.name + " (" + percent(r.expression.confidence * 100.0) + "%)" ]
  {
    var lines := SummaryLines(o.result.value, percent);
    SplitJoin(lines);
  }
}
