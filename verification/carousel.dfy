/** The view's state and its two buttons (ContentView.swift, `ContentView`):
    "Next image" steps through the twenty evaluation images and clears the
    result text; "Run …" replaces the result text with the pipeline's. */
module Carousel {
  import opened Text
  import opened Pipeline

  /** Asset names of the evaluation images, in display order. */
  const EvalImages: seq<string> := [
    "eval01", "eval02", "eval03", "eval04", "eval05",
    "eval06", "eval07", "eval08", "eval09", "eval10",
    "eval11", "eval12", "eval13", "eval14", "eval15",
    "eval16", "eval17", "eval18", "eval19", "eval20"
  ]

  /** The text shown before any run and after every "Next image". */
  const Prompt: string := "Tap the button to run the model."

  /** The `@State` properties `predictionText` and `currentIndex`. */
  datatype ViewState = ViewState(predictionText: string, currentIndex: int)

  const Initial: ViewState := ViewState(Prompt, 0)

  /** `currentIndex` addresses an evaluation image. */
  predicate Valid(s: ViewState) {
    0 <= s.currentIndex < |EvalImages|
  }

  /** Swift's `%` on `Int`: the remainder takes the sign of the dividend. */
  function SwiftRemainder(a: int, n: int): (r: int)
    requires n > 0
    ensures a >= 0 ==> 0 <= r < n
    ensures a < 0 ==> -n < r <= 0
    ensures a >= 0 ==> r == a % n
    ensures a < 0 ==> a == -((-a) / n) * n + r
  {
    if a >= 0 then a % n
    else
      assert -a == (-a) / n * n + (-a) % n;
      -((-a) % n)
  }

  /** `currentImageName`: `evalImages[currentIndex]`, which is "eval" followed
      by the image's one-based position as two digits. */
  function CurrentImageName(s: ViewState): (name: string)
    requires Valid(s)
    ensures name == "eval" + [DigitChar((s.currentIndex + 1) / 10), DigitChar((s.currentIndex + 1) % 10)]
  {
    EvalImages[s.currentIndex]
  }

  /** "Next image": advance by one, wrapping after the last image, and put the
      prompt back. */
  function NextImage(s: ViewState): (t: ViewState)
    ensures t.predictionText == Prompt
    ensures Valid(s) ==> Valid(t)
    ensures Valid(s) && s.currentIndex + 1 < |EvalImages| ==> t.currentIndex == s.currentIndex + 1
    ensures Valid(s) && s.currentIndex + 1 == |EvalImages| ==> t.currentIndex == 0
  {
    ViewState(Prompt, SwiftRemainder(s.currentIndex + 1, |EvalImages|))
  }

  /** "Run …": the index stays, the text becomes the pipeline's result for the
      current image. */
  function RunPressed<Image>(env: Environment<Image>, percent: real -> string, s: ViewState): (t: ViewState)
    requires Valid(s)
    ensures Valid(t) && t.currentIndex == s.currentIndex
    ensures Run(env, CurrentImageName(s)).result.Failure? ==>
      t.predictionText == Message(Run(env, CurrentImageName(s)).result.error)
  {
    s.(predictionText := PredictionText(Run(env, CurrentImageName(s)), percent))
  }

  /** `n` presses of "Next image". */
  function NextPresses(s: ViewState, n: nat): ViewState
    decreases n
  {
    if n == 0 then s else NextImage(NextPresses(s, n - 1))
  }

  /** After `n` presses from launch the index is `n` modulo twenty, so
      `currentImageName` is always in bounds, and the prompt is showing. */
  lemma {:induction false} NextPressesFromInitial(n: nat)
    ensures Valid(NextPresses(Initial, n))
    ensures NextPresses(Initial, n).currentIndex == n % |EvalImages|
    ensures NextPresses(Initial, n).predictionText == Prompt
    decreases n
  {
    if n > 0 {
      NextPressesFromInitial(n - 1);
      var before := NextPresses(Initial, n - 1);
      assert NextPresses(Initial, n) == NextImage(before);
      WrapStep(n - 1);
    }
  }

  /** One more press moves the remainder modulo the image count up by one,
      wrapping from the last image to the first. */
  lemma WrapStep(m: nat)
    ensures m % |EvalImages| + 1 < |EvalImages| ==> (m + 1) % |EvalImages| == m % |EvalImages| + 1
    ensures m % |EvalImages| + 1 == |EvalImages| ==> (m + 1) % |EvalImages| == 0
  {
    assert |EvalImages| == 20;
    var i := m % 20;
    assert m == 20 * (m / 20) + i;
    if i + 1 < 20 {
      assert m + 1 == 20 * (m / 20) + (i + 1);
    } else {
      assert m + 1 == 20 * (m / 20 + 1);
    }
  }

  /** The two buttons. */
  datatype Press = Next | RunModel

  /** Any sequence of button presses, applied in order. */
  function Replay<Image>(env: Environment<Image>, percent: real -> string, s: ViewState, presses: seq<Press>): (t: ViewState)
    requires Valid(s)
    ensures Valid(t)
    ensures |presses| > 0 && presses[|presses| - 1] == Next ==> t.predictionText == Prompt
    decreases |presses|
  {
    if |presses| == 0 then s
    else
      var before := Replay(env, percent, s, presses[..|presses| - 1]);
      match presses[|presses| - 1]
      case Next => NextImage(before)
      case RunModel => RunPressed(env, percent, before)
  }
}
