# Gender, age and expression classifier: a Dafny model

The app shows one of twenty evaluation images. "Run Age, Gender & Expression Model"
works on the current image in five steps:

1. It loads the image.
2. It renders the image into a 128×128 RGBA bitmap.
3. It packs the bitmap into a vector of normalised RGB floats.
4. It runs three TensorFlow Lite classifiers (gender, age group, facial expression) on that vector, one after another.
5. It decodes each score vector into a label and a confidence, and shows the three results.

"Next image" moves to the next image, wrapping after the last one, and puts the prompt text back.

The model covers all of `ContentView.swift`'s decision logic. The `EVAL,…` log line and the `%.1f`/`%.3f` number formatting are left out (see below).

- `decoding.dfy` (module `Decoding`): the decoding rules. Gender is "Female" only on a strict `>`. Age and expression use an argmax in the style of Swift's `max(by:)`, which keeps the first maximal element. The module also holds the label tables, including the FER2013 expression order.
- `pixels.dfy` (module `Pixels`): the `rgbData` nested loop. It is an imperative method, proved equal to a recursive reference definition. Lemmas cover index layout, bounds, the [0, 1] range and the fact that alpha is never read.
- `buffers.dfy` (module `Buffers`): `[Float](unsafeData:)`. The element count is the byte count divided by 4, rounded down.
- `pipeline.dfy` (module `Pipeline`): `runGAEModel` as a pure function over an `Environment`. It returns the error or the report, plus the list of models whose file was found and whose run (reading the file, then interpreting it) was attempted. It also holds the error messages and the result text.
- `carousel.dfy` (module `Carousel`): the view state and the two buttons.
- `text.dfy` (module `Text`): decimal rendering of counts, and splitting or joining text on newlines.
- `outcomes.dfy` (module `Outcomes`): `Option` and `Result`.

Everything outside the app's own code is a parameter of `Pipeline.Environment`:

- asset lookup (`UIImage(named:)`);
- rendering (`resized(to:)` and the `CGContext` draw);
- the bundle lookup (`Bundle.main.url`);
- the interpreter, together with `Data(contentsOf:)`. Anything either of them throws becomes one `Threw` outcome.
- the decoding of four bytes as a `Float`.

The `%.1f` rendering of a percentage is the `percent` parameter of `Pipeline.PredictionText`.

Scores are reals, so they are totally ordered and have no NaN. Three behaviours of the code are worth stating:

- A model file that is found but cannot be read does not get its own error. `Data(contentsOf:)` throws into the same `catch` as the interpreter, so the message is "Interpreter error: …".
- Confidences are raw scores. Nothing in the code keeps them in [0, 1].
- The three models run in a fixed order, and the first failure hides the others.

## Model

| member | source | states |
|---|---|---|
| Decoding.ScanMax | ContentView.swift:114 | The `max(by: <)` scan replaces the candidate only on a strictly larger score. Started on the first maximum of a prefix, it returns the first maximum of the whole vector. |
| Decoding.MaxOffset | ContentView.swift:114 | The offset is `nil` exactly for an empty vector. Otherwise it is `k` exactly when `k` is the smallest index whose score is at least every score. |
| Decoding.SwiftMax | ContentView.swift:94 | `max(x, y)` is at least both arguments and equals one of them. |
| Decoding.DecodeGender | ContentView.swift:90-94 | The label is "Female" iff `scores[1] > scores[0]` and "Male" iff `scores[1] <= scores[0]`, so a tie is "Male". The confidence is the larger of the two scores. |
| Decoding.AgeLabel | ContentView.swift:116-122 | Indices 0, 1 and 2 map to Child, Adult and Elderly. Any other index maps to "Unknown". |
| Decoding.DecodeAge | ContentView.swift:109-122 | With three scores, the label is AgeLabels[k] iff k is the argmax (ties go to the lowest index). The label is never "Unknown". The confidence is the argmax's score, at least every score. |
| Decoding.DecodeExpression | ContentView.swift:137-146 | With seven scores, the label is the FER2013 label at k iff k is the argmax, so the table lookup is in bounds. The confidence is the argmax's score, at least every score. |
| Decoding.DecodingExamples | ContentView.swift:90-146 | Worked cases: female wins, male wins, a tie goes to male, age "Adult", an age tie goes to "Child", expression "Happy". |
| Buffers.FloatsFromData | ContentView.swift:242-248 | The element count is the byte count divided by 4, rounded down. Element i comes from bytes 4i to 4i+3. |
| Buffers.TrailingBytesIgnored | ContentView.swift:243-246 | Fewer than four extra bytes after whole floats do not change the decoded floats. |
| Text.Decimal | ContentView.swift:86 | An `Int` count renders as non-empty decimal digits with no leading zero. |
| Pixels.Normalize | ContentView.swift:226-228 | `byte / 255` lies in [0, 1]. It is 0 only for byte 0 and 1 only for byte 255. |
| Pixels.PackPixels | ContentView.swift:220-233 | The reference packing of n pixels has exactly 3n values. |
| Pixels.PackPixelsAt | ContentView.swift:225-231 | Output value 3p+c (c < 3) is the normalised byte 4p+c. |
| Pixels.PackPixelsInUnitRange | ContentView.swift:226-231 | Every packed value lies in [0, 1]. |
| Pixels.AlphaNeverRead | ContentView.swift:225-228 | Two buffers that agree on every red, green and blue byte pack to the same vector, so byte 4p+3 is never read. |
| Pixels.PackRgbPixel | ContentView.swift:223-228 | For pixel (x, y), output value 3(y·w+x)+c is in range and comes from input byte 4(y·w+x)+c. |
| Pixels.ModelInputShape | ContentView.swift:60-63 | A 128×128 bitmap packs to 49152 values, all in [0, 1]. |
| Pixels.RgbData | ContentView.swift:197-233 | The row-outer, column-inner loop over a `4·w·h`-byte buffer emits `3·w·h` values, equal to the reference packing. |
| Pipeline.Preprocess | ContentView.swift:54-66 | The result is "Could not load image" iff the asset is missing. It is "Failed to preprocess" iff the asset loads but rendering fails. When the asset loads and renders, the result is the packing of the rendered bitmap. |
| Pipeline.PreprocessShape | ContentView.swift:60-63 | When the image renders to the requested 128×128 bitmap, preprocessing succeeds with 49152 values, all in [0, 1]. |
| Pipeline.ModelScores | ContentView.swift:72-88 | A model section reports "not found" iff the bundle lacks its file. A thrown error becomes "Interpreter error" with the thrown description. When the output holds exactly the class count (2, 3 or 7) of floats, the result is those floats, decoded from the output bytes. Otherwise it is the size error for this model with the output's float count (bytes / 4). |
| Pipeline.RunModels | ContentView.swift:68-147 | The models whose run was attempted are a prefix of gender, age, expression, and all three on success. Every such model was found in the bundle. |
| Pipeline.Run | ContentView.swift:53-147 | "Could not load image" happens iff the asset is missing. "Failed to preprocess image." happens iff the asset loads but rendering fails. Load and preprocessing failures run no model. Success runs all three models in order and reports the requested image. |
| Pipeline.RunSucceeds | ContentView.swift:53-161 | The run succeeds iff preprocessing and all three model sections succeed. The report is then the gender, age and expression decodings of their vectors. |
| Pipeline.FirstFailureWins | ContentView.swift:85-140 | If model section k is the first to fail, the result is that section's error. Only the models before k, plus k itself if its file was found, are attempted. |
| Pipeline.LaterModelsIrrelevant | ContentView.swift:73-140 | After the first failing section, changing the bundle or interpreter for later models changes neither the result nor the list of invoked models. |
| Pipeline.MessageKind | ContentView.swift:55-175 | The first and eleventh characters of an error text tell which kind of error it reports. |
| Pipeline.MessageInjective | ContentView.swift:55-175 | Different errors produce different messages. |
| Pipeline.Message | ContentView.swift:55-175 | Each error text starts differently from the success text. It names what failed: the image name, the model's resource name, the thrown description, or the reported count as its final digits. |
| Pipeline.ResultLine | ContentView.swift:153-155 | A result line starts with its title and ": " and ends with "%)". It has no newline when its parts have none. |
| Pipeline.SummaryLines | ContentView.swift:150-156 | There are five lines: "Image: …", a blank line, then lines starting "Gender: ", "Age group: " and "Expression: ", in that order. None contains a newline when the name, labels and percentages have none. |
| Pipeline.PredictionText | ContentView.swift:149-175 | A failure shows its own message. The text starts with "Image: " iff the run succeeded. |
| Pipeline.SummaryRoundTrip | ContentView.swift:149-161 | Splitting the success text at newlines gives exactly "Image: <name>", "", "Gender: <label> (<percent>%)", "Age group: <label> (<percent>%)" and "Expression: <label> (<percent>%)", in that order. |
| Carousel.SwiftRemainder | ContentView.swift:42 | Swift's `%` has the sign of the dividend and its magnitude is below the divisor. It agrees with Dafny's `%` for a non-negative dividend. For a negative dividend it satisfies the truncating identity a = trunc(a / n)·n + r. |
| Carousel.CurrentImageName | ContentView.swift:10-19 | The current image's name is "eval" followed by its one-based position as two digits. |
| Carousel.NextImage | ContentView.swift:41-44 | "Next image" restores the prompt, keeps the index in bounds, and advances by one, wrapping from the last image to the first. |
| Carousel.RunPressed | ContentView.swift:37-39 | "Run" keeps the index. On failure it shows the failure's message. |
| Carousel.NextPressesFromInitial | ContentView.swift:7-19 | After n presses of "Next image" from launch, the index is n mod 20 and in bounds, and the prompt is shown. |
| Carousel.Replay | ContentView.swift:17-44 | After any sequence of presses of either button, `currentImageName` stays in bounds. If the last press was "Next image", the prompt is shown. |

## Left out

- SwiftUI layout (ContentView.swift:21-49 apart from the button actions): presentation only.
- `UIImage(named:)`, `Bundle.main.url` and `Data(contentsOf:)`: asset and file I/O. They are `Environment.assets`, `Environment.bundle` and part of `Environment.interpreter`.
- `resized(to:)` and the sRGB, premultiplied-alpha `CGContext` draw (ContentView.swift:184-191, 195-218): platform rendering. `Environment.render` hands over the resulting bitmap. Its bytes are taken as given and are not claimed to equal the source colours.
- TensorFlow Lite `Interpreter` (options, thread count, allocate, copy, invoke, output): a foreign library. `Environment.interpreter` maps a file name and an input vector to output bytes or a thrown error description.
- Converting the float array to `Data` and back (`Data(bytes:count:)`, unsafe pointer binding): the input is handed to the interpreter as the vector itself. Decoding four bytes into a `Float` is `Environment.float32`.
- Floating point: scores and normalised values are reals, so there is no NaN and no rounding in `/ 255.0`.
- `String(format:)` rendering of `%.1f`, given as the `percent` parameter, and of `%.3f`.
- The `print` calls, including the `EVAL,…` log line: console output.
- `Int` overflow: every count and index involved is small.
- Carousel.RunPressed: states the shown text only for failures. On success the text is the summary, which `Pipeline.PredictionText` and `Pipeline.SummaryRoundTrip` describe.
