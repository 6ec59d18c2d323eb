# GymBuddy rep counter, modelled in Dafny

GymBuddy serves one web page whose script reads a webcam, asks a pose
classifier for a probability per trained class ("Up", "Down", ...) on every
frame, and counts exercise repetitions. This project models the part of that
script with real logic:

- **Top-class selection and the confidence gate** (`predict`): the first class
  with the strictly highest probability is kept (`''` with probability 0 when
  none exceeds 0); it is handed to `handleReps` only when its probability is at
  least the slider value divided by 100.
- **The rep-counting state machine** (`handleReps` and the reset button): the
  globals `repCount`, `downDetected` and `lastRepTime`. "Down" sets the latch;
  "Up" counts a rep only when the latch is set and strictly more than 600 ms
  have passed since the last rep; counting clears the latch and records the
  time. Reset zeroes the count and the latch but keeps `lastRepTime`.

Files:

- `top_class.dfy`, module `PoseClassifier`: the classifier's output
  (`Prediction`), the characterisation `IsTopClass` of the selected class, the
  selection loop `SelectTopClass` proved against it, and lemmas that the
  characterisation determines the result and breaks ties toward the earlier
  class.
- `rep_counter.dfy`, module `RepCounting`: the counter `State`, the status line
  `Status`, one `handleReps` call as the function `Step`, the reset as
  `ResetState`, runs of accepted classifications (`Run`) with inductive lemmas,
  and the class `RepCounter` holding the page's globals, whose methods
  `HandleReps`, `Reset` and `Predict` are proved against `Step`, `ResetState`
  and `IsTopClass`.

Modelling choices: the clock reading `Date.now()` is the `int` parameter `now`;
probabilities and the threshold are exact `real`s, so the `>=` and `>`
comparisons are checked as written rather than in floating point; the
classifier's output list is an input. The status text is the datatype `Status`
with `StatusText` giving the string shown.

A "Down" while already latched still rewrites the status line to
"Detected: Down". When the slider is at 0 and no probability exceeds 0,
`handleReps('')` is still called, and the status becomes "Detected: " with no
state change. The 600 ms window runs from the last counted rep, not from the
"Down": a "Down" and an "Up" at the same instant count a rep when the last rep
is more than 600 ms old (`DownThenUpCounts` with equal times).

## Model

| member | source | states |
|---|---|---|
| `PoseClassifier.SelectTopClass` | app.py:195-203 | the loop ends with a probability that bounds every entry and is never negative, held by the first entry that reaches it; with no positive entry (the empty list included) the result is `('', 0)` |
| `PoseClassifier.TopClassUnique` | app.py:198-203 | any two results meeting that characterisation are equal, so it pins down the selected class and probability exactly |
| `PoseClassifier.TiesGoToEarlierClass` | app.py:202 | the first of the entries sharing the top positive probability is selected, and no later tied entry is a first maximum |
| `RepCounting.Step` | app.py:219-239 | a rep is counted exactly when the label is "Up", the latch is set and `now - lastRepTime > 600`; the count grows by 0 or 1; a counted rep clears the latch, records `now` and reports "Rep counted!"; "Down" only sets the latch; a failed "Up" or any other label leaves all counter state unchanged; the status text is "Rep counted!" or "Detected: " followed by the label |
| `RepCounting.ResetState` | app.py:130 | reset zeroes the count and the latch and keeps `lastRepTime` |
| `RepCounting.RunCountMonotone` | app.py:227-228 | over any sequence of accepted classifications the count never decreases and grows by at most one per classification |
| `RepCounting.RunRepsNeedDowns` | app.py:223-231 | reps counted plus the final latch never exceed the "Down" classifications seen plus the initial latch |
| `RepCounting.NoDownNoRep` | app.py:226-228 | starting unlatched, a sequence without "Down" counts no rep (a bare "Up" is ignored) |
| `RepCounting.RunDebounce` | app.py:220-231 | each counted rep advances `lastRepTime` by more than 600 ms, so n reps move it forward by at least 601·n |
| `RepCounting.DownIdempotent` | app.py:223-225 | a second "Down" leaves the state the first one produced |
| `RepCounting.DownThenUpCounts` | app.py:223-232 | "Down" then "Up" more than 600 ms after the last rep counts exactly one rep and leaves the latch clear with `lastRepTime` at the "Up" time |
| `RepCounting.ResetKeepsDebounceWindow` | app.py:130 | after a reset, "Down" then "Up" within 600 ms of the last rep before the reset counts nothing and leaves the latch set |
| `RepCounting.RepCounter.constructor` | app.py:107-108 | the page starts with count 0, latch clear and `lastRepTime` 0 (`lastRepTime` is declared with 0 at app.py:218) |
| `RepCounting.RepCounter.HandleReps` | app.py:219-239 | the new globals and the status are exactly those of `Step` on the old globals |
| `RepCounting.RepCounter.Reset` | app.py:130 | the new globals are `ResetState` of the old ones |
| `RepCounting.RepCounter.Predict` | app.py:190-216 | a classifier output longer than the per-class display rows fails the frame with no state change; otherwise the result meets `IsTopClass`; below the threshold slider/100 nothing changes; at or above it the globals and status follow `Step` on the selected class |

## Left out

- The Flask route `index` and `render_template_string` (app.py:258-263): a one-line wrapper over the web framework.
- HTML, CSS and every DOM text update (the per-class percentages, the confidence percentage, the rep count display): display only; the status line is kept as the `Status` datatype.
- `start` and `stop` (app.py:132-176): model loading, webcam setup and button state are asynchronous calls into the pose library, which is not part of this model; `start` is represented only by `labelSlots`, the number of display rows it creates.
- `loop` and the frames-per-second figure (app.py:178-188): scheduled by the browser's animation-frame callback and computed in floating point.
- `model.estimatePose`, `model.predict` and `drawPose` (app.py:192-193, 212, 241-250): calls into the pose library and canvas drawing; the classifier's output list is a parameter of `Predict`, and a failure of `drawPose` after `handleReps` is not modelled.
- `Date.now()`: the clock is the parameter `now`, with no assumption that successive readings increase.
- `Threshold`: the slider's value is taken as an integer and divided exactly; the browser's parsing of the slider string and floating-point division are not modelled.
