# Detection request handler — Dafny model

This project models `website_detect_image`, the `POST /predict/` handler of the
backend (`backend/predictor.py`). The handler takes an uploaded image and an
optional confidence threshold `conf`. It decodes the image and runs the
object-detection model on it. It then turns every box the model returns into
two index-aligned records:

- a `detections` entry: the label and the score rounded to three decimals;
- a `predictions` entry: the centre and extents copied verbatim, the full
  score, the class name, the class index and a fresh detection identifier.

It answers with the annotated image and the two lists. A decode failure is
answered with status 400 and a fixed message. A model failure is answered with
status 500 and a message that embeds the model's error text.

Modules:

- `Wrappers` (`wrappers.dfy`): `Option` for the optional query parameter and
  `Result` for a collaborator that either returns or raises.
- `PyNumeric` (`pynumeric.dfy`): Python's `int()` on a float (truncation toward
  zero) and `round(x, 3)` (round half to even), both over exact reals, with
  their properties.
- `DetectionRecords` (`records.dfy`): the box, the engine result, and the two
  record shapes. It defines the two lists as reference functions, one append
  per box, and proves lemmas about them: alignment, verbatim copying,
  identifier freshness and threshold propagation.
- `Predictor` (`predictor.dfy`): the collaborators as a `Backend` value and the
  handler as a method. The handler records the collaborators it calls in the
  ghost trace `calls`. `CollectBoxes` is the handler's loop over the boxes.

The collaborators are the decoder, the model's `predict`, and the annotation
path (`plot`, conversion to an image, base64 encoding). Each one is a
function-valued field of `Backend`, and the handler's contract is stated in
terms of them. Detection identifiers come from a counter that the caller
threads through: the handler receives the next unused identifier and returns
the next unused one after the call.

The model follows the code as written, including these points:

- A class index with no name in the label table raises a `KeyError`. Nothing
  catches it, so it escapes the handler instead of being mapped to a handled
  error. The model returns `MissingLabel(classId)` for this case.
- `conf` is passed to the model unchecked, whatever its value.
- A failure in the annotation path is not caught either; see "Left out".

## Model

| member | source | states |
|---|---|---|
| `PyNumeric.PyInt` | backend/predictor.py:45 | `int(b.cls[0])` truncates toward zero: the result is the integer next to the value on the zero side, within distance 1 |
| `PyNumeric.RoundHalfEven` | backend/predictor.py:51 | the result is an integer within 1/2 of the input, and on an exact tie it is the even neighbour (Python's rounding mode) |
| `PyNumeric.Round3` | backend/predictor.py:51 | `round(x, 3)` has at most three decimals, lies within 0.0005 of `x`, and resolves ties to an even last digit |
| `PyNumeric.Round3Idempotent` | backend/predictor.py:51 | a value with three decimals is unchanged by rounding, so rounding twice equals rounding once |
| `PyNumeric.Round3UnitInterval` | backend/predictor.py:51 | a score in [0, 1] stays in [0, 1] after rounding |
| `PyNumeric.Round3Monotone` | backend/predictor.py:51 | rounding preserves the order of scores |
| `DetectionRecords.FirstUnlabelled` | backend/predictor.py:43-46 | gives the index of the first box whose class index is missing from `names`: every earlier box has a name and that box has none, and the index equals the box count exactly when every box has a name |
| `DetectionRecords.Summarize` | backend/predictor.py:44-52 | a summary entry's label is `names[class_id]` of its box, and its score has three decimals and lies within 0.0005 of the box's score |
| `DetectionRecords.Detections` | backend/predictor.py:41-52 | the summary list has one entry per box, and entry i is the summary of box i |
| `DetectionRecords.Predictions` | backend/predictor.py:40-63 | the prediction list has one entry per box; entry i copies box i's x, y, width, height and score unchanged, carries `names[class_id]` and `class_id`, and has identifier `firstId + i` |
| `DetectionRecords.ExtendByOne` | backend/predictor.py:49-63 | appending box i's two entries to the lists of the first i boxes gives the lists of the first i + 1 boxes |
| `DetectionRecords.FirstUnlabelledAt` | backend/predictor.py:45-46 | if the first i boxes have names and box i has none, the lookup fails at box i |
| `DetectionRecords.ListsAligned` | backend/predictor.py:46-61 | entry i of `detections` and entry i of `predictions` carry the same label, the label is the name of the entry's `class_id`, and the summary score is the full score rounded |
| `DetectionRecords.IdsDistinct` | backend/predictor.py:62 | detection identifiers within one response are pairwise distinct |
| `DetectionRecords.IdsInRange` | backend/predictor.py:62 | every identifier in a response lies in [firstId, firstId + number of boxes) |
| `DetectionRecords.CounterOnlyAdvances` | backend/predictor.py:62 | when each response's identifier supply starts no earlier than where the previous one stopped, every later response starts after the end of every earlier one |
| `DetectionRecords.ResponsesNeverReuseIds` | backend/predictor.py:62 | across any number of responses served from one counter, each with its own label table, no two responses share a detection identifier. `WebsiteDetectImage` advances the counter by the box count on success, by the boxes passed on an abort, and not at all on an error, so its successive payloads meet the lemma's premise |
| `DetectionRecords.ThresholdCarriesOver` | backend/predictor.py:43-59 | if every box scores at least t, every prediction's score is at least t and every summary score is at least round(t, 3) |
| `DetectionRecords.ConfidenceInUnitRange` | backend/predictor.py:47-51 | box scores in [0, 1] give summary scores in [0, 1] |
| `Predictor.CollectBoxes` | backend/predictor.py:39-63 | the loop draws one identifier per box it passes. It stops at the first box whose class has no name and reports that class index. If every box has a name, it returns exactly the two reference lists |
| `Predictor.WebsiteDetectImage` | backend/predictor.py:21-74 | a decode failure gives 400 with the fixed detail, and `predict` is never called. Otherwise `predict` runs once, on the decoded image, with `conf` (default 0.5) passed unchanged. A model failure gives 500 with detail `"Lỗi YOLO: "` followed by the error text. A missing label aborts with no lists and no rendering. Otherwise the reply is the decoded image rendered with the engine result, plus the two reference lists, and the identifier counter advances by the box count |

## Left out

- Module-level model loading (`load_model()` at import) and the model's inference: the model is the `predict` field of `Backend`, an arbitrary function returning either the result for the image or an error text; what boxes it returns and whether it honours the threshold are its own business (`ThresholdCarriesOver` assumes it does).
- `decode_uploaded_file` and the asynchronous `file.read()`: the decoder is the `decode` field of `Backend`, success or failure; the kind of exception it raises is not distinguished, as the handler catches all of them.
- `results[0].plot()`, `Image.fromarray` and `encode_image_to_base64`: one opaque `render` function from the image given to the engine and the engine result to the encoded text; an exception raised there is not modelled (the handler does not catch it either).
- `results` is a list with one entry per input image; the model keeps only `results[0]`, the one image submitted.
- `uuid.uuid4()`: modelled as a counter threaded by the caller rather than random 128-bit identifiers, so freshness is exact rather than probabilistic, and identifiers are naturals rather than strings.
- `PyNumeric.Round3`: works on exact reals; Python's `round` on binary floats (where e.g. 2.675 is stored slightly below itself) and the `float()` conversions are not modelled.
- FastAPI routing, query-parameter parsing (a non-numeric `conf` is rejected by the framework before the handler runs), the framework's conversion of an escaping exception into a response, async execution and concurrency between requests.
- `Predictor.CollectBoxes`: the lists built before an abort are discarded by the handler, so its contract does not describe them.
- frontend/views/chat_page.py is not part of this model: it is user interface, database and chat-service I/O.
