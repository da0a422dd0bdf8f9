# OCR box viewer and XFUND dataset generator — a Dafny model

The repository sends images to an OCR service and then does one of two things with the answers:
- `bbox_view.py` draws the detected boxes on the image and averages their confidences.
- `xfund_gen.py` and `xfund_gen2.py` turn a labelling-tool export into an XFUND-style dataset, with every non-table, non-figure region cropped and recognised.

This project models the logic that turns OCR answers and annotation exports into records. It covers:

- **`get_tag`** (`Markup`): reading the `td` or `p` elements of a markup answer into `[text, [x, y, x+w, y+h]]` records. Each attribute is truncated on its own. A body printed as `"None"` becomes `"NULL"`. Any element whose attributes are missing or do not parse is dropped. The three source files hold verbatim copies of this function, and `Markup` is the single model of all three. The `get_tag` loop (`GetTag`) is proved equal to a filter over the whole document (`TagItems`), and that filter is proved to keep exactly the qualifying elements, each once and in document order.
- **The three `draw_boxes_*` loops** (`BBoxView`): the image is modelled as the list of drawing calls made on it. Each rectangle is given by its clamped corners `(max(0,x1), max(0,y1))`–`(min(w,x2), min(h,y2))`. The counters `n` and `rec_score` and the `text_list` are kept as in the source. Each method returns either the rendering, or the exception the source raises:
  - `IndexError` for a polygon with fewer than three points;
  - `ValueError` for a score that `float` rejects;
  - `ZeroDivisionError` for `rec_score / n` with no detections.

  Two quirks of the source are stated as they are:
  - In `draw_boxes_gil`, `score` is only assigned under `box_output`, so without it `rec` is 0.
  - `draw_boxes_dmp` never adds to `rec_score`, so its `rec` is 0 whenever there is a record.
- **`xfund_generator` and the text-assembly tail of `get_text`** (`Xfund`, `XfundGen`, `XfundGen2`):
  - The image id is `file_upload.split('.')[0].split('-')[1]`, and the file name is that id plus `".png"`.
  - Regions whose first label is in the fixed 15-entry skip list are dropped.
  - Every other region becomes one `{id, text, label, box}` entry, in input order. Its box is the percentages scaled to the image and rounded.
  - The recognised text is the `td` texts, then the `p` texts, joined with `"\n"`. It is None on a failed request, a status other than 200, or an unreadable answer.
  - In the modelled behaviour, the two generators differ only on unreadable images. In xfund_gen.py, `Image.open` raises and the run ends. In xfund_gen2.py, `cv2.imread` returns None and the record is passed over.

Python exceptions that escape a function are modelled as a `Result` failure carrying the first exception raised. `str.split` and `str.join` are modelled in `Strings`, with their two round trips.

The outside world is passed in as function parameters:

| Parameter | Models |
|---|---|
| `parse: string -> Option<int>` | `int(float(s))` on an attribute string |
| `parseScore: string -> Option<real>` | `float(s)` on a score |
| `round: real -> int` | Python's `round`. `RoundHalfEven` is a concrete instance, proved monotone. |
| `ocr: (Picture, Box) -> Option<Response>` | the HTTP call to the recognition service |
| `load: string -> Option<Picture>` | reading `<img_folder>/<id>.png` |

Floats are modelled as `real`.

Some behaviours of the code are easy to mistake:
- `draw_boxes_gil` and `draw_boxes_hs` truncate polygon coordinates with `int()` (`BBoxView.Trunc`). They do not round them.
- `xfund_generator` has no per-record recovery. It ends with an exception in these cases:
  - on an upload name with no `'-'` before its first `'.'`;
  - on a record without annotations;
  - on a region without a label;
  - in xfund_gen.py only, on an image that cannot be opened.
- A failed or unreadable OCR answer still gives an entry, with `text` None.
- `rec` is a mean confidence only in `draw_boxes_hs`, and in `draw_boxes_gil` with `box_output`.

## Model

| member | source | states |
|---|---|---|
| Markup.CellText | bbox_view.py:108-110 | an absent body, or one printing as "None", gives "NULL"; any other body is kept unchanged |
| Markup.Record | xfund_gen2.py:21-31 | an element gives a record exactly when its x, y, w and h attributes are all present and parse; the box starts at (x, y) and is w wide and h high; the text is the NULL-substituted body |
| Markup.FindAllInOrder | bbox_view.py:102 | `find_all` yields exactly the elements with the tag, each once, in document order |
| Markup.FindAllThenRecord | bbox_view.py:102-113 | looping over `find_all` and dropping elements whose attributes fail is the same as one filter over the whole document |
| Markup.GetTag | bbox_view.py:100-114 | the append loop returns exactly the records of the document's elements that carry the tag and whose attributes parse, in document order |
| Markup.TagItemsInOrder | xfund_gen.py:23-37 | one record per qualifying element and none for any other element, at strictly increasing positions, each equal to that element's record; at most as many records as elements |
| Markup.TagItemOrigin | bbox_view.py:102-111 | every record comes from an element of the document that carries the tag |
| Markup.ItemTexts | xfund_gen.py:75 | one text per record, in order |
| Markup.MarkupItemsOrigin | bbox_view.py:126-128 | in `td` items + `p` items, the first records come from `td` elements and the rest from `p` elements |
| Seqs.FilterMapKept | xfund_gen.py:116-118 | a keep-or-skip loop keeps exactly the accepted inputs, each once, in input order |
| BBoxView.TruncTowardZero | bbox_view.py:47 | `int()` on a coordinate moves it toward zero by less than one |
| BBoxView.Clamp | bbox_view.py:47 | the drawn corners satisfy left ≥ 0, top ≥ 0, right ≤ w and bottom ≤ h; a corner already on the allowed side is unchanged, and one past the origin or past the frame's edge is moved onto it |
| BBoxView.ClampInside | bbox_view.py:86 | a rectangle with x1 ≤ x2, x1 ≤ w, x2 ≥ 0 (likewise for y) is clamped to 0 ≤ left ≤ right ≤ w and 0 ≤ top ≤ bottom ≤ h |
| BBoxView.ClampOrdered | bbox_view.py:137 | a clamped rectangle has left ≤ right exactly when x1 ≤ x2, x1 ≤ w and x2 ≥ 0 (likewise for y) |
| BBoxView.DetectionRect | bbox_view.py:41-47 | the rectangle's top-left corner is the truncated first point, raised to 0 where negative; its bottom-right corner is the truncated third point, lowered to w or h where beyond; left, top ≥ 0, right ≤ w and bottom ≤ h |
| BBoxView.DetectionRectCorners | bbox_view.py:41-43 | two detections that agree on their first and third points give the same rectangle: the other points are ignored |
| BBoxView.DrawingInFrame | bbox_view.py:86 | every rectangle drawn for the detections has left, top ≥ 0, right ≤ w and bottom ≤ h; without `box_output` nothing is drawn |
| BBoxView.DrawingSize | bbox_view.py:45-54 | the number of drawing calls: none without `box_output`, else one per detection, two with `text_view` |
| BBoxView.DrawingAt | bbox_view.py:45-54 | with `box_output`, detection j gives the call at position j, or the calls at 2j and 2j+1 with `text_view`: its rectangle, then its text at (left − 10, top − 5) |
| BBoxView.ScoreTotalBounds | bbox_view.py:95 | scores all in [lo, hi] sum to between n·lo and n·hi |
| BBoxView.MeanBounds | bbox_view.py:89-96 | the mean confidence of scores all in [lo, hi] lies in [lo, hi] |
| BBoxView.RatioBounds | bbox_view.py:96 | dividing a total between n·lo and n·hi by n gives a value in [lo, hi] |
| BBoxView.TrueDivide | bbox_view.py:62 | `rec_score / n` raises `ZeroDivisionError` exactly when n is 0; otherwise it is the quotient, and 0 when the total is 0 |
| BBoxView.DrawBoxesGil | bbox_view.py:25-65 | fails with `ZeroDivisionError` exactly when there is no detection, and otherwise with the first detection's fault (a missing third point, or a bad score under `box_output`); on success it gives the clamped drawing, `rec` = mean score under `box_output` and 0 otherwise, and the detections' texts under `text_output`, else [] |
| BBoxView.DrawBoxesHs | bbox_view.py:68-97 | fails on the first faulty detection or with no detection; otherwise it draws every detection and `rec` is the mean parsed score |
| BBoxView.ItemDrawingInFrame | bbox_view.py:132-145 | every rectangle drawn for the markup records has left, top ≥ 0, right ≤ w and bottom ≤ h; there is one drawing call per record, two with `text_view` |
| BBoxView.ItemDrawingAt | bbox_view.py:132-145 | record j gives the call at position j, or the calls at 2j and 2j+1 with `text_view`: its box clamped, then its text at (left − 10, top − 5) |
| BBoxView.DrawBoxesDmp | bbox_view.py:117-148 | fails with `ZeroDivisionError` exactly when no `td` or `p` record parses; otherwise it draws the `td` then `p` records, clamped, and `rec` is 0 |
| Strings.SplitMany | xfund_gen.py:107 | `split('-')` has a second field exactly when the string contains '-' |
| Strings.SplitHead | xfund_gen2.py:101 | `split('.')[0]` is the part before the first '.' |
| Strings.SplitPartsSub | xfund_gen2.py:101 | every field of a split is made of characters of the split string |
| Strings.SplitJoin | xfund_gen.py:76 | splitting a `'\n'.join` of newline-free texts on '\n' gives the texts back |
| Strings.JoinSplit | xfund_gen2.py:69 | joining the fields of a split with the separator gives back the string |
| Xfund.ImageIdDefined | xfund_gen.py:107 | the image id exists exactly when the part of the upload name before the first '.' contains '-', and then it contains neither '.' nor '-' |
| Xfund.ImageIdOf | xfund_gen2.py:101 | an upload named `<prefix>-<id>.<ext>`, with prefix and id free of '-' and '.', yields that id |
| Xfund.FileName | xfund_gen.py:139 | `fname` is the image id followed by ".png": the id as prefix, ".png" as the rest |
| Xfund.RecognisedText | xfund_gen.py:61-80 | the text is present exactly when the request succeeded with status 200 and a readable answer; with no `td` or `p` record it is "" |
| Xfund.RecognisedLines | xfund_gen.py:70-76 | when no record text holds a line break, the lines of the text are the `td` texts followed by the `p` texts |
| Xfund.GetText | xfund_gen2.py:35-73 | `get_text` (request, status check, two `get_tag` loops, join) yields the recognised text of the service's answer for that crop |
| Xfund.RoundHalfEven | xfund_gen.py:120-123 | the rounded value is within 0.5 of its argument, and even on a tie |
| Xfund.RoundHalfEvenMonotone | xfund_gen.py:120-123 | rounding half to even is monotone |
| Xfund.CropBoxOrdered | xfund_gen2.py:121-124 | with a monotone rounding and a region of non-negative width and height, x1 ≤ x2 and y1 ≤ y2 |
| Xfund.AnnotateRegion | xfund_gen.py:117-137 | a labelled region with a skip-listed first label gives no entry; any other gives one entry with the region's id, its first label, its rounded box and the text recognised in that box |
| Xfund.AnnotateImage | xfund_gen.py:116-137 | the annotation loop fails exactly when some region has no label; otherwise it yields the image's document list |
| Xfund.DocumentInOrder | xfund_gen2.py:117-139 | no entry carries a skip-listed label; every region with a label outside the skip list gives exactly one entry, in input order, with the region's id, its first label, its box `[x1, y1, x2, y2]` and the text recognised in that box |
| XfundGen.Generate | xfund_gen.py:82-146 | the run succeeds exactly when no record faults; otherwise it fails with the first record's fault (no id, unopenable image, no annotation, a region with no label); on success `documents` is the converted records |
| XfundGen.OneDocumentPerTask | xfund_gen.py:106-144 | a completed run has one document per record, in input order, each with the record's image id, `img = {id + ".png", width, height}` of the opened image and the entries of its first annotation |
| XfundGen2.Generate | xfund_gen2.py:76-148 | as in xfund_gen.py, except that an unreadable image is not a fault: that record is passed over and the loop goes on |
| XfundGen2.ReadableImagesInOrder | xfund_gen2.py:100-146 | a completed run has exactly one document per record whose image can be read, in input order, and none for the others; each carries the id, the size of the image read (the same size the boxes were scaled to) and the entries of its first annotation |

## Left out

- HTTP requests, status transport and timeouts: the recognition call is the parameter `ocr`. Its None result stands for an exception raised by `requests.post`.
- `response.json()`, the `data` key and BeautifulSoup/lxml parsing: the answer's body is given already parsed as a list of elements. None stands for any exception in those steps.
- Image decoding, colour conversion, `cv2.rectangle`, text overlay and font loading (bbox_view.py:12-23): drawing is reduced to the list of drawing calls, with clamped corners and caption positions. The image's height and width are parameters.
- Python float parsing, `int(float(..))` and `round`: these are the parameters `parse`, `parseScore` and `round`. Floats are `real`, so IEEE rounding in the averages and in `0.01 * width * x` is not modelled.
- `score_str` (bbox_view.py:51, bbox_view.py:90) is a display string that is never used.
- `read_json`, `write_json`, `os.listdir`, timing, `print` and the `__main__` drivers (bbox_view.py:151-212, xfund_gen.py:148-153, xfund_gen2.py:151-156): file I/O and plumbing. The export is given as a list of `Task` values, the output as a `Dataset`.
- The shape of the export JSON and of the detection lists is taken as given: a missing key such as `file_upload`, `value` or `id`, a `box[1]` without two items, and a non-numeric percentage are not modelled.
- Xfund.GetText: the numpy crop, the conversion and `cv2.imencode` (xfund_gen.py:50-58, xfund_gen2.py:46-50) are outside the `try`. When they raise, the whole run ends, and the model does not capture this. Two cases are known: an empty crop in both files, and in xfund_gen.py `pil_to_cv2` (xfund_gen.py:17-21), whose RGB-to-BGR conversion expects three channels and so fails on a greyscale or palette image. The crop only feeds the recognition call, so it is folded into `ocr`.
- BBoxView.DrawBoxesGil: the draw functions return the image; the model returns the drawing calls made on it.
