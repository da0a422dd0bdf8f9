/** What xfund_gen.py and xfund_gen2.py share: the labels to skip, the image id read off the
    upload name, the text-assembly tail of `get_text`, the pixel box of an annotation and the loop
    over the annotations of one image. */
module Xfund {
  import opened Wrappers
  import opened Seqs
  import opened Strings
  import opened Markup

  /** One rectangle annotation of the labelling export: `res["id"]`, the percentages
      `res["value"]["x"|"y"|"width"|"height"]` and `res["value"]["rectanglelabels"]`. */
  datatype Region = Region(id: string, x: real, y: real, width: real, height: real, labels: seq<string>)

  /** One annotation of an exported image: its `result` list. */
  datatype Annotation = Annotation(result: seq<Region>)

  /** One record of the export: `file_upload` and the `annotations` list. */
  datatype Task = Task(fileUpload: string, annotations: seq<Annotation>)

  /** A decoded image: its size in pixels and its pixel data, which only the recognition call
      looks at. */
  datatype Picture = Picture(width: nat, height: nat, pixels: seq<int>)

  /** The answer of the recognition service: the HTTP status and, when `response.json()["data"]`
      could be read and parsed as markup, its elements (None where either step raises). */
  datatype Response = Response(status: int, body: Option<seq<Element>>)

  /** One `document` entry: `{"id", "text", "label", "box"}`; the text is None where `get_text`
      returned None. */
  datatype Entry = Entry(id: string, text: Option<string>, labelName: string, box: Box)

  /** The `img` entry: `{"fname", "width", "height"}`. */
  datatype ImgInfo = ImgInfo(fname: string, width: nat, height: nat)

  /** One element of `documents`. */
  datatype XDoc = XDoc(id: string, document: seq<Entry>, img: ImgInfo)

  /** The whole output file: `{"documents": [...]}`. */
  datatype Dataset = Dataset(documents: seq<XDoc>)

  /** The exceptions that end a run of `xfund_generator`: `split('-')[1]` out of range,
      `Image.open` failing, `annotations[0]` out of range, `rectanglelabels[0]` out of range. */
  datatype GenError = NoImageId | Unreadable | NoAnnotation | NoLabel

  /** The labels whose regions hold no text to recognise: tables, formulas and pictures. */
  const SkipLabels: seq<string> := [
    "table", "wireless", "formula", "image", "head_image", "foot_image",
    "有线表", "缺线表", "独立公式", "行内内嵌公式", "图片", "图表", "分子结构图", "页脚图片", "页眉图片"
  ]

  /** `file_upload.split('.')[0].split('-')[1]`, None where the index is out of range. */
  function ImageId(upload: string): Option<string>
  {
    var parts := Split(Split(upload, '.')[0], '-');
    if |parts| < 2 then None else Some(parts[1])
  }

  /** The id can be read exactly when the part before the first '.' holds a '-', and then it holds
      neither '.' nor '-'. */
  lemma ImageIdDefined(upload: string)
    ensures ImageId(upload).Some? <==> '-' in Split(upload, '.')[0]
    ensures ImageId(upload).Some? ==> '.' !in ImageId(upload).value && '-' !in ImageId(upload).value
  {
    var stem := Split(upload, '.')[0];
    SplitMany(stem, '-');
    SplitHead(upload, '.');
    SplitPartsFree(stem, '-');
    if ImageId(upload).Some? {
      var id := Split(stem, '-')[1];
      assert id in Split(stem, '-');
      assert forall ch :: ch in id ==> ch in stem by {
        SplitPartsSub(stem, '-');
      }
    }
  }

  /** An upload named `<prefix>-<id>.<ext>` with a prefix free of '-' and '.' and an id free of
      both gives back that id. */
  lemma ImageIdOf(prefix: string, id: string, ext: string)
    requires '-' !in prefix && '.' !in prefix
    requires '-' !in id && '.' !in id
    ensures ImageId(prefix + "-" + id + "." + ext) == Some(id)
  {
    var stem := prefix + "-" + id;
    assert '.' !in stem;
    assert prefix + "-" + id + "." + ext == stem + ['.'] + ext;
    SplitAt(stem, '.', ext);
    assert stem == prefix + ['-'] + id;
    SplitAt(prefix, '-', id);
    SplitFree(id, '-');
  }

  /** `image_name + '.png'`. */
  function FileName(id: string): (name: string)
    ensures |name| == |id| + 4 && name[..|id|] == id && name[|id|..] == ".png"
  {
    id + ".png"
  }

  /** The tail of `get_text` after the request: None on a failed request, a status other than
      200 or an unreadable answer; otherwise the `td` texts then the `p` texts, one per line. */
  function RecognisedText(reply: Option<Response>, parse: string -> Option<int>): (text: Option<string>)
    ensures text.Some? <==> reply.Some? && reply.value.status == 200 && reply.value.body.Some?
    ensures text.Some? && MarkupItems(reply.value.body.value, parse) == [] ==> text.value == ""
  {
    match reply
    case None => None
    case Some(response) =>
      if response.status != 200 then None
      else match response.body
        case None => None
        case Some(doc) => Some(Join(ItemTexts(MarkupItems(doc, parse)), "\n"))
  }

  /** When no recognised text holds a line break, the lines of the result are exactly the texts
      of the `td` records followed by those of the `p` records. */
  lemma RecognisedLines(doc: seq<Element>, parse: string -> Option<int>)
    requires MarkupItems(doc, parse) != []
    requires forall item :: item in MarkupItems(doc, parse) ==> '\n' !in item.text
    ensures var text := RecognisedText(Some(Response(200, Some(doc))), parse);
      text.Some? && Split(text.value, '\n') == ItemTexts(MarkupItems(doc, parse))
  {
    var items := MarkupItems(doc, parse);
    var texts := ItemTexts(items);
    forall k | 0 <= k < |texts|
      ensures '\n' !in texts[k]
    {
      assert items[k] in items;
    }
    SplitJoin(texts, '\n');
  }

  /** `get_text(img, x1, y1, x2, y2)`: the crop is sent to the recognition service `ocr`, and the
      answer is read as markup. */
  method GetText(picture: Picture, box: Box, ocr: (Picture, Box) -> Option<Response>, parse: string -> Option<int>)
    returns (text: Option<string>)
    ensures text == RecognisedText(ocr(picture, box), parse)
  {
    var response := ocr(picture, box);
    if response.None? || response.value.status != 200 || response.value.body.None? {
      return None;
    }
    var gtsoup := response.value.body.value;
    var cells := GetTag(gtsoup, "td", parse);
    var paragraphs := GetTag(gtsoup, "p", parse);
    var textList := ItemTexts(cells + paragraphs);
    return Some(Join(textList, "\n"));
  }

  /** Python's `round` on the product of a size and a percentage, abstracted. */
  ghost predicate Monotone(round: real -> int)
  {
    forall a, b :: a <= b ==> round(a) <= round(b)
  }

  /** Round half to even, as Python's `round(x)` does for exact values. */
  function RoundHalfEven(v: real): (r: int)
    ensures -0.5 <= r as real - v <= 0.5
    ensures (r as real - v == 0.5 || v - r as real == 0.5) ==> r % 2 == 0
  {
    var f := v.Floor;
    var d := v - f as real;
    if d < 0.5 then f else if d > 0.5 then f + 1 else if f % 2 == 0 then f else f + 1
  }

  /** Rounding half to even never reverses the order of two values. */
  lemma RoundHalfEvenMonotone()
    ensures Monotone(RoundHalfEven)
  {
    forall a: real, b: real | a <= b
      ensures RoundHalfEven(a) <= RoundHalfEven(b)
    {
      if a.Floor < b.Floor {
        assert RoundHalfEven(a) <= a.Floor + 1 <= b.Floor <= RoundHalfEven(b);
      }
    }
  }

  /** `[x1, y1, x2, y2]`: the percentages of the annotation scaled to the picture and rounded. */
  function CropBox(picture: Picture, region: Region, round: real -> int): Box
  {
    Box(round(0.01 * picture.width as real * region.x),
        round(0.01 * picture.height as real * region.y),
        round(0.01 * picture.width as real * (region.x + region.width)),
        round(0.01 * picture.height as real * (region.y + region.height)))
  }

  /** With a monotone rounding and a region of non-negative size, the box is not inverted. */
  lemma CropBoxOrdered(picture: Picture, region: Region, round: real -> int)
    requires Monotone(round)
    requires region.width >= 0.0 && region.height >= 0.0
    ensures var box := CropBox(picture, region, round); box.x1 <= box.x2 && box.y1 <= box.y2
  {
    var sx := 0.01 * picture.width as real;
    var sy := 0.01 * picture.height as real;
    assert sx * (region.x + region.width) == sx * region.x + sx * region.width;
    assert sy * (region.y + region.height) == sy * region.y + sy * region.height;
    NonNegativeProduct(sx, region.width);
    NonNegativeProduct(sy, region.height);
  }

  lemma NonNegativeProduct(a: real, b: real)
    requires a >= 0.0 && b >= 0.0
    ensures a * b >= 0.0
  {
  }

  /** The first `n` regions all have a label. */
  predicate Labelled(regions: seq<Region>, n: nat)
    requires n <= |regions|
  {
    forall j :: 0 <= j < n ==> regions[j].labels != []
  }

  /** The condition that makes `rectanglelabels[0]` raise: some region has no label. */
  predicate LabelMissing(regions: seq<Region>)
  {
    !Labelled(regions, |regions|)
  }

  /** The entry an annotation becomes, or None where the skip list drops it (or, for a region
      with no label, where the run has already failed). */
  function EntryOf(region: Region, picture: Picture, ocr: (Picture, Box) -> Option<Response>,
                   parse: string -> Option<int>, round: real -> int): Option<Entry>
  {
    if region.labels == [] || region.labels[0] in SkipLabels then None
    else
      var box := CropBox(picture, region, round);
      Some(Entry(region.id, RecognisedText(ocr(picture, box), parse), region.labels[0], box))
  }

  function Annotator(picture: Picture, ocr: (Picture, Box) -> Option<Response>,
                     parse: string -> Option<int>, round: real -> int): Region -> Option<Entry>
  {
    (region: Region) => EntryOf(region, picture, ocr, parse, round)
  }

  /** The `document` list of one image, read off all its annotations. */
  function Document(regions: seq<Region>, picture: Picture, ocr: (Picture, Box) -> Option<Response>,
                    parse: string -> Option<int>, round: real -> int): seq<Entry>
  {
    FilterMap(regions, Annotator(picture, ocr, parse, round))
  }

  /** The body of the inner loop for a region with a label: None for a skip-listed label, else
      the box is cropped and recognised. */
  method AnnotateRegion(res: Region, picture: Picture, ocr: (Picture, Box) -> Option<Response>,
                        parse: string -> Option<int>, round: real -> int)
    returns (entry: Option<Entry>)
    requires res.labels != []
    ensures entry == EntryOf(res, picture, ocr, parse, round)
  {
    if res.labels[0] in SkipLabels {
      return None;
    }
    var box := CropBox(picture, res, round);
    var text := GetText(picture, box, ocr, parse);
    return Some(Entry(res.id, text, res.labels[0], box));
  }

  /** The inner loop of `xfund_generator`: skip-listed annotations are passed over, every other
      one is cropped, recognised and appended; a region without a label ends the run. */
  method AnnotateImage(regions: seq<Region>, picture: Picture, ocr: (Picture, Box) -> Option<Response>,
                       parse: string -> Option<int>, round: real -> int)
    returns (r: Result<seq<Entry>, GenError>)
    ensures r.Failure? <==> LabelMissing(regions)
    ensures r.Failure? ==> r.error == NoLabel
    ensures r.Success? ==> r.value == Document(regions, picture, ocr, parse, round)
  {
    var f := Annotator(picture, ocr, parse, round);
    var document := [];
    for i := 0 to |regions|
      invariant Labelled(regions, i)
      invariant document == FilterMap(regions[..i], f)
    {
      assert regions[..i + 1][..i] == regions[..i];
      var res := regions[i];
      if res.labels == [] {
        assert !Labelled(regions, |regions|) by {
          assert regions[i].labels == [];
        }
        return Failure(NoLabel);
      }
      var entry := AnnotateRegion(res, picture, ocr, parse, round);
      assert f(res) == entry;
      if entry.Some? {
        document := document + [entry.value];
      }
    }
    assert regions[..|regions|] == regions;
    return Success(document);
  }

  /** No entry carries a skip-listed label; every annotation with a label outside the skip list
      gives exactly one entry, in input order, with its id, its first label, its box and the text
      recognised in that box. */
  lemma DocumentInOrder(regions: seq<Region>, picture: Picture, ocr: (Picture, Box) -> Option<Response>,
                        parse: string -> Option<int>, round: real -> int)
    ensures var document := Document(regions, picture, ocr, parse, round);
      var ks := Kept(regions, Annotator(picture, ocr, parse, round));
      && |document| == |ks| <= |regions|
      && (forall k, l :: 0 <= k < l < |ks| ==> ks[k] < ks[l])
      && (forall i :: 0 <= i < |regions| ==>
            (regions[i].labels != [] && regions[i].labels[0] !in SkipLabels <==> i in ks))
      && (forall k :: 0 <= k < |ks| ==>
            var res := regions[ks[k]];
            var box := CropBox(picture, res, round);
            document[k] == Entry(res.id, RecognisedText(ocr(picture, box), parse), res.labels[0], box))
      && (forall e :: e in document ==> e.labelName !in SkipLabels)
  {
    var f := Annotator(picture, ocr, parse, round);
    FilterMapKept(regions, f);
    var document := Document(regions, picture, ocr, parse, round);
    var ks := Kept(regions, f);
    forall e | e in document
      ensures e.labelName !in SkipLabels
    {
      var k :| 0 <= k < |document| && document[k] == e;
      assert f(regions[ks[k]]) == Some(e);
    }
  }

  /** One element of `documents`: the `document` list of the image together with its file name
      and the size of the picture the boxes were scaled to; None where the record cannot be
      converted. */
  function Convert(task: Task, load: string -> Option<Picture>, ocr: (Picture, Box) -> Option<Response>,
                   parse: string -> Option<int>, round: real -> int): Option<XDoc>
  {
    match ImageId(task.fileUpload)
    case None => None
    case Some(id) =>
      match load(FileName(id))
      case None => None
      case Some(picture) =>
        if task.annotations == [] then None
        else Some(XDoc(id, Document(task.annotations[0].result, picture, ocr, parse, round),
                       ImgInfo(FileName(id), picture.width, picture.height)))
  }

  function Converter(load: string -> Option<Picture>, ocr: (Picture, Box) -> Option<Response>,
                     parse: string -> Option<int>, round: real -> int): Task -> Option<XDoc>
  {
    (task: Task) => Convert(task, load, ocr, parse, round)
  }
}
