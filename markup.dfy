/** `get_tag`: turn the `td` or `p` elements of a parsed OCR markup response into
    `[text, [x1, y1, x2, y2]]` records. bbox_view.py, xfund_gen.py and xfund_gen2.py hold
    verbatim copies of it; this module is the one model of all three. */
module Markup {
  import opened Wrappers
  import opened Seqs

  /** An element as the HTML parser yields it: its tag name, its attribute strings, and its
      `.string` (absent when the element has no single string child). */
  datatype Element = Element(tag: string, attrs: map<string, string>, body: Option<string>)

  /** An axis-aligned rectangle `[x1, y1, x2, y2]` in pixels. */
  datatype Box = Box(x1: int, y1: int, x2: int, y2: int)

  /** One `[text, box]` record of `get_tag`. */
  datatype TagItem = TagItem(text: string, box: Box)

  /** `str(item.string)`: an absent body prints as "None". */
  function Stringified(body: Option<string>): string
  {
    match body
    case None => "None"
    case Some(s) => s
  }

  /** The record text: the printed body, with "None" replaced by "NULL". */
  function CellText(body: Option<string>): (t: string)
    ensures body.None? ==> t == "NULL"
    ensures body == Some("None") ==> t == "NULL"
    ensures body.Some? && body.value != "None" ==> t == body.value
  {
    var text := Stringified(body);
    if text == "None" then "NULL" else text
  }

  /** `int(float(item.attrs[key]))`: None when the attribute is missing or `parse` (float parsing
      followed by truncation, which also fails on nan and infinity) rejects it. */
  function Field(e: Element, key: string, parse: string -> Option<int>): Option<int>
  {
    if key in e.attrs then parse(e.attrs[key]) else None
  }

  /** The body of the `try`: a record, or None where the `except: continue` drops the element. */
  function Record(e: Element, parse: string -> Option<int>): (r: Option<TagItem>)
    ensures r.Some? <==>
      Field(e, "x", parse).Some? && Field(e, "y", parse).Some? &&
      Field(e, "w", parse).Some? && Field(e, "h", parse).Some?
    ensures r.Some? ==>
      r.value.box.x1 == Field(e, "x", parse).value && r.value.box.y1 == Field(e, "y", parse).value &&
      r.value.box.x2 - r.value.box.x1 == Field(e, "w", parse).value &&
      r.value.box.y2 - r.value.box.y1 == Field(e, "h", parse).value
    ensures r.Some? ==> r.value.text == CellText(e.body)
  {
    match (Field(e, "x", parse), Field(e, "y", parse), Field(e, "w", parse), Field(e, "h", parse))
    case (Some(x), Some(y), Some(w), Some(h)) => Some(TagItem(CellText(e.body), Box(x, y, x + w, y + h)))
    case _ => None
  }

  function Extractor(parse: string -> Option<int>): Element -> Option<TagItem>
  {
    (e: Element) => Record(e, parse)
  }

  function TagIs(tagname: string): Element -> Option<Element>
  {
    (e: Element) => if e.tag == tagname then Some(e) else None
  }

  /** `soup.find_all(tagname)`: the elements with that tag, in document order. */
  function FindAll(doc: seq<Element>, tagname: string): (found: seq<Element>)
  {
    FilterMap(doc, TagIs(tagname))
  }

  /** `find_all` returns every element that carries the tag and no other, each once, in document
      order. */
  lemma FindAllInOrder(doc: seq<Element>, tagname: string)
    ensures var found := FindAll(doc, tagname);
      var ks := Kept(doc, TagIs(tagname));
      && |found| == |ks| <= |doc|
      && (forall k :: 0 <= k < |ks| ==> found[k] == doc[ks[k]] && found[k].tag == tagname)
      && (forall k, l :: 0 <= k < l < |ks| ==> ks[k] < ks[l])
      && (forall i :: 0 <= i < |doc| ==> (doc[i].tag == tagname <==> i in ks))
  {
    FilterMapKept(doc, TagIs(tagname));
  }

  /** The record of an element if it carries the tag and its attributes parse. */
  function Picker(tagname: string, parse: string -> Option<int>): Element -> Option<TagItem>
  {
    (e: Element) => if e.tag == tagname then Record(e, parse) else None
  }

  /** What `get_tag(soup, tagname)` returns, read off the whole document. */
  function TagItems(doc: seq<Element>, tagname: string, parse: string -> Option<int>): seq<TagItem>
  {
    FilterMap(doc, Picker(tagname, parse))
  }

  /** Filtering by tag and then by attributes is one pass that does both. */
  lemma {:induction false} FindAllThenRecord(doc: seq<Element>, tagname: string, parse: string -> Option<int>)
    ensures FilterMap(FindAll(doc, tagname), Extractor(parse)) == TagItems(doc, tagname, parse)
    decreases |doc|
  {
    if doc != [] {
      var n := |doc| - 1;
      FindAllThenRecord(doc[..n], tagname, parse);
      var front := FindAll(doc[..n], tagname);
      if doc[n].tag == tagname {
        assert FindAll(doc, tagname) == front + [doc[n]];
        assert (front + [doc[n]])[..|front|] == front;
      } else {
        assert FindAll(doc, tagname) == front;
      }
    }
  }

  /** The loop of `get_tag` over `find_all(tagname)`: one record per found element whose four
      attributes parse, the others skipped. */
  method GetTag(doc: seq<Element>, tagname: string, parse: string -> Option<int>)
    returns (tagItem: seq<TagItem>)
    ensures tagItem == TagItems(doc, tagname, parse)
  {
    var found := FindAll(doc, tagname);
    tagItem := [];
    var i := 0;
    while i < |found|
      invariant 0 <= i <= |found|
      invariant tagItem == FilterMap(found[..i], Extractor(parse))
    {
      assert found[..i + 1][..i] == found[..i];
      var record := Record(found[i], parse);
      if record.Some? {
        tagItem := tagItem + [record.value];
      }
      i := i + 1;
    }
    assert found[..i] == found;
    FindAllThenRecord(doc, tagname, parse);
  }

  /** The records of `get_tag` are those of the document's elements that carry the tag and whose
      attributes parse: each such element gives exactly one record, in document order, and no
      other element gives any. */
  lemma TagItemsInOrder(doc: seq<Element>, tagname: string, parse: string -> Option<int>)
    ensures var items := TagItems(doc, tagname, parse);
      var ks := Kept(doc, Picker(tagname, parse));
      && |items| == |ks| <= |doc|
      && (forall k :: 0 <= k < |ks| ==> doc[ks[k]].tag == tagname && Record(doc[ks[k]], parse) == Some(items[k]))
      && (forall k, l :: 0 <= k < l < |ks| ==> ks[k] < ks[l])
      && (forall i :: 0 <= i < |doc| ==> (doc[i].tag == tagname && Record(doc[i], parse).Some? <==> i in ks))
  {
    FilterMapKept(doc, Picker(tagname, parse));
  }

  /** Every record of `get_tag(soup, tagname)` is the record of some element of the document
      that carries that tag. */
  lemma TagItemOrigin(doc: seq<Element>, tagname: string, parse: string -> Option<int>, j: nat)
    requires j < |TagItems(doc, tagname, parse)|
    ensures exists e :: e in doc && e.tag == tagname && Record(e, parse) == Some(TagItems(doc, tagname, parse)[j])
  {
    TagItemsInOrder(doc, tagname, parse);
    var e := doc[Kept(doc, Picker(tagname, parse))[j]];
    assert e in doc;
  }

  /** `get_tag(soup, 'td') + get_tag(soup, 'p')`: every table-cell record, then every paragraph record. */
  function MarkupItems(doc: seq<Element>, parse: string -> Option<int>): seq<TagItem>
  {
    TagItems(doc, "td", parse) + TagItems(doc, "p", parse)
  }

  /** `[item[0] for item in items]`. */
  function ItemTexts(items: seq<TagItem>): (ts: seq<string>)
    ensures |ts| == |items|
    ensures forall k :: 0 <= k < |items| ==> ts[k] == items[k].text
  {
    seq(|items|, k requires 0 <= k < |items| => items[k].text)
  }

  /** In the combined list, the first records come from `td` elements and the rest from `p`
      elements, each with the box and text of the element it came from. */
  lemma MarkupItemsOrigin(doc: seq<Element>, parse: string -> Option<int>, k: nat)
    requires k < |MarkupItems(doc, parse)|
    ensures var cells := |TagItems(doc, "td", parse)|;
      exists e :: e in doc && e.tag == (if k < cells then "td" else "p") &&
        Record(e, parse) == Some(MarkupItems(doc, parse)[k])
  {
    var cells := TagItems(doc, "td", parse);
    if k < |cells| {
      TagItemOrigin(doc, "td", parse, k);
    } else {
      TagItemOrigin(doc, "p", parse, k - |cells|);
    }
  }
}
