/** `xfund_generator` of xfund_gen2.py: as in xfund_gen.py, except that the image is read with
    `cv2.imread`, which answers None for an unreadable file; such a record is passed over and the
    loop goes on. */
module XfundGen2 {
  import opened Wrappers
  import opened Seqs
  import opened Markup
  import opened Xfund

  /** The exception a record raises: the id, then (for a readable image only) the first
      annotation and the label of each region; None when it converts or is passed over. */
  function Fault(task: Task, load: string -> Option<Picture>): Option<GenError>
  {
    match ImageId(task.fileUpload)
    case None => Some(NoImageId)
    case Some(id) =>
      if load(FileName(id)).None? then None
      else if task.annotations == [] then Some(NoAnnotation)
      else if LabelMissing(task.annotations[0].result) then Some(NoLabel)
      else None
  }

  ghost predicate SoundUpTo(tasks: seq<Task>, n: nat, load: string -> Option<Picture>)
    requires n <= |tasks|
  {
    forall j :: 0 <= j < n ==> Fault(tasks[j], load).None?
  }

  /** `xfund_generator(studio_json, img_folder, ...)` with the export already read and the file
      system given as `load`: the dataset, or the first exception raised. */
  method Generate(tasks: seq<Task>, load: string -> Option<Picture>, ocr: (Picture, Box) -> Option<Response>,
                  parse: string -> Option<int>, round: real -> int)
    returns (r: Result<Dataset, GenError>)
    ensures r.Success? <==> SoundUpTo(tasks, |tasks|, load)
    ensures r.Failure? ==>
      exists i :: 0 <= i < |tasks| && SoundUpTo(tasks, i, load) && Fault(tasks[i], load) == Some(r.error)
    ensures r.Success? ==> r.value.documents == FilterMap(tasks, Converter(load, ocr, parse, round))
  {
    var documents := [];
    for i := 0 to |tasks|
      invariant SoundUpTo(tasks, i, load)
      invariant documents == FilterMap(tasks[..i], Converter(load, ocr, parse, round))
    {
      assert tasks[..i + 1][..i] == tasks[..i];
      var imageJson := tasks[i];
      var imageName := ImageId(imageJson.fileUpload);
      if imageName.None? {
        assert Fault(imageJson, load) == Some(NoImageId);
        return Failure(NoImageId);
      }
      var img := load(FileName(imageName.value));
      if img.None? {
        continue;
      }
      if imageJson.annotations == [] {
        assert Fault(imageJson, load) == Some(NoAnnotation);
        return Failure(NoAnnotation);
      }
      var document := AnnotateImage(imageJson.annotations[0].result, img.value, ocr, parse, round);
      if document.Failure? {
        assert Fault(imageJson, load) == Some(NoLabel);
        return Failure(document.error);
      }
      var info := ImgInfo(FileName(imageName.value), img.value.width, img.value.height);
      assert Converter(load, ocr, parse, round)(imageJson) == Some(XDoc(imageName.value, document.value, info));
      documents := documents + [XDoc(imageName.value, document.value, info)];
    }
    assert tasks[..|tasks|] == tasks;
    return Success(Dataset(documents));
  }

  /** A run that completes has one document per record whose image can be read, each once and in
      input order, and none for the others; each carries the record's image id, the size of the
      image read and the entries of its first annotation. */
  lemma ReadableImagesInOrder(tasks: seq<Task>, load: string -> Option<Picture>, ocr: (Picture, Box) -> Option<Response>,
                              parse: string -> Option<int>, round: real -> int)
    requires SoundUpTo(tasks, |tasks|, load)
    ensures var documents := FilterMap(tasks, Converter(load, ocr, parse, round));
      var ks := Kept(tasks, Converter(load, ocr, parse, round));
      && |documents| == |ks| <= |tasks|
      && (forall k, l :: 0 <= k < l < |ks| ==> ks[k] < ks[l])
      && (forall i :: 0 <= i < |tasks| ==>
            (load(FileName(ImageId(tasks[i].fileUpload).value)).Some? <==> i in ks))
      && (forall k :: 0 <= k < |ks| ==>
            var task := tasks[ks[k]];
            var id := ImageId(task.fileUpload).value;
            var picture := load(FileName(id)).value;
            && documents[k].id == id
            && documents[k].img == ImgInfo(id + ".png", picture.width, picture.height)
            && documents[k].document == Document(task.annotations[0].result, picture, ocr, parse, round))
  {
    var f := Converter(load, ocr, parse, round);
    FilterMapKept(tasks, f);
    forall i | 0 <= i < |tasks|
      ensures ImageId(tasks[i].fileUpload).Some?
    {
      assert Fault(tasks[i], load).None?;
    }
  }
}
