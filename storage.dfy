/** The object store the handler writes its artifacts to: a map from
    (bucket, key) to a stored object, changed by `put_object` calls
    (lambda/app.py, lines 125-150). The transport of the storage client is
    not modelled; whether a write fails is a parameter. */
module Storage {
  import opened Wrappers
  import opened Imaging

  datatype ObjectRef = ObjectRef(bucket: string, key: string)

  /** The two kinds of object the handler writes: the resized image as PNG
      bytes, and the JSON document {"label": ..., "confidence": ...}. */
  datatype Content =
    | PngImage(bytes: seq<uint8>)
    | ResultDocument(cardName: string, confidence: real)

  datatype StoredObject = StoredObject(content: Content, contentType: string)

  type Objects = map<ObjectRef, StoredObject>

  /** The bucket name is written into the handler, not configured. */
  const BucketName: string := "your-s3-bucket-name"

  /** `<request id>.png` */
  function ImageRef(requestId: string): (ref: ObjectRef) {
    ObjectRef(BucketName, requestId + ".png")
  }

  /** `<request id>.json` */
  function ResultRef(requestId: string): (ref: ObjectRef) {
    ObjectRef(BucketName, requestId + ".json")
  }

  /** The only places one request writes to. */
  function ArtifactRefs(requestId: string): (refs: set<ObjectRef>) {
    {ImageRef(requestId), ResultRef(requestId)}
  }

  /** Appending the same suffix keeps different strings different. */
  lemma SuffixCancels(a: string, b: string, suffix: string)
    ensures a + suffix == b + suffix ==> a == b
  {
    if a + suffix == b + suffix {
      assert |a| == |b|;
      assert a == (a + suffix)[..|a|] && b == (b + suffix)[..|b|];
    }
  }

  /** One request's two keys differ, and two different request ids never
      share a key, whatever the ids are. */
  lemma ArtifactRefsDisjoint(id1: string, id2: string)
    ensures ImageRef(id1) != ResultRef(id2)
    ensures id1 != id2 ==> ArtifactRefs(id1) !! ArtifactRefs(id2)
  {
    var png1, json2 := id1 + ".png", id2 + ".json";
    assert png1[|png1| - 1] == 'g' && json2[|json2| - 1] == 'n';
    var png2, json1 := id2 + ".png", id1 + ".json";
    assert png2[|png2| - 1] == 'g' && json1[|json1| - 1] == 'n';
    SuffixCancels(id1, id2, ".png");
    SuffixCancels(id1, id2, ".json");
  }

  /** `after` differs from `before` at most at the places in `refs`. */
  ghost predicate AgreeOutside(before: Objects, after: Objects, refs: set<ObjectRef>) {
    forall ref :: ref !in refs ==>
      && (ref in after <==> ref in before)
      && (ref in after ==> after[ref] == before[ref])
  }

  /** The store after the two writes of one request, with the first write
      error if there is one. The writes are not transactional: when the
      image is written and the result is not, the image stays. */
  function Persist(objects: Objects, requestId: string, png: seq<uint8>,
                   cardName: string, confidence: real,
                   writeFault: ObjectRef -> Option<string>): (r: (Objects, Option<string>))
    ensures AgreeOutside(objects, r.0, ArtifactRefs(requestId))
    ensures r.1.None? <==> writeFault(ImageRef(requestId)).None? && writeFault(ResultRef(requestId)).None?
    ensures r.1.None? ==>
      && r.0.Keys == objects.Keys + ArtifactRefs(requestId)
      && r.0[ImageRef(requestId)] == StoredObject(PngImage(png), "image/png")
      && r.0[ResultRef(requestId)] == StoredObject(ResultDocument(cardName, confidence), "application/json")
    ensures writeFault(ImageRef(requestId)).Some? ==> r == (objects, writeFault(ImageRef(requestId)))
    ensures writeFault(ImageRef(requestId)).None? && writeFault(ResultRef(requestId)).Some? ==>
      && r.0 == objects[ImageRef(requestId) := StoredObject(PngImage(png), "image/png")]
      && r.1 == writeFault(ResultRef(requestId))
  {
    ArtifactRefsDisjoint(requestId, requestId);
    match writeFault(ImageRef(requestId))
    case Some(reason) => (objects, Some(reason))
    case None =>
      var withImage := objects[ImageRef(requestId) := StoredObject(PngImage(png), "image/png")];
      match writeFault(ResultRef(requestId))
      case Some(reason) => (withImage, Some(reason))
      case None =>
        (withImage[ResultRef(requestId) := StoredObject(ResultDocument(cardName, confidence), "application/json")], None)
  }

  /** What `io.BytesIO.write` leaves in the buffer when `bytes` are written
      at position `pos`: they replace what was there, the buffer grows as
      needed, and a gap before `pos` is filled with zero bytes. */
  function Overwrite(data: seq<uint8>, pos: nat, bytes: seq<uint8>): (r: seq<uint8>)
    ensures |r| == if pos + |bytes| > |data| then pos + |bytes| else |data|
    ensures r[pos..pos + |bytes|] == bytes
    ensures forall i :: 0 <= i < |data| && (i < pos || pos + |bytes| <= i) ==> r[i] == data[i]
    ensures forall i :: |data| <= i < pos ==> r[i] == 0
  {
    var head := if pos <= |data| then data[..pos] else data + seq(pos - |data|, _ => 0);
    var tail := if pos + |bytes| < |data| then data[pos + |bytes|..] else [];
    head + bytes + tail
  }

  /** The in-memory file the PNG encoder writes into. */
  class BytesBuffer {
    var data: seq<uint8>
    var pos: nat

    constructor ()
      ensures data == [] && pos == 0
    {
      data, pos := [], 0;
    }

    /** The bytes a reader gets from the current position on. */
    function Unread(): (unread: seq<uint8>)
      reads this
    {
      if pos <= |data| then data[pos..] else []
    }

    method Write(bytes: seq<uint8>)
      modifies this
      ensures data == Overwrite(old(data), old(pos), bytes)
      ensures pos == old(pos) + |bytes|
    {
      data := Overwrite(data, pos, bytes);
      pos := pos + |bytes|;
    }

    method Seek(offset: nat)
      modifies this
      ensures data == old(data) && pos == offset
    {
      pos := offset;
    }
  }

  /** Writing into an empty buffer and rewinding it makes the whole of what
      was written readable. */
  lemma RewoundBufferHoldsWrite(bytes: seq<uint8>)
    ensures Overwrite([], 0, bytes)[0..] == bytes
  {
    var r := Overwrite([], 0, bytes);
    assert r[0..] == r[0..|bytes|];
  }

  /** The bucket service, as the map of the objects it holds. */
  class ObjectStore {
    var objects: Objects

    constructor (initial: Objects)
      ensures objects == initial
    {
      objects := initial;
    }

    /** `put_object`: stores `content` under (bucket, key), replacing what
        was there, unless the write fails with `fault`. */
    method PutObject(bucket: string, key: string, content: Content, contentType: string,
                     fault: Option<string>) returns (error: Option<string>)
      modifies this
      ensures error == fault
      ensures fault.None? ==> objects == old(objects)[ObjectRef(bucket, key) := StoredObject(content, contentType)]
      ensures fault.Some? ==> objects == old(objects)
    {
      error := fault;
      if fault.None? {
        objects := objects[ObjectRef(bucket, key) := StoredObject(content, contentType)];
      }
    }

    /** The image goes through an in-memory buffer that is rewound before
        upload, then the result document is written; the first write error
        ends the sequence. */
    method SaveArtifacts(requestId: string, png: seq<uint8>, cardName: string, confidence: real,
                         writeFault: ObjectRef -> Option<string>) returns (error: Option<string>)
      modifies this
      ensures (objects, error) == Persist(old(objects), requestId, png, cardName, confidence, writeFault)
    {
      var buffer := new BytesBuffer();
      buffer.Write(png);
      buffer.Seek(0);
      RewoundBufferHoldsWrite(png);
      error := PutObject(BucketName, requestId + ".png", PngImage(buffer.Unread()), "image/png",
                         writeFault(ImageRef(requestId)));
      if error.Some? {
        return;
      }
      error := PutObject(BucketName, requestId + ".json", ResultDocument(cardName, confidence),
                         "application/json", writeFault(ResultRef(requestId)));
    }
  }
}
