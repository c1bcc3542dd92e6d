/** The request handler `lambda_handler` (lambda/app.py, lines 67-176): a
    preflight answer, a 400 for a body without an image, otherwise decode,
    inference, label lookup and two artifact writes, with every exception
    raised on the way turned into a 500.

    The outside world is a `Backend` of oracles: the image codec, the PNG
    encoder, the inference endpoint, the construction of the storage client
    and the outcome of each storage write.
    `Handle` says what one invocation returns and what the store holds
    afterwards; `LambdaHandler` does it step by step against an
    `ObjectStore` and is proved to agree with it. */
module Handler {
  import opened Wrappers
  import opened Labels
  import opened LabelResolver
  import opened Http
  import opened Imaging
  import opened Storage

  /** What `json.loads(event["body"])` yields: an exception with its
      message (a parse error, or the `TypeError` for a body that is `null`
      or not a string), a JSON value that is not an object (its Python type
      name), or an object, of which only `image_base64` is read. Within the
      object, `None` stands for a missing `image_base64` and for an explicit
      `null` alike. */
  datatype Payload =
    | NotJson(reason: string)
    | NotAnObject(typeName: string)
    | JsonObject(imageBase64: Option<string>)

  /** The fields of the inbound event that the handler reads; `None` is a
      missing key. */
  datatype Event = Event(httpMethod: Option<string>, body: Option<Payload>)

  /** The endpoint's answer: a failed call (transport error, or a reply
      that is not JSON), or the decoded reply, with its `predictions` field
      when it has one. */
  datatype InferenceReply =
    | InvokeFailed(reason: string)
    | Replied(predictions: Option<seq<seq<real>>>)

  /** The services the handler calls and cannot see into. */
  datatype Backend = Backend(
    decode: string -> Result<Grid, string>,       // base64 decode, open, RGB, resize
    encodePng: Grid -> Result<seq<uint8>, string>, // image.save(buffer, format="PNG")
    invoke: Grid -> InferenceReply,               // invoke_endpoint and json.loads
    clientFault: Option<string>,                  // the error of boto3.client("s3"), if any
    writeFault: ObjectRef -> Option<string>       // the error of a put_object, if any
  )

  /** The exceptions the handler can meet inside its `try`. */
  datatype Failure =
    | MissingKey(key: string)        // KeyError on event or reply
    | BodyNotJson(reason: string)    // json.loads rejects the body (or a null one)
    | NoGetAttribute(typeName: string) // AttributeError: body is not a dict
    | ImageUnreadable(reason: string)
    | InferenceFailed(reason: string)
    | IndexOutOfRange                // IndexError on a list
    | EmptyArgmax                    // ValueError from argmax
    | ClientUnavailable(reason: string) // the storage client cannot be built
    | EncodeFailed(reason: string)
    | WriteFailed(reason: string)

  /** `str(e)` for each exception. */
  function Message(f: Failure): (text: string) {
    match f
    case MissingKey(key) => "'" + key + "'"
    case BodyNotJson(reason) => reason
    case NoGetAttribute(typeName) => "'" + typeName + "' object has no attribute 'get'"
    case ImageUnreadable(reason) => reason
    case InferenceFailed(reason) => reason
    case IndexOutOfRange => "list index out of range"
    case EmptyArgmax => "attempt to get argmax of an empty sequence"
    case ClientUnavailable(reason) => reason
    case EncodeFailed(reason) => reason
    case WriteFailed(reason) => reason
  }

  /** The end of the `try` block: a returned response or a raised
      exception, and the store as it is at that point. */
  datatype Step = Step(result: Result<Response, Failure>, store: Objects)

  /** What the caller sees: the response and the store afterwards. */
  datatype Outcome = Outcome(response: Response, store: Objects)

  /** The body of the `try` up to the image. */
  function Attempt(ev: Event, requestId: string, be: Backend, store: Objects): (step: Step) {
    match ev.httpMethod
    case None => Step(Err(MissingKey("httpMethod")), store)
    case Some(verb) =>
      if verb == "OPTIONS" then Step(Ok(PreflightResponse), store)
      else
        match ev.body
        case None => Step(Err(MissingKey("body")), store)
        case Some(NotJson(reason)) => Step(Err(BodyNotJson(reason)), store)
        case Some(NotAnObject(typeName)) => Step(Err(NoGetAttribute(typeName)), store)
        case Some(JsonObject(None)) => Step(Ok(MissingImageResponse), store)
        case Some(JsonObject(Some(image))) => Process(image, requestId, be, store)
  }

  /** The body of the `try` from the image on. */
  function Process(image: string, requestId: string, be: Backend, store: Objects): (step: Step) {
    match be.decode(image)
    case Err(reason) => Step(Err(ImageUnreadable(reason)), store)
    case Ok(grid) =>
      match be.invoke(grid)
      case InvokeFailed(reason) => Step(Err(InferenceFailed(reason)), store)
      case Replied(None) => Step(Err(MissingKey("predictions")), store)
      case Replied(Some(rows)) =>
        if |rows| == 0 then Step(Err(IndexOutOfRange), store)
        else
          match Resolve(rows[0])
          case Err(EmptyScores) => Step(Err(EmptyArgmax), store)
          case Err(ClassOutOfRange(_)) => Step(Err(IndexOutOfRange), store)
          case Ok(res) =>
            match be.clientFault
            case Some(reason) => Step(Err(ClientUnavailable(reason)), store)
            case None =>
              match be.encodePng(grid)
              case Err(reason) => Step(Err(EncodeFailed(reason)), store)
              case Ok(png) =>
                var (after, fault) := Persist(store, requestId, png, res.cardName, res.confidence, be.writeFault);
                match fault
                case Some(reason) => Step(Err(WriteFailed(reason)), after)
                case None => Step(Ok(PredictionResponse(res.cardName, res.confidence)), after)
  }

  /** One invocation: the `try` block, with the `except` turning any
      exception into a 500 that carries its text. */
  function Handle(ev: Event, requestId: string, be: Backend, store: Objects): (out: Outcome) {
    var step := Attempt(ev, requestId, be, store);
    match step.result
    case Ok(response) => Outcome(response, step.store)
    case Err(failure) => Outcome(ErrorResponse(Message(failure)), step.store)
  }

  /** The `try` block, statement by statement. */
  method TryBody(ev: Event, requestId: string, be: Backend, store: ObjectStore)
    returns (result: Result<Response, Failure>)
    modifies store
    ensures Attempt(ev, requestId, be, old(store.objects)) == Step(result, store.objects)
  {
    if ev.httpMethod.None? {
      return Err(MissingKey("httpMethod"));
    }
    if ev.httpMethod.value == "OPTIONS" {
      return Ok(PreflightResponse);
    }
    if ev.body.None? {
      return Err(MissingKey("body"));
    }
    var body := ev.body.value;
    if body.NotJson? {
      return Err(BodyNotJson(body.reason));
    }
    if body.NotAnObject? {
      return Err(NoGetAttribute(body.typeName));
    }
    var imageData := body.imageBase64;
    if imageData.None? {
      return Ok(MissingImageResponse);
    }
    var image := be.decode(imageData.value);
    if image.Err? {
      return Err(ImageUnreadable(image.error));
    }
    var reply := be.invoke(image.value);
    if reply.InvokeFailed? {
      return Err(InferenceFailed(reply.reason));
    }
    if reply.predictions.None? {
      return Err(MissingKey("predictions"));
    }
    if |reply.predictions.value| == 0 {
      return Err(IndexOutOfRange);
    }
    var predictions := reply.predictions.value[0];
    var resolved := Resolve(predictions);
    if resolved.Err? {
      return if resolved.error.EmptyScores? then Err(EmptyArgmax) else Err(IndexOutOfRange);
    }
    var cardName, confidence := resolved.value.cardName, resolved.value.confidence;
    if be.clientFault.Some? {
      return Err(ClientUnavailable(be.clientFault.value));
    }
    var png := be.encodePng(image.value);
    if png.Err? {
      return Err(EncodeFailed(png.error));
    }
    var fault := store.SaveArtifacts(requestId, png.value, cardName, confidence, be.writeFault);
    if fault.Some? {
      return Err(WriteFailed(fault.value));
    }
    return Ok(PredictionResponse(cardName, confidence));
  }

  /** `lambda_handler(event, context)`, with `context.aws_request_id` as
      `requestId`. */
  method LambdaHandler(ev: Event, requestId: string, be: Backend, store: ObjectStore)
    returns (response: Response)
    modifies store
    ensures Handle(ev, requestId, be, old(store.objects)) == Outcome(response, store.objects)
  {
    var result := TryBody(ev, requestId, be, store);
    match result
    case Ok(r) =>
      response := r;
    case Err(failure) =>
      response := ErrorResponse(Message(failure));
  }

  // ----- What the handler promises -----

  /** The event is not a preflight and its body is an object with an image. */
  ghost predicate CarriesImage(ev: Event) {
    && ev.httpMethod.Some? && ev.httpMethod.value != "OPTIONS"
    && ev.body.Some? && ev.body.value.JsonObject? && ev.body.value.imageBase64.Some?
  }

  /** The endpoint answered with a non-empty `predictions` list whose first
      vector resolves to a label. */
  predicate PredictionsResolve(reply: InferenceReply) {
    && reply.Replied?
    && reply.predictions.Some?
    && |reply.predictions.value| > 0
    && Resolve(reply.predictions.value[0]).Ok?
  }

  /** Every stage after the image succeeds: it decodes, the endpoint answers
      with a non-empty `predictions` list whose first vector resolves to a
      label, the storage client is built, the image encodes as PNG and
      both writes go through. */
  ghost predicate StagesSucceed(image: string, requestId: string, be: Backend) {
    var grid := be.decode(image);
    && grid.Ok?
    && PredictionsResolve(be.invoke(grid.value))
    && be.clientFault.None?
    && be.encodePng(grid.value).Ok?
    && be.writeFault(ImageRef(requestId)).None?
    && be.writeFault(ResultRef(requestId)).None?
  }

  /** The event's image goes through every stage. */
  ghost predicate PipelineSucceeds(ev: Event, requestId: string, be: Backend)
    requires CarriesImage(ev)
  {
    StagesSucceed(ev.body.value.imageBase64.value, requestId, be)
  }

  /** The stages after the image return a response exactly when all of them
      succeed, and that response is a 200. */
  lemma ProcessSucceedsIff(image: string, requestId: string, be: Backend, store: Objects)
    ensures var step := Process(image, requestId, be, store);
      && (step.result.Ok? <==> StagesSucceed(image, requestId, be))
      && (step.result.Ok? ==> step.result.value.statusCode == 200)
  {
    var grid := be.decode(image);
    if grid.Ok? && be.invoke(grid.value).Replied? && be.invoke(grid.value).predictions.Some? {
      var rows := be.invoke(grid.value).predictions.value;
      if |rows| > 0 && Resolve(rows[0]).Ok? && be.clientFault.None? && be.encodePng(grid.value).Ok? {
        var res := Resolve(rows[0]).value;
        var png := be.encodePng(grid.value).value;
        var (after, fault) := Persist(store, requestId, png, res.cardName, res.confidence, be.writeFault);
        assert fault.None? <==> be.writeFault(ImageRef(requestId)).None? && be.writeFault(ResultRef(requestId)).None?;
      }
    }
  }

  /** An `OPTIONS` request is answered 200 with the preflight message and
      the CORS headers; nothing is decoded, inferred or stored, so the
      answer is the same whatever the backend does. */
  lemma PreflightShortCircuits(ev: Event, requestId: string, be: Backend, other: Backend, store: Objects)
    requires ev.httpMethod == Some("OPTIONS")
    ensures Handle(ev, requestId, be, store)
         == Outcome(Response(200, Some(CorsHeaders), MessageBody("CORS preflight OK")), store)
    ensures Handle(ev, requestId, other, store) == Handle(ev, requestId, be, store)
  {
  }

  /** A non-preflight body that is an object without `image_base64` (or with
      a null one) is answered 400 with the fixed message and no headers,
      before any backend call. */
  lemma MissingImageIsBadRequest(ev: Event, requestId: string, be: Backend, other: Backend, store: Objects)
    requires ev.httpMethod.Some? && ev.httpMethod.value != "OPTIONS"
    requires ev.body == Some(JsonObject(None))
    ensures Handle(ev, requestId, be, store)
         == Outcome(Response(400, None, ErrorBody("Missing 'image_base64' in request.")), store)
    ensures Handle(ev, requestId, other, store) == Handle(ev, requestId, be, store)
  {
  }

  /** 400 is given for that case and for no other. */
  lemma BadRequestOnlyForMissingImage(ev: Event, requestId: string, be: Backend, store: Objects)
    ensures Handle(ev, requestId, be, store).response.statusCode == 400 <==>
      && ev.httpMethod.Some? && ev.httpMethod.value != "OPTIONS"
      && ev.body == Some(JsonObject(None))
  {
  }

  /** Every answer is 200, 400 or 500; every answer but the 400 carries the
      same four CORS headers; the 500 carries the exception's text. */
  lemma ResponseShape(ev: Event, requestId: string, be: Backend, store: Objects)
    ensures var r := Handle(ev, requestId, be, store).response;
      && (r.statusCode == 200 || r.statusCode == 400 || r.statusCode == 500)
      && (r.statusCode == 400 ==> r.headers.None?)
      && (r.statusCode != 400 ==> r.headers == Some(CorsHeaders))
      && (r.statusCode == 500 <==> Attempt(ev, requestId, be, store).result.Err?)
      && (r.statusCode == 500 ==>
            r.body == ErrorBody(Message(Attempt(ev, requestId, be, store).result.error)))
  {
    if CarriesImage(ev) {
      var step := Process(ev.body.value.imageBase64.value, requestId, be, store);
      assert Attempt(ev, requestId, be, store) == step;
      assert step.result.Ok? ==> step.result.value.statusCode == 200;
    }
  }

  /** Beyond the preflight, a 200 is given exactly when every stage
      succeeds; no failed stage ever leads to a 200. */
  lemma SuccessIffPipelineSucceeds(ev: Event, requestId: string, be: Backend, store: Objects)
    requires ev.httpMethod != Some("OPTIONS")
    ensures Handle(ev, requestId, be, store).response.statusCode == 200 <==>
      CarriesImage(ev) && PipelineSucceeds(ev, requestId, be)
  {
    if CarriesImage(ev) {
      var image := ev.body.value.imageBase64.value;
      assert Attempt(ev, requestId, be, store) == Process(image, requestId, be, store);
      ProcessSucceedsIff(image, requestId, be, store);
    } else {
      NoImageNoStorage(ev, requestId, be, store);
    }
  }

  /** On success the response reports the first highest score of the first
      prediction vector and its label, the store has gained exactly the two
      artifacts of this request, and the JSON artifact holds the very label
      and confidence of the response. */
  lemma SuccessfulRequest(ev: Event, requestId: string, be: Backend, store: Objects)
    requires CarriesImage(ev) && PipelineSucceeds(ev, requestId, be)
    ensures var out := Handle(ev, requestId, be, store);
      var grid := be.decode(ev.body.value.imageBase64.value).value;
      var scores := be.invoke(grid).predictions.value[0];
      exists k ::
        && IsFirstMax(scores, k) && k < |LabelMap|
        && out.response == Response(200, Some(CorsHeaders), PredictionBody(LabelMap[k], scores[k]))
        && out.store.Keys == store.Keys + ArtifactRefs(requestId)
        && out.store[ImageRef(requestId)] == StoredObject(PngImage(be.encodePng(grid).value), "image/png")
        && out.store[ResultRef(requestId)]
           == StoredObject(ResultDocument(LabelMap[k], scores[k]), "application/json")
        && AgreeOutside(store, out.store, ArtifactRefs(requestId))
  {
    var grid := be.decode(ev.body.value.imageBase64.value).value;
    var scores := be.invoke(grid).predictions.value[0];
    var k := Resolve(scores).value.classIndex;
    assert IsFirstMax(scores, k) && k < |LabelMap|;
  }

  /** The stages after the image change the store only at the request's
      two keys; when they raise, at most the image was written, and the
      exception is the failed result write. */
  lemma ProcessStoreEffect(image: string, requestId: string, be: Backend, store: Objects)
    ensures var step := Process(image, requestId, be, store);
      && AgreeOutside(store, step.store, ArtifactRefs(requestId))
      && (step.result.Err? ==>
            || step.store == store
            || (&& ImageRef(requestId) in step.store
                && step.store == store[ImageRef(requestId) := step.store[ImageRef(requestId)]]
                && step.result.error == WriteFailed(be.writeFault(ResultRef(requestId)).value)))
  {
    var grid := be.decode(image);
    if grid.Ok? && be.invoke(grid.value).Replied? && be.invoke(grid.value).predictions.Some? {
      var rows := be.invoke(grid.value).predictions.value;
      if |rows| > 0 && Resolve(rows[0]).Ok? && be.clientFault.None? && be.encodePng(grid.value).Ok? {
        var res := Resolve(rows[0]).value;
        var png := be.encodePng(grid.value).value;
        var (after, fault) := Persist(store, requestId, png, res.cardName, res.confidence, be.writeFault);
        assert Process(image, requestId, be, store).store == after;
      }
    }
  }

  /** An event that carries no image never reaches storage, and only a
      preflight among such events is answered 200. */
  lemma NoImageNoStorage(ev: Event, requestId: string, be: Backend, store: Objects)
    requires !CarriesImage(ev)
    ensures Attempt(ev, requestId, be, store).store == store
    ensures Handle(ev, requestId, be, store).response.statusCode == 200 <==>
      ev.httpMethod == Some("OPTIONS")
  {
    if ev.httpMethod.Some? && ev.httpMethod.value != "OPTIONS" && ev.body.Some? {
      assert !(ev.body.value.JsonObject? && ev.body.value.imageBase64.Some?);
    }
  }

  /** Whatever happens, an invocation changes the store only at its own two
      keys; when it fails, at most the image was written. */
  lemma StoreChangesOnlyOwnArtifacts(ev: Event, requestId: string, be: Backend, store: Objects)
    ensures AgreeOutside(store, Handle(ev, requestId, be, store).store, ArtifactRefs(requestId))
    ensures var out := Handle(ev, requestId, be, store);
      out.response.statusCode != 200 ==>
        || out.store == store
        || (&& CarriesImage(ev)
            && ImageRef(requestId) in out.store
            && out.store == store[ImageRef(requestId) := out.store[ImageRef(requestId)]]
            && out.response.body == ErrorBody(be.writeFault(ResultRef(requestId)).value))
  {
    if CarriesImage(ev) {
      var image := ev.body.value.imageBase64.value;
      var step := Process(image, requestId, be, store);
      assert Attempt(ev, requestId, be, store) == step;
      ProcessStoreEffect(image, requestId, be, store);
      assert step.result.Ok? ==> step.result.value.statusCode == 200;
    } else {
      NoImageNoStorage(ev, requestId, be, store);
    }
  }

  /** Requests with different ids never overwrite each other's artifacts:
      whatever the first left under its keys is still there after the
      second. */
  lemma DistinctRequestsKeepArtifacts(ev1: Event, id1: string, be1: Backend,
                                      ev2: Event, id2: string, be2: Backend, store: Objects)
    requires id1 != id2
    ensures var after1 := Handle(ev1, id1, be1, store).store;
      var after2 := Handle(ev2, id2, be2, after1).store;
      forall ref :: ref in ArtifactRefs(id1) && ref in after1 ==> ref in after2 && after2[ref] == after1[ref]
  {
    var after1 := Handle(ev1, id1, be1, store).store;
    ArtifactRefsDisjoint(id1, id2);
    StoreChangesOnlyOwnArtifacts(ev2, id2, be2, after1);
  }

  /** An event without `httpMethod`, or a non-preflight event without
      `body`, gives a 500 naming the missing key, and nothing is stored. */
  lemma EventFailuresAreServerErrors(ev: Event, requestId: string, be: Backend, store: Objects)
    ensures ev.httpMethod.None? ==>
      Handle(ev, requestId, be, store) == Outcome(ErrorResponse("'httpMethod'"), store)
    ensures ev.httpMethod.Some? && ev.httpMethod.value != "OPTIONS" && ev.body.None? ==>
      Handle(ev, requestId, be, store) == Outcome(ErrorResponse("'body'"), store)
  {
    assert Message(MissingKey("httpMethod")) == "'httpMethod'";
    assert Message(MissingKey("body")) == "'body'";
  }

  /** Each failing stage after the image gives a 500 with the text of what
      it raised, and nothing is stored. A malformed image is among them: it
      is a 500, not a 400. */
  lemma ImageStageFailuresAreServerErrors(ev: Event, requestId: string, be: Backend, store: Objects)
    requires CarriesImage(ev)
    ensures var grid := be.decode(ev.body.value.imageBase64.value);
      grid.Err? ==> Handle(ev, requestId, be, store) == Outcome(ErrorResponse(grid.error), store)
    ensures var grid := be.decode(ev.body.value.imageBase64.value);
      grid.Ok? ==>
      var reply := be.invoke(grid.value);
      && (reply.InvokeFailed? ==>
            Handle(ev, requestId, be, store) == Outcome(ErrorResponse(reply.reason), store))
      && (reply == Replied(None) ==>
            Handle(ev, requestId, be, store) == Outcome(ErrorResponse("'predictions'"), store))
      && (reply == Replied(Some([])) ==>
            Handle(ev, requestId, be, store) == Outcome(ErrorResponse("list index out of range"), store))
      && (reply.Replied? && reply.predictions.Some? && |reply.predictions.value| > 0 ==>
            var scores := reply.predictions.value[0];
            && (|scores| == 0 ==>
                  Handle(ev, requestId, be, store)
                  == Outcome(ErrorResponse("attempt to get argmax of an empty sequence"), store))
            && (|scores| > 0 && ArgMax(scores) >= |LabelMap| ==>
                  Handle(ev, requestId, be, store)
                  == Outcome(ErrorResponse("list index out of range"), store)))
  {
    var image := ev.body.value.imageBase64.value;
    assert Attempt(ev, requestId, be, store) == Process(image, requestId, be, store);
    var grid := be.decode(image);
    if grid.Ok? {
      var reply := be.invoke(grid.value);
      if reply == Replied(None) {
        assert Message(MissingKey("predictions")) == "'predictions'";
      } else if reply.Replied? && reply.predictions.Some? && |reply.predictions.value| > 0 {
        var scores := reply.predictions.value[0];
        if |scores| > 0 && ArgMax(scores) >= |LabelMap| {
          assert Resolve(scores) == Err(ClassOutOfRange(ArgMax(scores)));
        }
      }
    }
  }

  /** Once the label is known, a storage client that cannot be built, or an
      image that does not encode as PNG, gives a 500 with that error's text
      and nothing is stored. The client is built first, so when both fail
      the client's error is the one reported. */
  lemma SaveSetupFailuresAreServerErrors(ev: Event, requestId: string, be: Backend, store: Objects)
    requires CarriesImage(ev)
    requires be.decode(ev.body.value.imageBase64.value).Ok?
    requires PredictionsResolve(be.invoke(be.decode(ev.body.value.imageBase64.value).value))
    ensures be.clientFault.Some? ==>
      Handle(ev, requestId, be, store) == Outcome(ErrorResponse(be.clientFault.value), store)
    ensures be.clientFault.None? && be.encodePng(be.decode(ev.body.value.imageBase64.value).value).Err? ==>
      Handle(ev, requestId, be, store)
      == Outcome(ErrorResponse(be.encodePng(be.decode(ev.body.value.imageBase64.value).value).error), store)
  {
    var image := ev.body.value.imageBase64.value;
    assert Attempt(ev, requestId, be, store) == Process(image, requestId, be, store);
  }
}
