# Playing-card classifier: request handler model

This project models the function that serves the playing-card classifier over HTTP: `lambda_handler` in `lambda/app.py`, and its class table `label_map`. The model is written in Dafny, and the proofs are about that model.

For one inbound event the handler does the following:

- It answers a CORS preflight (`OPTIONS`) at once.
- It rejects a body without `image_base64` with a 400.
- Otherwise it decodes and normalises the image to 224 × 224 RGB.
- It sends the pixels to the inference endpoint and takes the first prediction vector.
- It picks the class with the highest score (first one on ties) and looks up its label in the fixed 53-entry table.
- It writes two artifacts keyed by the request id: `<id>.png` and `<id>.json`, in a bucket whose name is written into the code.
- It answers 200 with `{label, confidence}`.
- Any exception raised on the way becomes a 500 whose body carries the exception's text.

Files and modules:

- `labels.dfy` (`Labels`): the class table. It proves the table has 53 distinct labels in ascending order under Python's string order.
- `resolver.dfy` (`LabelResolver`): arg-max and label lookup, with their error cases.
- `http.dfy` (`Http`): response values and the fixed CORS header set.
- `imaging.dfy` (`Imaging`): the 224 × 224 × 3 pixel grid type.
- `storage.dfy` (`Storage`):
  - the object store, a class holding a map from (bucket, key) to object, with `PutObject`;
  - the `io.BytesIO` buffer the PNG goes through;
  - the two-write persistence `SaveArtifacts`, and its specification `Persist`.
- `handler.dfy` (`Handler`):
  - `Handle` says what one invocation returns and what the store then holds;
  - `Attempt` and `Process` say what the `try` block returns or raises, and `Message` gives the text of each exception;
  - `TryBody` performs the `try` block's steps one by one against an `ObjectStore` and is proved equal to `Attempt`;
  - `LambdaHandler` wraps `TryBody` in the `except` clause and is proved equal to `Handle`;
  - lemmas state the handler's guarantees.

The services the handler calls but cannot see into are fields of a `Backend` value, passed in as functions:

- the base64/PIL decode-and-resize;
- PNG encoding;
- the inference endpoint, which returns the decoded reply or fails;
- the construction of the storage client, which succeeds or fails;
- the outcome of each storage write.

`context.aws_request_id` is a string parameter. Scores are `real`.

Facts about the code that the model keeps:

- The code has no origin allow-list. `Access-Control-Allow-Origin` is always `*`.
- The 400 response has no `headers` entry, so it does not carry the CORS headers.
- The artifact keys are `<request id>.png` and `<request id>.json` in the bucket `your-s3-bucket-name`. There is no configured prefix and no `aws_request_id_<id>/` folder. The bucket name comes from no configuration, so there is no configuration error.
- The length of the prediction vector is never compared with the table's. A vector shorter than 53 is still labelled and answered with a 200 (`ShortVectorResolves`). An error arises only when the vector is empty, or when its first maximum lies at index 53 or beyond.
- The handler does not check that the confidence lies in [0, 1]. It reports whatever score the endpoint returned.
- An undecodable image is answered 500, not 400.

## Model

| member | source | states |
|---|---|---|
| `Labels.LabelMap` | lambda/app.py:9-63 | the class table: the 53 card names in the source's order, index i naming class i |
| `Http.CorsHeaders` | lambda/app.py:72-77 | the four headers every answer except the 400 carries (also at lines 154-159 and 169-174): JSON content type, origin `*`, the allowed request headers and the methods `OPTIONS,POST,GET` |
| `Http.PreflightResponse` | lambda/app.py:70-79 | the preflight answer: 200, the CORS headers and {"message": "CORS preflight OK"} |
| `Http.MissingImageResponse` | lambda/app.py:85-88 | the missing-image answer: 400 with {"error": "Missing 'image_base64' in request."} and no `headers` entry |
| `Http.PredictionResponse` | lambda/app.py:152-164 | the success answer: 200, the CORS headers and {label, confidence} |
| `Http.ErrorResponse` | lambda/app.py:167-176 | the exception answer: 500, the CORS headers and {"error": message} |
| `Storage.BucketName` | lambda/app.py:126 | the bucket is the literal `your-s3-bucket-name`, not configured |
| `Storage.ImageRef` | lambda/app.py:135 | the image is stored under `<request id>.png` in that bucket |
| `Storage.ResultRef` | lambda/app.py:147 | the result is stored under `<request id>.json` in that bucket |
| `Storage.ArtifactRefs` | lambda/app.py:133-150 | the two places one request writes to |
| `Labels.LabelMapFacts` | lambda/app.py:9-63 | the class table has exactly 53 entries, strictly ascending in Python's string order and hence pairwise distinct; index 2 is "ace of hearts" and index 20 is "joker" |
| `LabelResolver.ArgMax` | lambda/app.py:119 | on a non-empty vector, the chosen index holds a score no other score exceeds, and every earlier score is strictly lower (the first maximum) |
| `LabelResolver.FirstMaxUnique` | lambda/app.py:119 | at most one index is the first maximum, so `argmax` is determined by that property |
| `LabelResolver.Resolve` | lambda/app.py:119-122 | an empty vector is an error and only an empty vector gives that error; on success the class index is the first maximum and lies inside the table, the label is the table's entry at that index and the confidence is the score there; an index past the table is reported as out of range |
| `LabelResolver.ResolveSucceedsIff` | lambda/app.py:119-122 | the lookup succeeds exactly when the first maximum is one of the table's 53 places, and the confidence is then at least every score |
| `LabelResolver.FullVectorResolves` | lambda/app.py:119-122 | a vector with one score per label always yields a label |
| `LabelResolver.ShortVectorResolves` | lambda/app.py:119-122 | a non-empty vector no longer than the table is labelled too (the length is not checked): the result is the first maximum, the table's label there and its score |
| `LabelResolver.AceOfHeartsExample` | lambda/app.py:119-122 | a 53-score vector with 0.91 at index 2 and 0.01 elsewhere resolves to ("ace of hearts", 0.91) |
| `Storage.ArtifactRefsDisjoint` | lambda/app.py:125-147 | a request's image key and result key differ, and two different request ids share no key |
| `Storage.Persist` | lambda/app.py:129-150 | the two writes change the store only at the request's two keys; with no write error the store gains exactly those keys, holding the PNG and the {label, confidence} document with their content types; a failed image write changes nothing; a failed result write leaves the image stored |
| `Storage.Overwrite` | lambda/app.py:130-131 | writing into the buffer places the bytes at the position, keeps the bytes around them, grows the buffer as needed and fills a gap with zero bytes |
| `Storage.BytesBuffer.Write` | lambda/app.py:131 | the buffer's contents become the overwrite of the old contents at the old position, and the position moves past the written bytes |
| `Storage.BytesBuffer.Seek` | lambda/app.py:132 | the contents are unchanged and the position is the one requested |
| `Storage.RewoundBufferHoldsWrite` | lambda/app.py:130-138 | after writing into a fresh buffer and rewinding to 0, what a reader gets is exactly the written PNG bytes |
| `Storage.ObjectStore.PutObject` | lambda/app.py:133-138 | a successful write stores the object under (bucket, key), replacing what was there, and nothing else changes; a failed write changes nothing and reports the error |
| `Storage.ObjectStore.SaveArtifacts` | lambda/app.py:124-150 | buffer, rewind and the two sequential writes leave the store and the error exactly as `Persist` describes |
| `Handler.Message` | lambda/app.py:166-175 | the text `str(e)` of each exception the `try` block can raise: a `KeyError` quotes its key, an `AttributeError` on a non-dict body names the type, an `IndexError` and numpy's empty-`argmax` `ValueError` have their fixed texts, and the codec, endpoint, client and storage errors carry their own messages |
| `Handler.Attempt` | lambda/app.py:68-88 | the `try` block up to the image: a missing `httpMethod` raises `KeyError('httpMethod')`, `OPTIONS` returns the preflight, a missing `body` raises `KeyError('body')`, a body that does not parse, or is `null` or not a string, raises the error `json.loads` gives for it, a non-object body raises `AttributeError`, a missing or null image returns the 400, and an image goes on to `Process` |
| `Handler.Process` | lambda/app.py:91-164 | the `try` block from the image on: decode, invoke, `predictions[0]`, `argmax`, table lookup, storage client, PNG encoding and the two writes, in the source's order, each failure raising its exception with the store as it is at that point; all succeeding returns the 200 with label and confidence |
| `Handler.Handle` | lambda/app.py:67-176 | one invocation: the `try` block's response, or a 500 with the CORS headers carrying `str(e)` of what it raised, together with the store afterwards |
| `Handler.TryBody` | lambda/app.py:68-164 | the statements of the `try` block return the response or the exception, and leave the store, as `Attempt` describes |
| `Handler.LambdaHandler` | lambda/app.py:67-176 | the handler's response and the store afterwards are those of `Handle`: the `try` block's result, with any exception turned into a 500 carrying its text |
| `Handler.PreflightShortCircuits` | lambda/app.py:69-79 | an `OPTIONS` event is answered 200 with {"message": "CORS preflight OK"} and the four CORS headers, the store is untouched, and the answer is the same for every backend (nothing is decoded, inferred or stored) |
| `Handler.MissingImageIsBadRequest` | lambda/app.py:81-88 | a non-preflight body that is an object without `image_base64`, or with a null one, is answered 400 with the fixed message and no headers entry; the store is untouched and no backend is consulted |
| `Handler.BadRequestOnlyForMissingImage` | lambda/app.py:82-88 | status 400 is given if and only if the event is not a preflight and its body is an object without an image |
| `Handler.ResponseShape` | lambda/app.py:67-176 | every status is 200, 400 or 500; the 400 has no headers and every other answer has the same four CORS headers; status 500 is given exactly when the `try` block raised, and its body is that exception's text |
| `Handler.ProcessSucceedsIff` | lambda/app.py:92-164 | the stages after the image end in a response exactly when decode, inference, lookup, storage-client construction, PNG encoding and both writes all succeed, and that response is a 200 |
| `Handler.NoImageNoStorage` | lambda/app.py:69-88 | an event that carries no image leaves the store untouched, and among such events only the preflight is answered 200 |
| `Handler.SuccessIffPipelineSucceeds` | lambda/app.py:90-164 | for a non-preflight event, status 200 is given if and only if it carries an image and every stage succeeds: decode, inference with a non-empty `predictions` list, label lookup, storage-client construction, PNG encoding and both writes; no failed stage leads to a 200 |
| `Handler.SuccessfulRequest` | lambda/app.py:119-164 | on success the response reports the first maximum of the first prediction vector and the table's label for it; the store gains exactly `<id>.png` (the PNG bytes) and `<id>.json`, whose label and confidence are those of the response; nothing else changes |
| `Handler.StoreChangesOnlyOwnArtifacts` | lambda/app.py:125-150 | whatever the outcome, an invocation changes the store only at its own two keys; a non-200 answer leaves the store as it was, or has written only the image while the result write failed with the error it reports |
| `Handler.ProcessStoreEffect` | lambda/app.py:125-150 | the stages after the image change the store only at the request's two keys; when they raise, either nothing was written, or only the image was written and the exception is the failed result write |
| `Handler.DistinctRequestsKeepArtifacts` | lambda/app.py:125-150 | after a second invocation with a different request id, every artifact the first invocation left is still there unchanged |
| `Handler.EventFailuresAreServerErrors` | lambda/app.py:69-82 | an event without `httpMethod` is answered 500 with "'httpMethod'", and a non-preflight event without `body` with "'body'", both with the CORS headers and with the store untouched |
| `Handler.ImageStageFailuresAreServerErrors` | lambda/app.py:92-122 | for an event with an image, each failing stage gives a 500 with that exception's text and leaves the store untouched: an undecodable image (the decoder's message, so never a 400), a failed inference call (its message), a reply without `predictions` ("'predictions'"), an empty `predictions` list or a first maximum past the table ("list index out of range"), and an empty vector ("attempt to get argmax of an empty sequence") |
| `Handler.SaveSetupFailuresAreServerErrors` | lambda/app.py:127-131 | once the label is known, a storage client that cannot be built gives a 500 with its error, and otherwise a PNG encoding failure gives a 500 with the encoder's error; either way nothing is stored, and when both would fail the client's error is reported because the client is built first |

## Left out

- Base64 decoding, PIL `Image.open`, `convert("RGB")` and `resize((224, 224))` are library codecs. They are the `decode` parameter, which returns a 224 × 224 × 3 grid or fails with a message.
- PNG encoding is also a library codec. It is the `encodePng` parameter.
- The inference client (`boto3.client("sagemaker-runtime")`, `invoke_endpoint`, JSON serialisation of the tensor, reading and parsing the reply) is network I/O. It is the `invoke` parameter, which fails with a message or returns the reply with or without `predictions`.
- The storage client's transport is network I/O. Only the map of stored objects is kept. Each write's failure is the `writeFault` parameter.
- JSON serialisation of response bodies and of the stored result is not modelled. Bodies and documents are structured values with the same fields.
- Floating point is not modelled: scores are reals and `float(...)` is the identity. The NaN handling of numpy's `argmax` is not represented.
- Event and reply shapes that the model's types cannot express are not modelled:
  - an `httpMethod` that is present but not a string behaves like any non-`OPTIONS` method;
  - a non-string `image_base64` value counts as a decode failure;
  - a `predictions` field that is not a list of number lists is not modelled.
- `Handler.ImageStageFailuresAreServerErrors`: for the messages of the JSON parser, the image codec, the PNG encoder, the endpoint and the storage client, it states only that the 500 carries the message each one raises. The message texts themselves are not modelled.
- The module global `model = None` is never read and is not modelled.
- `docs/architechure.py` (diagram generation) and `model/test.py` (a manual call to the endpoint) contain no handler logic and are not part of this model.
