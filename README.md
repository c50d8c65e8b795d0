# o5-github-lambda push webhook, modelled in Dafny

This project models the push-webhook handler of `o5-github-lambda`, an AWS Lambda
that receives GitHub webhooks, checks their signature, accepts only push events,
validates the nested fields of the push, and republishes it as an o5 message to an
ordered list of publishers (an SNS topic, an EventBridge bus). The repository holds two
versions of the handler and both are modelled:

- `internal/github/webhook.go`, the current one (module `Webhook`): stamps the
  worker's source app and environment on the message, acknowledges a deletion push
  (all-zero `after`) with 200, reports a message id derived from `ref/after`, and answers
  with a trace of the publishers reached.
- `github/webhook.go`, the older one (module `LegacyWebhook`): rejects a deletion push
  with 400, derives the message id from the event's `PushID`, and answers `"ok"`.

The modules:

- `Wrappers`: Option (a Go pointer that may be nil) and Result (a Go `(value, error)` pair).
- `GoStrings`: `strings.Join` and `fmt.Sprintf("%d")`, which the handlers call, and their
  inverses (`strings.Split` on one character, reading a decimal back), which only the
  proofs use.
- `GitHubEvents`: go-github's `PushEvent`, reduced to the fields the handlers read; every
  field optional.
- `PushValidation`: `validatePushEvent` as the chain of nil checks it is, the same rule as an
  ordered table of field paths, and `emptyCommit`.
- `PushMessages`: the outbound `PushMessage` and how a validated event fills it.
- `Lambda`: the request, the header copy loop, the choice of signature header, and the
  library steps both handlers take before they look at the event.
- `Publishing`: the fail-fast fan-out over the publishers, as specification functions.
- `Webhook` and `LegacyWebhook`: each handler as a method, proved equal to a
  specification function `Handle` (the response and the publish calls made, in order),
  and the lemmas that state what each handler promises.

Library calls are parameters of the model: `Library` carries `mime.ParseMediaType`,
`base64.StdEncoding.DecodeString`, `github.ValidatePayloadFromBody` (the HMAC check),
`github.ParseWebHook` and `uuid.NewSHA1` as functions; `o5msg.WrapMessage`,
`PushMessage.O5Message` and each publisher's `Publish` are further function parameters.
The handler results are a response (status and body), a Go error, or (older handler only)
a runtime panic.

## What the handlers return on error

- Failures to parse the content type, decode base64, check the signature or parse the
  webhook are returned as Go errors (the second result of `HandleLambda`), not as 400
  responses; so is a publish error.
- No delivery-id header is checked, and there is no check-run handling: any event other than
  a push gets 400.
- In the current handler the derived `ref/after` id appears only in the response body;
  the id of the published envelope is whatever `o5msg.WrapMessage` assigns.
- The older handler dereferences `PushID`, which `validatePushEvent` never checks; the
  model makes that nil dereference an explicit `Panicked` outcome
  (`LegacyWebhook.MissingPushIdPanics`).

## Model

| member | source | states |
|---|---|---|
| `Lambda.CopyHeaders` | internal/github/webhook.go:43-46 | after the loop over the request headers (in any order), each request header is the single value under its name, so `Get` finds exactly the request's value or "" |
| `Lambda.Get` | internal/github/webhook.go:48 | `http.Header.Get`: the first value under the name, or "" when the name has no value |
| `Lambda.Add` | internal/github/webhook.go:45 | `http.Header.Add`: appends the value under the name and leaves every other name as it was |
| `Lambda.SelectSignature` | internal/github/webhook.go:48-51 | the signature is the SHA-256 header when non-empty, otherwise the SHA-1 header |
| `Lambda.Sha256HeaderWins` | internal/github/webhook.go:48-51 | with a non-empty SHA-256 header, the SHA-1 header has no influence on the outcome |
| `Lambda.Sha256HeaderChecked` | internal/github/webhook.go:48-51 | with a non-empty SHA-256 header, its value is the signature the payload is checked against, followed by the parse |
| `Lambda.Sha1HeaderChecked` | github/webhook.go:38-41 | without a SHA-256 header, the SHA-1 header value is the signature the payload is checked against, followed by the parse |
| `Lambda.ReceiveRejectsBadSignature` | internal/github/webhook.go:58-73 | for a body as given or base64-decoded, a payload the signature check rejects ends the request with exactly "validating payload: " and the library's error, before the parser runs |
| `Lambda.ReceiveEvent` | internal/github/webhook.go:43-78 | the step-by-step prefix (header loop, signature choice, media type, optional base64 decode, payload check, parse) returns what `Lambda.Receive` specifies, so the lemmas about `Receive` hold of it |
| `Lambda.Receive` | internal/github/webhook.go:43-78 | an event comes out only when the library accepted the payload under the chosen signature and parsed it as the type the `X-GitHub-Event` header names |
| `Lambda.MediaTypeFailureReturned` | internal/github/webhook.go:53-56 | a content type the media-type parser rejects gives the Go error "parse media type from '<header>': <err>" |
| `Lambda.Base64FailureReturned` | internal/github/webhook.go:58-64 | a base64-flagged body that does not decode gives the Go error "decoding body: <err>" |
| `Lambda.ParseFailureReturned` | internal/github/webhook.go:75-78 | a verified payload the webhook parser rejects gives the Go error "parsing webhook: <err>" |
| `PushValidation.FirstMissing` | internal/github/webhook.go:142-173 | the first field of an ordered table whose path is not reachable (every earlier one is present); None exactly when all are present |
| `PushValidation.ValidatePushEvent` | github/webhook.go:126-157 | `validatePushEvent`: nil means all seven fields are present; an error is the "nil '<path>' on push event" text of a field that is missing |
| `PushValidation.ValidateIsFirstMissing` | internal/github/webhook.go:142-173 | the nested nil checks are the table `ref, repo, repo.owner, repo.owner.name, repo.name, after, before` walked in order, the error naming the first missing path as "nil '<path>' on push event" |
| `PushValidation.ValidateAcceptsComplete` | internal/github/webhook.go:142-173 | validation returns nil exactly when all seven fields are present |
| `PushValidation.FirstAbsentIsNamed` | github/webhook.go:126-157 | a missing field whose predecessors in check order are present is the one named, whatever the later fields hold |
| `PushValidation.MessageNamesOneField` | internal/github/webhook.go:144-170 | distinct fields give distinct error texts, so the text identifies the missing path |
| `PushMessages.BuildMessageFaithful` | internal/github/webhook.go:106-112 | two validated events give the same outbound message exactly when they agree on `before`, `after`, `ref`, `repo.name` and `repo.owner.name` |
| `PushMessages.BuildMessage` | github/webhook.go:96-102 | each of the five message fields is the value of the event field it is copied from |
| `Publishing.FirstFailure` | internal/github/webhook.go:124-129 | the number of publishers that succeed before the first failure; every earlier one succeeded and the one at that index failed |
| `Publishing.FirstFailureAt` | internal/github/webhook.go:124-127 | the fan-out stops at the earliest failing publisher |
| `Publishing.AllSucceed` | internal/github/webhook.go:124-129 | when no publisher fails, every publisher is reached |
| `Webhook.TraceLines` | internal/github/webhook.go:122-129 | the trace is the message-id line followed by one "Published to <id>" line per publisher, in order |
| `Webhook.PushName` | internal/github/webhook.go:103 | the UUID name reads as the ref, a '/', then the after commit |
| `Webhook.PushId` | internal/github/webhook.go:103 | the reported id is the UUID, in the fixed push namespace (line 138), of a name that reads as ref '/' after |
| `Webhook.Forward` | internal/github/webhook.go:96-129 | for a validated push: a deletion is answered 200 with the empty-after text and no publish; any response is 200; calls go to the configured publishers in order, each with the event's message and the worker's source app and environment |
| `Webhook.PublishAll` | internal/github/webhook.go:122-134 | the publisher loop calls publishers in order, returns the first error at once with the calls made so far, and otherwise answers 200 with the joined trace |
| `Webhook.HandleLambda` | internal/github/webhook.go:42-136 | the handler's response and its publish calls are those of the specification `Webhook.Handle` |
| `Webhook.ReceiveFailureReturned` | internal/github/webhook.go:53-78 | a request that yields no event returns the library's wrapped error as a Go error, and nothing is published |
| `Webhook.NonPushRejected` | internal/github/webhook.go:80-87 | a non-push event gets 400 "webhooks should only be configured for push events, got <type>" and no publish |
| `Webhook.IncompletePushRejected` | internal/github/webhook.go:89-94 | an incomplete push gets 400 whose body is exactly the error naming the first missing path, and no publish |
| `Webhook.DeletionAcknowledged` | internal/github/webhook.go:96-101 | a complete push with the 40-zero `after` gets 200 "push event has empty after commit - no event created" and no publish |
| `Webhook.PublishedMessagesCopyEvent` | internal/github/webhook.go:106-125 | a publish call happens only for a complete push of a live ref, only to a configured publisher, with the event's fields copied and the worker's `SourceApp`/`SourceEnv` stamped |
| `Webhook.AllPublishedInOrder` | internal/github/webhook.go:122-134 | when all publishers succeed each is called once in configured order and the 200 body splits into "OK", "O5 Message ID: <id>", then "Published to <id>" per publisher in order |
| `Webhook.FirstPublishErrorStops` | internal/github/webhook.go:124-127 | when publisher i is the first to fail, exactly publishers 0..i are called and its error is returned |
| `Webhook.PushNameIdentifiesPush` | internal/github/webhook.go:103 | the UUID name `ref/after` is equal for two pushes exactly when ref and after are (for slash-free `after`), so a redelivery gets the same id and distinct pushes distinct names |
| `LegacyWebhook.HandleLambda` | github/webhook.go:32-120 | the handler's response and its publish calls are those of the specification `LegacyWebhook.Handle` |
| `LegacyWebhook.ReceiveFailureReturned` | github/webhook.go:43-68 | a request that yields no event returns the library's wrapped error as a Go error, and nothing is published |
| `LegacyWebhook.PushId` | github/webhook.go:93 | the message id is the UUID, in the fixed push namespace (line 122), of a name that reads back as the `PushID` |
| `LegacyWebhook.Forward` | github/webhook.go:85-113 | for a validated push: a deletion is answered 400 with the empty-after text and no publish; a missing `PushID` panics with no publish; a 200 answer is "ok"; calls go to the configured publishers in order, each with the message under the `PushID`-derived id |
| `LegacyWebhook.PublishAll` | github/webhook.go:109-118 | publishers are called in order, the first error is returned at once, otherwise 200 "ok" |
| `LegacyWebhook.NonPushRejected` | github/webhook.go:70-76 | a non-push event gets 400 and no publish |
| `LegacyWebhook.IncompletePushRejected` | github/webhook.go:78-83 | an incomplete push gets 400 naming the first missing path, and no publish |
| `LegacyWebhook.DeletionRejected` | github/webhook.go:85-91 | a complete push with the 40-zero `after` gets 400 "push event has empty after commit" and no publish |
| `LegacyWebhook.MissingPushIdPanics` | github/webhook.go:93 | a complete push of a live ref without `PushID` passes validation and then panics on the dereference, publishing nothing |
| `LegacyWebhook.PanickingEventExists` | github/webhook.go:126-157 | a concrete event with all seven validated fields, a real `after` and no `push_id` passes validation |
| `LegacyWebhook.PublishedMessagesCopyEvent` | github/webhook.go:93-113 | a publish call happens only for a complete push of a live ref with a `PushID`, carrying the event's fields under the id derived from that `PushID` |
| `LegacyWebhook.AllPublishedInOrder` | github/webhook.go:109-118 | when all publishers succeed each is called once in order and the answer is 200 "ok" |
| `LegacyWebhook.FirstPublishErrorStops` | github/webhook.go:109-113 | when publisher i is the first to fail, exactly publishers 0..i are called and its error is returned |
| `LegacyWebhook.PushIdNameIdentifiesPush` | github/webhook.go:93 | the UUID name (decimal `PushID`) is equal for two pushes exactly when their `PushID`s are |
| `GoStrings.SplitJoin` | internal/github/webhook.go:133 | splitting the joined trace on the separator gives the lines back when none contains it |
| `GoStrings.FormatIntRoundTrip` | github/webhook.go:93 | the decimal text of `PushID` reads back to the same integer |

## Left out

- HMAC computation and constant-time comparison inside `github.ValidatePayloadFromBody`: a library call, modelled as the function `Library.validatePayload` giving a verdict.
- JSON decoding in `github.ParseWebHook`, `mime.ParseMediaType` and base64 decoding: library parsers, modelled as functions giving a value or an error.
- `uuid.NewSHA1` (a name-based version-5 UUID, section 4.3 of RFC 4122): a function parameter; only what the handlers feed it (namespace and name) is modelled.
- `http.Header` name canonicalisation: header names are compared exactly, and the lookup names are written in canonical form (`X-Github-Event` is what `Get("X-GitHub-Event")` looks up); request header names that differ only in case are not merged.
- `o5msg.WrapMessage`, `PushMessage.O5Message` and the protobuf envelope: only the message id and the push message inside are modelled, plus the source stamp of the current handler.
- Logging, the request context and its cancellation, and the real SNS/EventBridge I/O: a publisher's answer is a function of the publisher and the message, so a publisher configured twice answers the same both times.
- `NewWebhookWorker`: a plain constructor that never fails; the `WebhookWorker` datatype's constructor stands for it.
- cmd/lambda/lambda.go is not part of this model: it is start-up plumbing (environment, secret fetch, AWS clients, `lambda.Start`).
- The 64-bit width of `PushID`: the model formats any integer the way `%d` formats an int64.
- Check-run events: the handlers have no check-run handling.
