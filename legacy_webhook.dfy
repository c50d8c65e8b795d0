/** The older push webhook handler (`WebhookWorker.HandleLambda` in the
    top-level github package): a deletion push is rejected with 400, the
    message id comes from the event's `PushID`, and a successful request
    answers "ok". */
module LegacyWebhook {
  import opened Wrappers
  import opened GitHubEvents
  import opened PushValidation
  import opened PushMessages
  import opened Lambda
  import opened Publishing
  import opened GoStrings

  /** `WebhookWorker`: the publishers in configured order and the webhook secret. */
  datatype WebhookWorker = WebhookWorker(publishers: seq<Publisher>, secretToken: Bytes)

  /** The message `PushMessage.O5Message(pushID)` builds: the push message
      under the given message id. */
  datatype WireMessage = WireMessage(messageId: string, message: PushMessage)

  /** `PushMessage.O5Message`: None when the envelope is built, or the error. */
  type O5Message = (PushMessage, string) -> Option<string>

  /** `pushNamespace`. */
  const PushNamespace: string := "B15B01C2-0228-49E7-8432-EA17E5A1B69C"

  const NotPushPrefix: string := "webhooks should only be configured for push events, got "
  const EmptyAfterBody: string := "push event has empty after commit"
  /** The panic message of the Go runtime when `*event.PushID` meets a nil pointer. */
  const NilDereference: string := "runtime error: invalid memory address or nil pointer dereference"

  /** The message id: a name-based UUID of the decimal `PushID`. */
  function PushId(lib: Library, pushID: int): (id: string)
    ensures exists name :: id == lib.newSHA1(PushNamespace, name) && ParseInt(name) == pushID
  {
    FormatIntRoundTrip(pushID);
    lib.newSHA1(PushNamespace, FormatInt(pushID))
  }

  /** The outcome of a request, and the publish calls made on the way. */
  function Handle(ww: WebhookWorker, request: Request, lib: Library, o5: O5Message,
                  publish: Outcome<WireMessage>): (HandlerResult, seq<Delivery<WireMessage>>)
  {
    match Receive(request, ww.secretToken, lib)
    case Failure(err) => (Failed(err), [])
    case Success(Other(goType)) => (Response(StatusBadRequest, NotPushPrefix + goType), [])
    case Success(Push(e)) =>
      match ValidatePushEvent(e)
      case Some(err) => (Response(StatusBadRequest, err), [])
      case None => Forward(ww, e, lib, o5, publish)
  }

  /** What happens to a push event that passed validation. `PushID` is
      dereferenced without a check, so an event without one panics. */
  function Forward(ww: WebhookWorker, e: PushEvent, lib: Library, o5: O5Message,
                   publish: Outcome<WireMessage>): (r: (HandlerResult, seq<Delivery<WireMessage>>))
    requires ValidatePushEvent(e).None?
    ensures e.after.value == EmptyCommit ==> r == (Response(400, "push event has empty after commit"), [])
    ensures e.after.value != EmptyCommit && e.pushID.None? ==> r.0.Panicked? && r.1 == []
    ensures r.0.Response? && r.0.statusCode == 200 ==> r.0.body == "ok"
    ensures |r.1| <= |ww.publishers|
    ensures forall i :: 0 <= i < |r.1| ==>
      && e.pushID.Some?
      && r.1[i].publisher == ww.publishers[i]
      && r.1[i].message == WireMessage(PushId(lib, e.pushID.value), BuildMessage(e))
  {
    if e.after.value == EmptyCommit then (Response(StatusBadRequest, EmptyAfterBody), [])
    else if e.pushID.None? then (Panicked(NilDereference), [])
    else
      var pushId := PushId(lib, e.pushID.value);
      var msg := BuildMessage(e);
      match o5(msg, pushId)
      case Some(err) => (Failed(err), [])
      case None => Fanout(ww.publishers, WireMessage(pushId, msg), publish)
  }

  /** Publishing `wire` to `pubs` in order until one fails. */
  function Fanout(pubs: seq<Publisher>, wire: WireMessage,
                  publish: Outcome<WireMessage>): (HandlerResult, seq<Delivery<WireMessage>>)
  {
    var k := FirstFailure(pubs, wire, publish);
    if k < |pubs| then (Failed(publish(pubs[k], wire).value), Deliveries(pubs[..k + 1], wire))
    else (Response(StatusOK, "ok"), Deliveries(pubs, wire))
  }

  /** `HandleLambda`: `calls` records the publish calls in the order they were made. */
  method HandleLambda(ww: WebhookWorker, request: Request, lib: Library, o5: O5Message,
                      publish: Outcome<WireMessage>)
    returns (result: HandlerResult, calls: seq<Delivery<WireMessage>>)
    ensures (result, calls) == Handle(ww, request, lib, o5, publish)
  {
    calls := [];
    var received := ReceiveEvent(request, ww.secretToken, lib);
    if received.Failure? {
      return Failed(received.error), calls;
    }
    if received.value.Other? {
      return Response(StatusBadRequest, NotPushPrefix + received.value.goType), calls;
    }
    var event := received.value.event;
    var invalid := ValidatePushEvent(event);
    if invalid.Some? {
      return Response(StatusBadRequest, invalid.value), calls;
    }
    if event.after.value == EmptyCommit {
      return Response(StatusBadRequest, EmptyAfterBody), calls;
    }
    if event.pushID.None? {
      return Panicked(NilDereference), calls;
    }
    var pushId := lib.newSHA1(PushNamespace, FormatInt(event.pushID.value));
    var msg := PushMessage(
      before := event.before.value,
      after := event.after.value,
      ref := event.ref.value,
      repo := event.repo.value.name.value,
      owner := event.repo.value.owner.value.name.value);
    var err := o5(msg, pushId);
    if err.Some? {
      return Failed(err.value), calls;
    }
    result, calls := PublishAll(ww.publishers, WireMessage(pushId, msg), publish);
  }

  /** The publisher loop of `HandleLambda`: the first error is returned at
      once; when all succeed the answer is 200 "ok". */
  method PublishAll(pubs: seq<Publisher>, wire: WireMessage, publish: Outcome<WireMessage>)
    returns (result: HandlerResult, calls: seq<Delivery<WireMessage>>)
    ensures (result, calls) == Fanout(pubs, wire, publish)
  {
    calls := [];
    for i := 0 to |pubs|
      invariant calls == Deliveries(pubs[..i], wire)
      invariant forall j :: 0 <= j < i ==> publish(pubs[j], wire).None?
    {
      calls := calls + [Delivery(pubs[i], wire)];
      var err := publish(pubs[i], wire);
      if err.Some? {
        FirstFailureAt(pubs, wire, publish, i);
        assert calls == Deliveries(pubs[..i + 1], wire);
        return Failed(err.value), calls;
      }
    }
    assert pubs[..|pubs|] == pubs;
    AllSucceed(pubs, wire, publish);
    result := Response(StatusOK, "ok");
  }

  /** When the request never yields an event (bad content type, bad base64,
      rejected signature, unparseable payload), the library's error is
      returned as a Go error and nothing is published. */
  lemma ReceiveFailureReturned(ww: WebhookWorker, request: Request, lib: Library, o5: O5Message,
                               publish: Outcome<WireMessage>)
    requires Receive(request, ww.secretToken, lib).Failure?
    ensures Handle(ww, request, lib, o5, publish) == (Failed(Receive(request, ww.secretToken, lib).error), [])
  {
  }

  /** An event of any other type is turned away with 400, nothing published. */
  lemma NonPushRejected(ww: WebhookWorker, request: Request, lib: Library, o5: O5Message,
                        publish: Outcome<WireMessage>, goType: string)
    requires Receive(request, ww.secretToken, lib) == Success(Other(goType))
    ensures Handle(ww, request, lib, o5, publish)
      == (Response(400, "webhooks should only be configured for push events, got " + goType), [])
  {
  }

  /** A push event missing a field is turned away with 400 naming the first
      missing path in check order; nothing is published. */
  lemma IncompletePushRejected(ww: WebhookWorker, request: Request, lib: Library, o5: O5Message,
                               publish: Outcome<WireMessage>, e: PushEvent)
    requires Receive(request, ww.secretToken, lib) == Success(Push(e))
    requires !Complete(e)
    ensures FirstMissing(CheckOrder, e).Some?
    ensures Handle(ww, request, lib, o5, publish)
      == (Response(400, MissingMessage(FirstMissing(CheckOrder, e).value)), [])
  {
    ValidateAcceptsComplete(e);
    ValidateIsFirstMissing(e);
  }

  /** A push whose `after` is the all-zero commit is rejected with 400 and
      published nowhere, whether or not it has a `PushID`. */
  lemma DeletionRejected(ww: WebhookWorker, request: Request, lib: Library, o5: O5Message,
                         publish: Outcome<WireMessage>, e: PushEvent)
    requires Receive(request, ww.secretToken, lib) == Success(Push(e))
    requires Complete(e) && e.after == Some(EmptyCommit)
    ensures Handle(ww, request, lib, o5, publish) == (Response(400, "push event has empty after commit"), [])
  {
    ValidateAcceptsComplete(e);
  }

  /** Validation does not look at `PushID`, which the handler then
      dereferences: a complete push for a live ref that lacks one passes every
      check and panics, before anything is published. */
  lemma MissingPushIdPanics(ww: WebhookWorker, request: Request, lib: Library, o5: O5Message,
                            publish: Outcome<WireMessage>, e: PushEvent)
    requires Receive(request, ww.secretToken, lib) == Success(Push(e))
    requires Complete(e) && e.after != Some(EmptyCommit) && e.pushID.None?
    ensures ValidatePushEvent(e).None?
    ensures Handle(ww, request, lib, o5, publish).0.Panicked?
    ensures Handle(ww, request, lib, o5, publish).1 == []
  {
    ValidateAcceptsComplete(e);
  }

  /** A concrete such event: every validated field present, a real commit,
      no `push_id`. */
  lemma PanickingEventExists()
    ensures var e := PushEvent(
        ref := Some("refs/heads/main"),
        before := Some("1111111111111111111111111111111111111111"),
        after := Some("2222222222222222222222222222222222222222"),
        repo := Some(PushEventRepository(name := Some("r"), owner := Some(User(name := Some("o"))))),
        pushID := None);
      ValidatePushEvent(e).None? && e.after.value != EmptyCommit && e.pushID.None?
  {
  }

  /** Nothing is published unless the request carried a complete push event
      for a live ref with a `PushID`; every message published copies that
      event's fields under the id derived from the `PushID`. */
  lemma PublishedMessagesCopyEvent(ww: WebhookWorker, request: Request, lib: Library, o5: O5Message,
                                   publish: Outcome<WireMessage>)
    requires |Handle(ww, request, lib, o5, publish).1| > 0
    ensures Receive(request, ww.secretToken, lib).Success?
    ensures Receive(request, ww.secretToken, lib).value.Push?
    ensures var e := Receive(request, ww.secretToken, lib).value.event;
      && Complete(e) && e.after != Some(EmptyCommit) && e.pushID.Some?
      && forall d :: d in Handle(ww, request, lib, o5, publish).1 ==>
        && d.publisher in ww.publishers
        && d.message.messageId == PushId(lib, e.pushID.value)
        && d.message.message == PushMessage(
             before := e.before.value, after := e.after.value, ref := e.ref.value,
             repo := e.repo.value.name.value, owner := e.repo.value.owner.value.name.value)
  {
    var e := Receive(request, ww.secretToken, lib).value.event;
    ValidateAcceptsComplete(e);
  }

  /** When every publisher accepts, each is called once, in order, and the
      answer is 200 "ok". */
  lemma AllPublishedInOrder(ww: WebhookWorker, request: Request, lib: Library, o5: O5Message,
                            publish: Outcome<WireMessage>, e: PushEvent)
    requires Receive(request, ww.secretToken, lib) == Success(Push(e))
    requires ValidatePushEvent(e).None? && e.after.value != EmptyCommit && e.pushID.Some?
    requires o5(BuildMessage(e), PushId(lib, e.pushID.value)).None?
    requires forall i :: 0 <= i < |ww.publishers| ==>
      publish(ww.publishers[i], WireMessage(PushId(lib, e.pushID.value), BuildMessage(e))).None?
    ensures Handle(ww, request, lib, o5, publish)
      == (Response(200, "ok"), Deliveries(ww.publishers, WireMessage(PushId(lib, e.pushID.value), BuildMessage(e))))
  {
    AllSucceed(ww.publishers, WireMessage(PushId(lib, e.pushID.value), BuildMessage(e)), publish);
  }

  /** Fail-fast: when publisher `i` is the first to fail, publishers 0..i are
      called, none after it, and the handler returns its error. */
  lemma FirstPublishErrorStops(ww: WebhookWorker, request: Request, lib: Library, o5: O5Message,
                               publish: Outcome<WireMessage>, e: PushEvent, i: nat)
    requires Receive(request, ww.secretToken, lib) == Success(Push(e))
    requires ValidatePushEvent(e).None? && e.after.value != EmptyCommit && e.pushID.Some?
    requires o5(BuildMessage(e), PushId(lib, e.pushID.value)).None?
    requires i < |ww.publishers|
    requires publish(ww.publishers[i], WireMessage(PushId(lib, e.pushID.value), BuildMessage(e))).Some?
    requires forall j :: 0 <= j < i ==>
      publish(ww.publishers[j], WireMessage(PushId(lib, e.pushID.value), BuildMessage(e))).None?
    ensures var wire := WireMessage(PushId(lib, e.pushID.value), BuildMessage(e));
      Handle(ww, request, lib, o5, publish)
        == (Failed(publish(ww.publishers[i], wire).value), Deliveries(ww.publishers[..i + 1], wire))
  {
    FirstFailureAt(ww.publishers, WireMessage(PushId(lib, e.pushID.value), BuildMessage(e)), publish, i);
  }

  /** The UUID name depends on the `PushID` alone, and distinct `PushID`s
      give distinct names. */
  lemma PushIdNameIdentifiesPush(id1: int, id2: int)
    ensures FormatInt(id1) == FormatInt(id2) <==> id1 == id2
  {
    if FormatInt(id1) == FormatInt(id2) {
      FormatIntInjective(id1, id2);
    }
  }
}
