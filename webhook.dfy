/** The current push webhook handler (`WebhookWorker.HandleLambda` in
    internal/github): a deletion push is acknowledged with 200, the message id
    comes from `ref/after`, every message is stamped with the worker's source
    app and environment, and the response lists the publishers reached. */
module Webhook {
  import opened Wrappers
  import opened GitHubEvents
  import opened PushValidation
  import opened PushMessages
  import opened Lambda
  import opened Publishing
  import opened GoStrings

  datatype SourceConfig = SourceConfig(sourceApp: string, sourceEnv: string)

  /** `WebhookWorker`: its publishers in configured order, the shared webhook
      secret and the source stamped on outgoing messages. */
  datatype WebhookWorker = WebhookWorker(publishers: seq<Publisher>, secretToken: Bytes, source: SourceConfig)

  /** The envelope `o5msg.WrapMessage` builds around a push message, with the
      source fields the handler sets afterwards. */
  datatype WireMessage = WireMessage(messageId: string, message: PushMessage, sourceApp: string, sourceEnv: string)

  /** `o5msg.WrapMessage`: the message id it assigns to the envelope, or an error. */
  type WrapMessage = PushMessage -> Result<string, string>

  /** `pushNamespace`. */
  const PushNamespace: string := "B15B01C2-0228-49E7-8432-EA17E5A1B69C"

  const NotPushPrefix: string := "webhooks should only be configured for push events, got "
  const EmptyAfterBody: string := "push event has empty after commit - no event created"

  /** `name` reads as `ref`, a '/', then `after`. */
  ghost predicate SplitsAs(name: string, ref: string, after: string)
  {
    |name| == |ref| + 1 + |after| && name[..|ref|] == ref && name[|ref|] == '/' && name[|ref| + 1..] == after
  }

  /** The UUID name of a push: `fmt.Sprintf("%s/%s", ref, after)`. */
  function PushName(ref: string, after: string): (name: string)
    ensures SplitsAs(name, ref, after)
  {
    ref + "/" + after
  }

  /** `id` is the push-namespace UUID of a name that reads as `ref`, a '/',
      then `after`. */
  ghost predicate IdOfName(lib: Library, id: string, ref: string, after: string)
  {
    exists name :: id == lib.newSHA1(PushNamespace, name) && SplitsAs(name, ref, after)
  }

  /** The id reported in the response: a name-based UUID of `ref/after` in
      the push namespace. */
  function PushId(lib: Library, ref: string, after: string): (id: string)
    ensures IdOfName(lib, id, ref, after)
  {
    var name := PushName(ref, after);
    lib.newSHA1(PushNamespace, name)
  }

  /** The lines of the success trace, before they are joined. */
  function TraceLines(pushId: string, pubs: seq<Publisher>): (lines: seq<string>)
    ensures |lines| == |pubs| + 1
    ensures lines[0] == "O5 Message ID: " + pushId
    ensures forall i :: 0 <= i < |pubs| ==> lines[i + 1] == "Published to " + pubs[i].id
  {
    if |pubs| == 0 then ["O5 Message ID: " + pushId]
    else TraceLines(pushId, pubs[..|pubs| - 1]) + ["Published to " + pubs[|pubs| - 1].id]
  }

  /** The 200 body after every publisher succeeded. */
  function SuccessBody(pushId: string, pubs: seq<Publisher>): string
  {
    "OK\n" + Join(TraceLines(pushId, pubs), "\n")
  }

  /** The outcome of a request, and the publish calls made on the way. */
  function Handle(ww: WebhookWorker, request: Request, lib: Library, wrap: WrapMessage,
                  publish: Outcome<WireMessage>): (HandlerResult, seq<Delivery<WireMessage>>)
  {
    match Receive(request, ww.secretToken, lib)
    case Failure(err) => (Failed(err), [])
    case Success(Other(goType)) => (Response(StatusBadRequest, NotPushPrefix + goType), [])
    case Success(Push(e)) =>
      match ValidatePushEvent(e)
      case Some(err) => (Response(StatusBadRequest, err), [])
      case None => Forward(ww, e, lib, wrap, publish)
  }

  /** What happens to a push event that passed validation. */
  function Forward(ww: WebhookWorker, e: PushEvent, lib: Library, wrap: WrapMessage,
                   publish: Outcome<WireMessage>): (r: (HandlerResult, seq<Delivery<WireMessage>>))
    requires ValidatePushEvent(e).None?
    ensures e.after.value == EmptyCommit ==> r == (Response(200, "push event has empty after commit - no event created"), [])
    ensures r.0.Response? ==> r.0.statusCode == 200
    ensures |r.1| <= |ww.publishers|
    ensures forall i :: 0 <= i < |r.1| ==>
      && r.1[i].publisher == ww.publishers[i]
      && r.1[i].message.message == BuildMessage(e)
      && r.1[i].message.sourceApp == ww.source.sourceApp
      && r.1[i].message.sourceEnv == ww.source.sourceEnv
  {
    if e.after.value == EmptyCommit then (Response(StatusOK, EmptyAfterBody), [])
    else
      var pushId := PushId(lib, e.ref.value, e.after.value);
      var msg := BuildMessage(e);
      match wrap(msg)
      case Failure(err) => (Failed(err), [])
      case Success(id) =>
        var wire := WireMessage(id, msg, ww.source.sourceApp, ww.source.sourceEnv);
        Fanout(pushId, ww.publishers, wire, publish)
  }

  /** Publishing `wire` to `pubs` in order until one fails. */
  function Fanout(pushId: string, pubs: seq<Publisher>, wire: WireMessage,
                  publish: Outcome<WireMessage>): (HandlerResult, seq<Delivery<WireMessage>>)
  {
    var k := FirstFailure(pubs, wire, publish);
    if k < |pubs| then (Failed(publish(pubs[k], wire).value), Deliveries(pubs[..k + 1], wire))
    else (Response(StatusOK, SuccessBody(pushId, pubs)), Deliveries(pubs, wire))
  }

  /** `HandleLambda`: the request is received, checked and, when it is a
      push worth forwarding, published to each publisher in turn until one
      fails. `calls` records the publish calls in the order they were made. */
  method HandleLambda(ww: WebhookWorker, request: Request, lib: Library, wrap: WrapMessage,
                      publish: Outcome<WireMessage>)
    returns (result: HandlerResult, calls: seq<Delivery<WireMessage>>)
    ensures (result, calls) == Handle(ww, request, lib, wrap, publish)
  {
    calls := [];
    var received := ReceiveEvent(request, ww.secretToken, lib);
    if received.Failure? {
      return Failed(received.error), calls;
    }
    if received.value.Other? {
      return Response(StatusBadRequest, NotPushPrefix + received.value.goType), calls;
    }
    var event := received.value.event;
    var invalid := ValidatePushEvent(event);
    if invalid.Some? {
      return Response(StatusBadRequest, invalid.value), calls;
    }
    if event.after.value == EmptyCommit {
      return Response(StatusOK, EmptyAfterBody), calls;
    }
    var pushId := lib.newSHA1(PushNamespace, event.ref.value + "/" + event.after.value);
    var msg := PushMessage(
      before := event.before.value,
      after := event.after.value,
      ref := event.ref.value,
      repo := event.repo.value.name.value,
      owner := event.repo.value.owner.value.name.value);
    var wrapped := wrap(msg);
    if wrapped.Failure? {
      return Failed(wrapped.error), calls;
    }
    var wire := WireMessage(wrapped.value, msg, ww.source.sourceApp, ww.source.sourceEnv);
    result, calls := PublishAll(pushId, ww.publishers, wire, publish);
  }

  /** The publisher loop of `HandleLambda`: each publisher is called in turn
      and, on success, a "Published to" line is added to the trace; the first
      error is returned at once. */
  method PublishAll(pushId: string, pubs: seq<Publisher>, wire: WireMessage, publish: Outcome<WireMessage>)
    returns (result: HandlerResult, calls: seq<Delivery<WireMessage>>)
    ensures (result, calls) == Fanout(pushId, pubs, wire, publish)
  {
    calls := [];
    var output := ["O5 Message ID: " + pushId];
    for i := 0 to |pubs|
      invariant calls == Deliveries(pubs[..i], wire)
      invariant output == TraceLines(pushId, pubs[..i])
      invariant forall j :: 0 <= j < i ==> publish(pubs[j], wire).None?
    {
      calls := calls + [Delivery(pubs[i], wire)];
      var err := publish(pubs[i], wire);
      if err.Some? {
        FirstFailureAt(pubs, wire, publish, i);
        assert calls == Deliveries(pubs[..i + 1], wire);
        return Failed(err.value), calls;
      }
      output := output + ["Published to " + pubs[i].id];
      assert pubs[..i + 1][..i] == pubs[..i];
    }
    assert pubs[..|pubs|] == pubs;
    AllSucceed(pubs, wire, publish);
    result := Response(StatusOK, "OK\n" + Join(output, "\n"));
  }

  /** When the request never yields an event (bad content type, bad base64,
      rejected signature, unparseable payload), the library's error is
      returned as a Go error and nothing is published. */
  lemma ReceiveFailureReturned(ww: WebhookWorker, request: Request, lib: Library, wrap: WrapMessage,
                               publish: Outcome<WireMessage>)
    requires Receive(request, ww.secretToken, lib).Failure?
    ensures Handle(ww, request, lib, wrap, publish) == (Failed(Receive(request, ww.secretToken, lib).error), [])
  {
  }

  /** An event of any other type is turned away with 400 naming its Go
      type, and nothing is published. */
  lemma NonPushRejected(ww: WebhookWorker, request: Request, lib: Library, wrap: WrapMessage,
                        publish: Outcome<WireMessage>, goType: string)
    requires Receive(request, ww.secretToken, lib) == Success(Other(goType))
    ensures Handle(ww, request, lib, wrap, publish)
      == (Response(400, "webhooks should only be configured for push events, got " + goType), [])
  {
  }

  /** A push event missing a field is turned away with 400 whose body is the
      error naming the first missing path in check order; nothing is published. */
  lemma IncompletePushRejected(ww: WebhookWorker, request: Request, lib: Library, wrap: WrapMessage,
                               publish: Outcome<WireMessage>, e: PushEvent)
    requires Receive(request, ww.secretToken, lib) == Success(Push(e))
    requires !Complete(e)
    ensures FirstMissing(CheckOrder, e).Some?
    ensures Handle(ww, request, lib, wrap, publish)
      == (Response(400, MissingMessage(FirstMissing(CheckOrder, e).value)), [])
  {
    ValidateAcceptsComplete(e);
    ValidateIsFirstMissing(e);
  }

  /** A push whose `after` is the all-zero commit (a deleted ref) is
      acknowledged with 200 and published nowhere. */
  lemma DeletionAcknowledged(ww: WebhookWorker, request: Request, lib: Library, wrap: WrapMessage,
                             publish: Outcome<WireMessage>, e: PushEvent)
    requires Receive(request, ww.secretToken, lib) == Success(Push(e))
    requires Complete(e) && e.after == Some(EmptyCommit)
    ensures Handle(ww, request, lib, wrap, publish)
      == (Response(200, "push event has empty after commit - no event created"), [])
  {
    ValidateAcceptsComplete(e);
  }

  /** Nothing is published unless the request carried a complete push event
      for a live ref; every message published copies that event's fields and
      carries the worker's source app and environment. */
  lemma PublishedMessagesCopyEvent(ww: WebhookWorker, request: Request, lib: Library, wrap: WrapMessage,
                                   publish: Outcome<WireMessage>)
    requires |Handle(ww, request, lib, wrap, publish).1| > 0
    ensures Receive(request, ww.secretToken, lib).Success?
    ensures Receive(request, ww.secretToken, lib).value.Push?
    ensures var e := Receive(request, ww.secretToken, lib).value.event;
      && Complete(e) && e.after != Some(EmptyCommit)
      && forall d :: d in Handle(ww, request, lib, wrap, publish).1 ==>
        && d.publisher in ww.publishers
        && d.message.message == PushMessage(
             before := e.before.value, after := e.after.value, ref := e.ref.value,
             repo := e.repo.value.name.value, owner := e.repo.value.owner.value.name.value)
        && d.message.sourceApp == ww.source.sourceApp
        && d.message.sourceEnv == ww.source.sourceEnv
  {
    var e := Receive(request, ww.secretToken, lib).value.event;
    ValidateAcceptsComplete(e);
  }

  /** When every publisher accepts the message, each is called once, in
      configured order, and the 200 body reads, line by line: "OK", the
      message id, then "Published to <id>" for each publisher in order
      (provided no id itself contains a line break). */
  lemma AllPublishedInOrder(ww: WebhookWorker, request: Request, lib: Library, wrap: WrapMessage,
                            publish: Outcome<WireMessage>, e: PushEvent, wire: WireMessage)
    requires Receive(request, ww.secretToken, lib) == Success(Push(e))
    requires ValidatePushEvent(e).None? && e.after.value != EmptyCommit
    requires wrap(BuildMessage(e)) == Success(wire.messageId)
    requires wire == WireMessage(wire.messageId, BuildMessage(e), ww.source.sourceApp, ww.source.sourceEnv)
    requires forall i :: 0 <= i < |ww.publishers| ==> publish(ww.publishers[i], wire).None?
    requires forall i :: 0 <= i < |ww.publishers| ==> '\n' !in ww.publishers[i].id
    requires '\n' !in PushId(lib, e.ref.value, e.after.value)
    ensures Handle(ww, request, lib, wrap, publish).1 == Deliveries(ww.publishers, wire)
    ensures Handle(ww, request, lib, wrap, publish).0.Response?
    ensures Handle(ww, request, lib, wrap, publish).0.statusCode == 200
    ensures Split(Handle(ww, request, lib, wrap, publish).0.body, '\n')
      == ["OK", "O5 Message ID: " + PushId(lib, e.ref.value, e.after.value)]
         + seq(|ww.publishers|, i requires 0 <= i < |ww.publishers| => "Published to " + ww.publishers[i].id)
  {
    ValidateAcceptsComplete(e);
    var pushId := PushId(lib, e.ref.value, e.after.value);
    AllSucceed(ww.publishers, wire, publish);
    var lines := TraceLines(pushId, ww.publishers);
    forall i | 0 <= i < |lines| ensures '\n' !in lines[i] {
      if i > 0 {
        assert lines[i] == "Published to " + ww.publishers[i - 1].id;
      }
    }
    SplitJoin(["OK"] + lines, '\n');
    assert Join(["OK"] + lines, "\n") == "OK\n" + Join(lines, "\n");
    assert (["OK"] + lines)[1..] == lines;
  }

  /** Fail-fast: when publisher `i` is the first to fail, publishers 0..i are
      called in order, none after it, and the handler returns its error. */
  lemma FirstPublishErrorStops(ww: WebhookWorker, request: Request, lib: Library, wrap: WrapMessage,
                               publish: Outcome<WireMessage>, e: PushEvent, wire: WireMessage, i: nat)
    requires Receive(request, ww.secretToken, lib) == Success(Push(e))
    requires ValidatePushEvent(e).None? && e.after.value != EmptyCommit
    requires wrap(BuildMessage(e)) == Success(wire.messageId)
    requires wire == WireMessage(wire.messageId, BuildMessage(e), ww.source.sourceApp, ww.source.sourceEnv)
    requires i < |ww.publishers| && publish(ww.publishers[i], wire).Some?
    requires forall j :: 0 <= j < i ==> publish(ww.publishers[j], wire).None?
    ensures Handle(ww, request, lib, wrap, publish)
      == (Failed(publish(ww.publishers[i], wire).value), Deliveries(ww.publishers[..i + 1], wire))
  {
    ValidateAcceptsComplete(e);
    FirstFailureAt(ww.publishers, wire, publish, i);
  }

  /** In a push name, the '/' added by the format is the last one when
      `after` has none. */
  lemma LastSlash(ref: string, after: string)
    requires '/' !in after
    ensures PushName(ref, after)[|ref|] == '/'
    ensures forall i :: |ref| < i < |PushName(ref, after)| ==> PushName(ref, after)[i] != '/'
  {
    var n := PushName(ref, after);
    forall i | |ref| < i < |n| ensures n[i] != '/' {
      assert n[i] == after[i - |ref| - 1];
    }
  }

  /** A redelivered push (same ref, same after) reports the same id, and two
      pushes whose `after` values are commit hashes (no '/') share a UUID name
      only when they agree on both ref and after. */
  lemma PushNameIdentifiesPush(ref1: string, after1: string, ref2: string, after2: string)
    requires '/' !in after1 && '/' !in after2
    ensures PushName(ref1, after1) == PushName(ref2, after2) <==> ref1 == ref2 && after1 == after2
  {
    if PushName(ref1, after1) == PushName(ref2, after2) {
      var n := PushName(ref1, after1);
      LastSlash(ref1, after1);
      LastSlash(ref2, after2);
      assert |ref1| == |ref2|;
      assert after1 == n[|n| - |after1|..] == after2;
      assert ref1 == n[..|ref1|] == ref2;
    }
  }
}
