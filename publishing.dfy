/** The fan-out both handlers end with: the configured publishers are called
    one after another with the same message, and the first error stops the
    loop. A publisher's answer is an input of the model. */
module Publishing {
  import opened Wrappers

  /** An `awsmsg.Publisher`, known here by its `PublisherID()`. */
  datatype Publisher = Publisher(id: string)

  /** One call `publisher.Publish(ctx, message)`. */
  datatype Delivery<M> = Delivery(publisher: Publisher, message: M)

  /** The answer a publisher gives to a message: None for success, or the error. */
  type Outcome<!M> = (Publisher, M) -> Option<string>

  /** The calls made to the first publishers, in order, all with message `m`. */
  function Deliveries<M>(pubs: seq<Publisher>, m: M): (calls: seq<Delivery<M>>)
    ensures |calls| == |pubs|
    ensures forall i :: 0 <= i < |pubs| ==> calls[i] == Delivery(pubs[i], m)
  {
    seq(|pubs|, i requires 0 <= i < |pubs| => Delivery(pubs[i], m))
  }

  /** How many publishers succeed before the first one that fails; |pubs|
      when none fails. */
  function FirstFailure<M>(pubs: seq<Publisher>, m: M, publish: Outcome<M>): (k: nat)
    ensures k <= |pubs|
    ensures forall i :: 0 <= i < k ==> publish(pubs[i], m).None?
    ensures k < |pubs| ==> publish(pubs[k], m).Some?
  {
    if |pubs| == 0 then 0
    else if publish(pubs[0], m).Some? then 0
    else 1 + FirstFailure(pubs[1..], m, publish)
  }

  /** The failing publisher found by FirstFailure is the earliest one: if
      publisher `i` fails after `i` successes, the fan-out stops there. */
  lemma FirstFailureAt<M>(pubs: seq<Publisher>, m: M, publish: Outcome<M>, i: nat)
    requires i < |pubs| && publish(pubs[i], m).Some?
    requires forall j :: 0 <= j < i ==> publish(pubs[j], m).None?
    ensures FirstFailure(pubs, m, publish) == i
  {
  }

  /** When every publisher succeeds, all of them are called. */
  lemma AllSucceed<M>(pubs: seq<Publisher>, m: M, publish: Outcome<M>)
    requires forall j :: 0 <= j < |pubs| ==> publish(pubs[j], m).None?
    ensures FirstFailure(pubs, m, publish) == |pubs|
  {
  }
}
