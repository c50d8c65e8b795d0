/** The outbound push message (`github_tpb.PushMessage` in the current
    handler, `github_pb.PushMessage` in the older one; both have the same
    five fields) and how a validated event fills it. */
module PushMessages {
  import opened Wrappers
  import opened GitHubEvents
  import opened PushValidation

  datatype PushMessage = PushMessage(before: string, after: string, ref: string, repo: string, owner: string)

  /** The message built from an event that passed validation. */
  function BuildMessage(e: PushEvent): (msg: PushMessage)
    requires ValidatePushEvent(e).None?
    ensures Some(msg.before) == e.before && Some(msg.after) == e.after && Some(msg.ref) == e.ref
    ensures Some(msg.repo) == e.repo.value.name && Some(msg.owner) == e.repo.value.owner.value.name
  {
    PushMessage(
      before := e.before.value,
      after := e.after.value,
      ref := e.ref.value,
      repo := e.repo.value.name.value,
      owner := e.repo.value.owner.value.name.value)
  }

  /** The message carries exactly the event's values, so two validated events
      give the same message only when they agree on the five fields. */
  lemma BuildMessageFaithful(e1: PushEvent, e2: PushEvent)
    requires ValidatePushEvent(e1).None? && ValidatePushEvent(e2).None?
    ensures BuildMessage(e1) == BuildMessage(e2) <==>
      && e1.before == e2.before && e1.after == e2.after && e1.ref == e2.ref
      && e1.repo.value.name == e2.repo.value.name
      && e1.repo.value.owner.value.name == e2.repo.value.owner.value.name
  {
  }
}
