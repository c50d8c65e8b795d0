/** `validatePushEvent` and the deletion sentinel. The function is a chain of
    early-return nil checks; beside it stands the same rule written as an
    ordered table of field paths, and the lemmas show that the two agree. */
module PushValidation {
  import opened Wrappers
  import opened GitHubEvents

  /** `emptyCommit`: the all-zero object name of a push that deletes its ref. */
  const EmptyCommit: string := "0000000000000000000000000000000000000000"

  /** `validatePushEvent`: None when every field the handler dereferences is
      present, otherwise the text of the error for the first missing one. */
  function ValidatePushEvent(e: PushEvent): (err: Option<string>)
    ensures err.None? ==> Complete(e)
    ensures err.Some? ==> exists f: Field :: !Present(e, f) && err.value == MissingMessage(f)
  {
    if e.ref.None? then Some(MissingMessage(Ref))
    else if e.repo.None? then Some(MissingMessage(Repo))
    else if e.repo.value.owner.None? then Some(MissingMessage(RepoOwner))
    else if e.repo.value.owner.value.name.None? then Some(MissingMessage(RepoOwnerName))
    else if e.repo.value.name.None? then Some(MissingMessage(RepoName))
    else if e.after.None? then Some(MissingMessage(After))
    else if e.before.None? then Some(MissingMessage(Before))
    else None
  }

  /** The fields the handler dereferences. */
  datatype Field = Ref | Repo | RepoOwner | RepoOwnerName | RepoName | After | Before

  /** The order in which the fields are checked. */
  const CheckOrder: seq<Field> := [Ref, Repo, RepoOwner, RepoOwnerName, RepoName, After, Before]

  /** The dotted path that names a field in the error text. */
  function Path(f: Field): string
  {
    match f
    case Ref => "ref"
    case Repo => "repo"
    case RepoOwner => "repo.owner"
    case RepoOwnerName => "repo.owner.name"
    case RepoName => "repo.name"
    case After => "after"
    case Before => "before"
  }

  /** Whether the field at the end of the path can be reached without
      meeting nil on the way. */
  predicate Present(e: PushEvent, f: Field)
  {
    match f
    case Ref => e.ref.Some?
    case Repo => e.repo.Some?
    case RepoOwner => e.repo.Some? && e.repo.value.owner.Some?
    case RepoOwnerName => e.repo.Some? && e.repo.value.owner.Some? && e.repo.value.owner.value.name.Some?
    case RepoName => e.repo.Some? && e.repo.value.name.Some?
    case After => e.after.Some?
    case Before => e.before.Some?
  }

  /** The error text that names a missing path. */
  function MissingMessage(f: Field): string
  {
    "nil '" + Path(f) + "' on push event"
  }

  /** The first field of `fields` that is missing, if any. */
  function FirstMissing(fields: seq<Field>, e: PushEvent): (r: Option<Field>)
    ensures r.Some? ==> r.value in fields && !Present(e, r.value)
    ensures r.Some? ==> exists k :: 0 <= k < |fields| && fields[k] == r.value
                                    && forall i :: 0 <= i < k ==> Present(e, fields[i])
    ensures r.None? <==> forall i :: 0 <= i < |fields| ==> Present(e, fields[i])
  {
    if |fields| == 0 then None
    else if !Present(e, fields[0]) then Some(fields[0])
    else
      var r := FirstMissing(fields[1..], e);
      assert r.Some? ==> exists k :: 0 <= k < |fields| && fields[k] == r.value
                                     && forall i :: 0 <= i < k ==> Present(e, fields[i]) by {
        if r.Some? {
          var k :| 0 <= k < |fields[1..]| && fields[1..][k] == r.value
                   && forall i :: 0 <= i < k ==> Present(e, fields[1..][i]);
          assert fields[k + 1] == r.value;
          assert forall i :: 0 <= i < k + 1 ==> Present(e, fields[i]) by {
            forall i | 0 <= i < k + 1 ensures Present(e, fields[i]) {
              if i > 0 { assert fields[i] == fields[1..][i - 1]; }
            }
          }
        }
      }
      r
  }

  /** Every dereferenced field is present. */
  predicate Complete(e: PushEvent)
  {
    forall f: Field :: Present(e, f)
  }

  /** The nested checks are the table walked in order: the error, when
      there is one, names the first missing path of CheckOrder. */
  lemma ValidateIsFirstMissing(e: PushEvent)
    ensures ValidatePushEvent(e) ==
      match FirstMissing(CheckOrder, e)
      case None => None
      case Some(f) => Some(MissingMessage(f))
  {
    var t := CheckOrder;
    if e.ref.None? {
      FirstMissingAt(t, e, 0);
    } else if e.repo.None? {
      FirstMissingAt(t, e, 1);
    } else if e.repo.value.owner.None? {
      FirstMissingAt(t, e, 2);
    } else if e.repo.value.owner.value.name.None? {
      FirstMissingAt(t, e, 3);
    } else if e.repo.value.name.None? {
      FirstMissingAt(t, e, 4);
    } else if e.after.None? {
      FirstMissingAt(t, e, 5);
    } else if e.before.None? {
      FirstMissingAt(t, e, 6);
    } else {
      assert forall i :: 0 <= i < |t| ==> Present(e, t[i]);
    }
  }


  /** Validation passes exactly when all seven fields are present. */
  lemma ValidateAcceptsComplete(e: PushEvent)
    ensures ValidatePushEvent(e).None? <==> Complete(e)
  {
    ValidateIsFirstMissing(e);
    if ValidatePushEvent(e).None? {
      forall f: Field ensures Present(e, f) {
        assert f == CheckOrder[Position(f)];
      }
    }
  }

  /** The index of a field in CheckOrder. */
  function Position(f: Field): (i: nat)
    ensures i < |CheckOrder| && CheckOrder[i] == f
  {
    match f
    case Ref => 0
    case Repo => 1
    case RepoOwner => 2
    case RepoOwnerName => 3
    case RepoName => 4
    case After => 5
    case Before => 6
  }

  /** Whatever the later fields hold, a missing field whose predecessors are
      all present is the one the error names. */
  lemma FirstAbsentIsNamed(e: PushEvent, f: Field)
    requires !Present(e, f)
    requires forall g: Field :: Position(g) < Position(f) ==> Present(e, g)
    ensures ValidatePushEvent(e) == Some(MissingMessage(f))
  {
    ValidateIsFirstMissing(e);
    FirstMissingAt(CheckOrder, e, Position(f));
  }

  lemma {:induction false} FirstMissingAt(fields: seq<Field>, e: PushEvent, k: nat)
    requires k < |fields| && !Present(e, fields[k])
    requires forall i :: 0 <= i < k ==> Present(e, fields[i])
    ensures FirstMissing(fields, e) == Some(fields[k])
  {
    if k > 0 {
      FirstMissingAt(fields[1..], e, k - 1);
    }
  }

  /** Distinct paths give distinct messages, so the error text identifies
      the missing field. */
  lemma MessageNamesOneField(f: Field, g: Field)
    requires MissingMessage(f) == MissingMessage(g)
    ensures f == g
  {
    var m := MissingMessage(f);
    assert Path(f) == m[5..|m| - 15];
    assert Path(g) == m[5..|m| - 15];
  }
}
