/** What `init` is to do next, told from the files alone. */
module InitState {

  datatype Approval = NoApproval | Open | Held | Committed | Unreadable | Corrupt

  datatype Profile = Absent | UnreadableProfile | AwaitingGrant | AwaitingSpace | Ready

  datatype Inputs = Inputs(
    profile: Profile, spacePending: bool, grant: bool, key: bool, pendingGrant: bool,
    approval: Approval, rotation: bool)

  datatype Action = FinishRotation | Refuse | FixProfile | Init | RotateKey | Wait | Resume | Request | FixApproval | Nothing

  datatype Name =
    | RotationInterrupted | ProfileUnreadable | ApprovalOrphaned | New | KeyOnly | KeyMissing
    | ApprovalHeld | SavedDelegation | SavedGrant | ApprovalOpen | ApprovalUnreadable | NeedsGrant
    | GrantMissing | SpacePending | SpaceMissing | ReadyApproval | AllReady

  datatype Derived = Derived(state: Name, action: Action, wait: bool)

  predicate HeldApproval(a: Approval) {
    a.Held? || a.Committed?
  }

  predicate LiveApproval(a: Approval) {
    a.Open? || a.Unreadable? || HeldApproval(a)
  }

  predicate LacksOwner(i: Inputs) {
    i.profile.Absent? || !i.key
  }

  predicate WaitGoesOn(i: Inputs, action: Action) {
    if action.Refuse? || action.FinishRotation? || action.FixProfile? then false
    else if HeldApproval(i.approval) then true
    else if i.profile.AwaitingSpace? || i.profile.Ready? then i.approval.Open?
    else action.Wait? || action.Request? || action.Init?
  }

  function Classified(i: Inputs): (Name, Action) {
    if i.rotation then (RotationInterrupted, FinishRotation)
    else if i.profile.UnreadableProfile? then (ProfileUnreadable, FixProfile)
    else if LiveApproval(i.approval) && LacksOwner(i) then (ApprovalOrphaned, Refuse)
    else if i.profile.Absent? then (if i.key then KeyOnly else New, Init)
    else if !i.key then (KeyMissing, RotateKey)
    else match i.profile
      case AwaitingGrant =>
        if i.pendingGrant then (SavedDelegation, Resume)
        else if i.grant then (SavedGrant, Resume)
        else if HeldApproval(i.approval) then (ApprovalHeld, Wait)
        else if i.approval.Open? then (ApprovalOpen, Wait)
        else if i.approval.Unreadable? then (ApprovalUnreadable, FixApproval)
        else (NeedsGrant, Request)
      case AwaitingSpace =>
        if !i.grant then (if HeldApproval(i.approval) then (ApprovalHeld, Wait) else (GrantMissing, Request))
        else (if i.spacePending then SpacePending else SpaceMissing, Resume)
      case _ =>
        if HeldApproval(i.approval) then (ReadyApproval, Wait)
        else if i.approval.Unreadable? then (ApprovalUnreadable, FixApproval)
        else if !i.grant then (GrantMissing, Request)
        else if i.approval.Open? then (ReadyApproval, Wait)
        else (AllReady, Nothing)
  }

  function ClassifyState(i: Inputs): Derived {
    var (state, action) := Classified(i);
    Derived(state, action, WaitGoesOn(i, action))
  }

  /** An approval the owner gave never leads to a new request, a new key or nothing to do: while its profile
      and key are there, `init --wait` goes on, and only a grant that is already saved is installed first;
      without them the person decides. */
  lemma HeldApprovalIsKept(i: Inputs)
    requires HeldApproval(i.approval) && !i.rotation && !i.profile.UnreadableProfile?
    ensures ClassifyState(i).action.Refuse? <==> LacksOwner(i)
    ensures ClassifyState(i).wait <==> !LacksOwner(i)
    ensures !LacksOwner(i) ==> (ClassifyState(i).action.Resume? <==>
      (i.profile.AwaitingGrant? && (i.pendingGrant || i.grant)) || (i.profile.AwaitingSpace? && i.grant))
    ensures !LacksOwner(i) && !ClassifyState(i).action.Resume? ==> ClassifyState(i).action.Wait?
  {
  }

  /** A new approval is asked for only when nothing the owner gave is on disk that could be used instead. */
  lemma RequestOnlyWithoutGrantOrApproval(i: Inputs)
    requires ClassifyState(i).action.Request?
    ensures !HeldApproval(i.approval) && !i.grant && i.key && (i.profile.AwaitingGrant? ==> !i.pendingGrant && !LiveApproval(i.approval))
  {
  }

  /** The name of the state determines the action. */
  lemma StateNamesItsAction(i: Inputs, j: Inputs)
    requires ClassifyState(i).state == ClassifyState(j).state
    ensures ClassifyState(i).action == ClassifyState(j).action
  {
  }
}
