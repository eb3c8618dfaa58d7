/** Following and unfollowing from another user's profile
    (OtherUserProfileFragment): the counter transactions, the barrier that
    waits for the four remote operations, the scan that decides the follow
    state, the removal of the first matching list entry and the guarded
    follow button. */
module Follow {
  import opened Common

  // ---------------------------------------------------------------------------
  // Counter transactions
  // ---------------------------------------------------------------------------

  /** doTransaction of followUser: the stored Long (absent reads as 0) plus
      one, with the JVM's wrap-around at the top of the range. */
  function IncrementCount(current: Option<Long>): (next: Long)
    ensures current.GetOr(0) < MaxLong ==> next == current.GetOr(0) + 1
    ensures current.GetOr(0) == MaxLong ==> next == MinLong
  {
    LongIncrement(current.GetOr(0))
  }

  /** doTransaction of unfollowUser: one less, but never below zero. */
  function DecrementCount(current: Option<Long>): (next: Long)
    ensures next >= 0
    ensures current.GetOr(0) > 0 ==> next == current.GetOr(0) - 1
    ensures current.GetOr(0) <= 0 ==> next == 0
  {
    var v := current.GetOr(0);
    if v > 0 then v - 1 else 0
  }

  /** Unfollowing undoes following on any count that is not negative and
      not at the top of the range, and following undoes unfollowing on a
      positive count. */
  lemma UnfollowUndoesFollow(current: Option<Long>)
    requires 0 <= current.GetOr(0) < MaxLong
    ensures DecrementCount(Some(IncrementCount(current))) == current.GetOr(0)
    ensures current.GetOr(0) > 0 ==> IncrementCount(Some(DecrementCount(current))) == current.GetOr(0)
  {
  }

  /** However many unfollows hit a counter, it stays at zero or above and
      reaches zero after as many steps as its value. */
  function DecrementTimes(v: Long, n: nat): (r: Long)
    decreases n
  {
    if n == 0 then v else DecrementCount(Some(DecrementTimes(v, n - 1)))
  }

  lemma {:induction false} DecrementTimesFloor(v: Long, n: nat)
    requires v >= 0
    ensures DecrementTimes(v, n) == if n <= v then v - n else 0
    decreases n
  {
    if n > 0 {
      DecrementTimesFloor(v, n - 1);
    }
  }

  // ---------------------------------------------------------------------------
  // The completion barrier
  // ---------------------------------------------------------------------------

  const TotalOperations := 4
  const SomeFailedToast := "Some operations failed"
  const FollowerCountToast := "Failed to update follower count"

  /** Which of the two handlers created the barrier. */
  datatype Flow = Following | Unfollowing

  /** The four remote operations: the two list entries and the two counters. */
  datatype Op = FollowingList | FollowersList | FollowingCount | FollowersCount

  /** One completion callback: which operation, and whether it succeeded. */
  datatype Report = Report(op: Op, ok: bool)

  /** The locals operationsCompleted/hasErrors of the handler, the fragment's
      isProcessingFollow and the toasts shown so far. */
  datatype Barrier = Barrier(flow: Flow, completed: nat, hasErrors: bool, processing: bool, toasts: seq<string>)

  /** What followUser/unfollowUser set up before starting the operations. */
  function Start(flow: Flow, toasts: seq<string>): Barrier {
    Barrier(flow, 0, false, true, toasts)
  }

  /** The toast unfollowUser shows at once when the follower counter fails. */
  function ReportToasts(flow: Flow, r: Report): (t: seq<string>)
    ensures t != [] <==> flow == Unfollowing && r.op == FollowersCount && !r.ok
    ensures t == [] || t == [FollowerCountToast]
  {
    if flow == Unfollowing && r == Report(FollowersCount, false) then [FollowerCountToast] else []
  }

  /** A callback followed by checkCompletion: one more callback counted, a
      failure remembered, the button released by the fourth, toasts only
      appended, and "Some operations failed" added exactly when the fourth
      closes a barrier that saw a failure. */
  function Complete(b: Barrier, r: Report): (c: Barrier)
    ensures c.flow == b.flow && c.completed == b.completed + 1
    ensures c.hasErrors <==> b.hasErrors || !r.ok
    ensures c.processing <==> b.processing && c.completed < TotalOperations
    ensures c.toasts == b.toasts + ReportToasts(b.flow, r)
                        + (if c.completed >= TotalOperations && c.hasErrors then [SomeFailedToast] else [])
  {
    var hasErrors := b.hasErrors || !r.ok;
    var completed := b.completed + 1;
    var done := completed >= TotalOperations;
    Barrier(b.flow, completed, hasErrors, b.processing && !done,
            b.toasts + ReportToasts(b.flow, r) + (if done && hasErrors then [SomeFailedToast] else []))
  }

  function RunReports(b: Barrier, rs: seq<Report>): Barrier
    decreases |rs|
  {
    if rs == [] then b else Complete(RunReports(b, rs[..|rs| - 1]), Last(rs))
  }

  predicate AnyFailed(rs: seq<Report>) {
    exists i | 0 <= i < |rs| :: !rs[i].ok
  }

  function Repeat(x: string, n: nat): (r: seq<string>)
    ensures |r| == n && forall i | 0 <= i < n :: r[i] == x
    decreases n
  {
    if n == 0 then [] else Repeat(x, n - 1) + [x]
  }

  /** How many follower-counter failures an unfollow has reported. */
  function CounterToastCount(flow: Flow, rs: seq<Report>): nat {
    if flow == Unfollowing then multiset(rs)[Report(FollowersCount, false)] else 0
  }

  /** After k <= 4 callbacks from a fresh start: k were counted, the error
      flag says whether one failed, the button stays locked exactly while
      fewer than four have arrived, and "Some operations failed" is shown
      exactly when the fourth has arrived and something failed. */
  lemma {:induction false} BarrierAfter(flow: Flow, toasts: seq<string>, rs: seq<Report>)
    requires |rs| <= TotalOperations
    ensures BarrierAfterReports(RunReports(Start(flow, toasts), rs), flow, toasts, rs)
    decreases |rs|
  {
    if rs != [] {
      var init, r := rs[..|rs| - 1], Last(rs);
      assert rs == init + [r];
      BarrierAfter(flow, toasts, init);
      BarrierStep(RunReports(Start(flow, toasts), init), flow, toasts, init, r);
    }
  }

  /** The state BarrierAfter promises after the callbacks rs. */
  predicate BarrierAfterReports(b: Barrier, flow: Flow, toasts: seq<string>, rs: seq<Report>) {
    && b.flow == flow
    && b.completed == |rs|
    && b.hasErrors == AnyFailed(rs)
    && (b.processing <==> |rs| < TotalOperations)
    && b.toasts == toasts + Repeat(FollowerCountToast, CounterToastCount(flow, rs))
                 + (if |rs| == TotalOperations && AnyFailed(rs) then [SomeFailedToast] else [])
  }

  /** One more callback on a barrier that is still open. */
  lemma BarrierStep(b: Barrier, flow: Flow, toasts: seq<string>, init: seq<Report>, r: Report)
    requires |init| < TotalOperations && BarrierAfterReports(b, flow, toasts, init)
    ensures BarrierAfterReports(Complete(b, r), flow, toasts, init + [r])
  {
    var rs, c := init + [r], Complete(b, r);
    AnyFailedSnoc(init, r);
    CounterToastsSnoc(flow, init, r);
    var counterToasts := Repeat(FollowerCountToast, CounterToastCount(flow, init));
    var closing := if |rs| == TotalOperations && AnyFailed(rs) then [SomeFailedToast] else [];
    assert c.flow == flow && c.completed == |rs| && c.hasErrors == AnyFailed(rs);
    assert c.processing <==> |rs| < TotalOperations;
    assert b.toasts == toasts + counterToasts;
    assert c.toasts == toasts + (counterToasts + ReportToasts(flow, r)) + closing;
  }

  lemma AnyFailedSnoc(rs: seq<Report>, r: Report)
    ensures AnyFailed(rs + [r]) <==> AnyFailed(rs) || !r.ok
  {
    var rs' := rs + [r];
    if AnyFailed(rs) {
      var i :| 0 <= i < |rs| && !rs[i].ok;
      assert rs'[i] == rs[i];
    }
    if !r.ok {
      assert !rs'[|rs|].ok;
    }
    if AnyFailed(rs') {
      var i :| 0 <= i < |rs'| && !rs'[i].ok;
      if i < |rs| {
        assert rs[i] == rs'[i];
      }
    }
  }

  lemma CounterToastsSnoc(flow: Flow, rs: seq<Report>, r: Report)
    ensures Repeat(FollowerCountToast, CounterToastCount(flow, rs + [r]))
      == Repeat(FollowerCountToast, CounterToastCount(flow, rs)) + ReportToasts(flow, r)
  {
    assert multiset(rs + [r]) == multiset(rs) + multiset{r};
  }

  /** The order in which the four callbacks arrive does not matter. */
  lemma ArrivalOrderIrrelevant(flow: Flow, toasts: seq<string>, rs1: seq<Report>, rs2: seq<Report>)
    requires |rs1| == TotalOperations && multiset(rs1) == multiset(rs2)
    ensures RunReports(Start(flow, toasts), rs1) == RunReports(Start(flow, toasts), rs2)
  {
    assert |rs2| == |multiset(rs2)| == |multiset(rs1)| == |rs1|;
    BarrierAfter(flow, toasts, rs1);
    BarrierAfter(flow, toasts, rs2);
    SameFailures(rs1, rs2);
  }

  lemma SameFailures(rs1: seq<Report>, rs2: seq<Report>)
    requires multiset(rs1) == multiset(rs2)
    ensures AnyFailed(rs1) == AnyFailed(rs2)
  {
    if AnyFailed(rs1) {
      var i :| 0 <= i < |rs1| && !rs1[i].ok;
      assert rs1[i] in multiset(rs2);
      var j :| 0 <= j < |rs2| && rs2[j] == rs1[i];
    }
    if AnyFailed(rs2) {
      var i :| 0 <= i < |rs2| && !rs2[i].ok;
      assert rs2[i] in multiset(rs1);
      var j :| 0 <= j < |rs1| && rs1[j] == rs2[i];
    }
  }

  // ---------------------------------------------------------------------------
  // Scans
  // ---------------------------------------------------------------------------

  /** The for-loop with `break` over the children of a list: whether some
      child holds `target`, and where the first one is. */
  method ScanForValue(values: seq<string>, target: string) returns (found: bool, index: nat)
    ensures found <==> target in values
    ensures found ==> index == IndexOf(values, target)
  {
    found, index := false, 0;
    var i := 0;
    while i < |values|
      invariant 0 <= i <= |values|
      invariant target !in values[..i]
      invariant !found
    {
      if values[i] == target {
        found, index := true, i;
        break;
      }
      assert values[..i + 1] == values[..i] + [values[i]];
      i := i + 1;
    }
    if !found {
      assert values[..i] == values;
    } else {
      assert values[..index] == values[..i];
    }
  }

  /** What a list read by unfollowUser delivers: the child values in key
      order, or a cancelled read. */
  datatype ListRead = Cancelled | Children(values: seq<string>)

  /** Whether a removal path ends in success: the entry was removed or was
      not there; a failed removal or a cancelled read is an error. */
  function RemovalOk(read: ListRead, id: string, removeSucceeds: bool): bool {
    read.Children? && (id !in read.values || removeSucceeds)
  }

  /** The list after the removal path: only the first child holding id is
      removed, and only when removeValue succeeds. */
  function AfterRemoval(read: ListRead, id: string, removeSucceeds: bool): (r: Option<seq<string>>)
    ensures read.Cancelled? <==> r.None?
    ensures r.Some? ==> multiset(r.value) == multiset(read.values) - (if removeSucceeds then multiset{id} else multiset{})
  {
    match read
    case Cancelled => None
    case Children(values) => Some(if removeSucceeds then RemoveFirst(values, id) else values)
  }

  /** The read callback of one removal path: scan for the first child
      holding id and remove it when removeValue succeeds. */
  method RemovalPath(read: ListRead, id: string, removeSucceeds: bool) returns (ok: bool, remaining: Option<seq<string>>)
    ensures ok == RemovalOk(read, id, removeSucceeds)
    ensures remaining == AfterRemoval(read, id, removeSucceeds)
  {
    match read {
      case Cancelled =>
        ok, remaining := false, None;
      case Children(values) =>
        var found, index := ScanForValue(values, id);
        if found && removeSucceeds {
          remaining := Some(values[..index] + values[index + 1..]);
        } else {
          remaining := Some(values);
        }
        ok := !found || removeSucceeds;
    }
  }

  // ---------------------------------------------------------------------------
  // The profile screen's follow state
  // ---------------------------------------------------------------------------

  /** The state OtherUserProfileFragment keeps for following. The two ids
      stand for the signed-in uid and targetUser?.userId. */
  class FollowController {
    var currentUserId: Option<string>
    var targetUserId: Option<string>
    var isFollowing: bool
    var isProcessingFollow: bool
    var buttonEnabled: bool
    var buttonVisible: bool
    var buttonText: string
    var stateListenerAttached: bool
    var flow: Flow
    var operationsCompleted: nat
    var hasErrors: bool
    var toasts: seq<string>
    var hasBinding: bool
    var crashed: bool

    function CurrentBarrier(): Barrier
      reads this
    {
      Barrier(flow, operationsCompleted, hasErrors, isProcessingFollow, toasts)
    }

    /** Until a crash the button is enabled exactly when no operation is in
        flight; a barrier in flight has not seen all four callbacks; the
        follow-state listener exists only on another user's profile and
        only while the view does; a crash happens only without a view. */
    ghost predicate Valid()
      reads this
    {
      && (!crashed ==> buttonEnabled == !isProcessingFollow)
      && (isProcessingFollow ==> operationsCompleted < TotalOperations && currentUserId.Some? && targetUserId.Some?)
      && (stateListenerAttached ==> currentUserId.Some? && targetUserId.Some? && currentUserId != targetUserId)
      && (stateListenerAttached ==> hasBinding)
      && (crashed ==> !hasBinding && !isProcessingFollow)
    }

    /** The layout's own button text is not modelled. */
    constructor (currentUserId: Option<string>, targetUserId: Option<string>)
      ensures Valid()
      ensures this.currentUserId == currentUserId && this.targetUserId == targetUserId
      ensures !isFollowing && !isProcessingFollow && buttonVisible && !stateListenerAttached && toasts == []
      ensures hasBinding && !crashed
    {
      this.currentUserId, this.targetUserId := currentUserId, targetUserId;
      isFollowing, isProcessingFollow, buttonEnabled, buttonVisible := false, false, true, true;
      buttonText := "";
      stateListenerAttached := false;
      flow, operationsCompleted, hasErrors, toasts := Following, 0, false, [];
      hasBinding, crashed := true, false;
    }

    /** onDestroyView: both listeners are removed and the binding is
        dropped. The operations in flight go on. */
    method OnDestroyView()
      requires Valid()
      modifies this`stateListenerAttached, this`hasBinding
      ensures Valid()
      ensures !stateListenerAttached && !hasBinding
    {
      stateListenerAttached := false;
      hasBinding := false;
    }

    /** checkFollowState: nothing without both ids, the button is hidden on
        one's own profile, otherwise the follow-state listener is attached. */
    method CheckFollowState()
      requires Valid() && hasBinding
      modifies this`buttonVisible, this`stateListenerAttached
      ensures Valid()
      ensures currentUserId.None? || targetUserId.None? ==>
        buttonVisible == old(buttonVisible) && stateListenerAttached == old(stateListenerAttached)
      ensures currentUserId.Some? && targetUserId.Some? && currentUserId == targetUserId ==>
        !buttonVisible && stateListenerAttached == old(stateListenerAttached)
      ensures currentUserId.Some? && targetUserId.Some? && currentUserId != targetUserId ==>
        buttonVisible == old(buttonVisible) && stateListenerAttached
    {
      if currentUserId.None? || targetUserId.None? {
        return;
      }
      if currentUserId == targetUserId {
        buttonVisible := false;
        return;
      }
      stateListenerAttached := true;
    }

    method UpdateFollowButton()
      modifies this`buttonText
      ensures buttonText == if isFollowing then "Unfollow" else "Follow"
    {
      if isFollowing {
        buttonText := "Unfollow";
      } else {
        buttonText := "Follow";
      }
    }

    /** onDataChange of the follow-state listener: following exactly when
        some child of the signed-in user's following list is the target. */
    method OnFollowState(values: seq<string>)
      requires Valid() && stateListenerAttached
      modifies this`isFollowing, this`buttonText
      ensures isFollowing <==> targetUserId.value in values
      ensures buttonText == if isFollowing then "Unfollow" else "Follow"
    {
      var found, _ := ScanForValue(values, targetUserId.value);
      isFollowing := found;
      UpdateFollowButton();
    }

    /** The click listener of setupFollowButton: ignored while an operation
        is in flight, otherwise unfollow when following and follow when
        not. Either handler returns at once without both ids. */
    method Click()
      requires Valid() && hasBinding
      modifies this`isProcessingFollow, this`buttonEnabled, this`buttonText, this`flow,
        this`operationsCompleted, this`hasErrors
      ensures Valid()
      ensures old(isProcessingFollow) || currentUserId.None? || targetUserId.None? ==>
        CurrentBarrier() == old(CurrentBarrier()) && buttonText == old(buttonText)
      ensures !old(isProcessingFollow) && currentUserId.Some? && targetUserId.Some? ==>
        && CurrentBarrier() == Start(if isFollowing then Unfollowing else Following, toasts)
        && buttonText == if isFollowing then "Unfollowing..." else "Following..."
    {
      if isProcessingFollow {
        return;
      }
      if currentUserId.None? || targetUserId.None? {
        return;
      }
      isProcessingFollow, buttonEnabled := true, false;
      buttonText := if isFollowing then "Unfollowing..." else "Following...";
      flow := if isFollowing then Unfollowing else Following;
      operationsCompleted, hasErrors := 0, false;
    }

    /** A completion callback of the operation in flight, then
        checkCompletion. Every callback arrives while the barrier is open:
        each operation reports once and the barrier closes on the fourth.
        Closing it re-enables the button through the binding, which throws
        once the view is gone: the app crashes before the closing toast. */
    method OnReport(r: Report)
      requires Valid() && isProcessingFollow
      modifies this`isProcessingFollow, this`buttonEnabled, this`operationsCompleted, this`hasErrors, this`toasts,
        this`crashed
      ensures Valid()
      ensures crashed <==> !hasBinding && Complete(old(CurrentBarrier()), r).completed >= TotalOperations
      ensures !crashed ==> CurrentBarrier() == Complete(old(CurrentBarrier()), r)
      ensures crashed ==>
        CurrentBarrier() == Complete(old(CurrentBarrier()), r).(toasts := old(toasts) + ReportToasts(flow, r))
    {
      if flow == Unfollowing && r == Report(FollowersCount, false) {
        toasts := toasts + [FollowerCountToast];
      }
      if !r.ok {
        hasErrors := true;
      }
      operationsCompleted := operationsCompleted + 1;
      if operationsCompleted >= TotalOperations {
        isProcessingFollow := false;
        if !hasBinding {
          crashed := true;
          return;
        }
        buttonEnabled := true;
        if hasErrors {
          toasts := toasts + [SomeFailedToast];
        }
      }
    }

    /** One list-removal path of unfollowUser, from the read to
        checkCompletion: the scan finds the first child holding the other
        user's id, whose removal succeeds or not; a missing entry or a
        cancelled read ends the path too. Every path reports exactly once. */
    method OnUnfollowListRead(op: Op, read: ListRead, removeSucceeds: bool) returns (remaining: Option<seq<string>>)
      requires Valid() && isProcessingFollow && flow == Unfollowing
      requires op == FollowingList || op == FollowersList
      modifies this`isProcessingFollow, this`buttonEnabled, this`operationsCompleted, this`hasErrors, this`toasts,
        this`crashed
      ensures Valid()
      ensures var id := if op == FollowingList then targetUserId.value else currentUserId.value;
        var c := Complete(old(CurrentBarrier()), Report(op, RemovalOk(read, id, removeSucceeds)));
        && (crashed <==> !hasBinding && c.completed >= TotalOperations)
        && (!crashed ==> CurrentBarrier() == c)
        && (crashed ==> CurrentBarrier() == c.(toasts := old(toasts)))
        && remaining == AfterRemoval(read, id, removeSucceeds)
    {
      var id := if op == FollowingList then targetUserId.value else currentUserId.value;
      var ok;
      ok, remaining := RemovalPath(read, id, removeSucceeds);
      OnReport(Report(op, ok));
    }
  }
}
