/** The savings-goals page: loading the goals with their progress, the split
    into active and completed goals, the amount still to save, when the
    Complete action is offered, the progress-update guard, and the colour
    and label rules. */
module GoalsPage {
  import opened Wrappers
  import opened Domain
  import JsNumber
  import Text

  /** The goals whose status is `status`, in their order. */
  function WithStatus(gs: seq<Goal>, status: string): (r: seq<Goal>)
    ensures |r| <= |gs|
  {
    if gs == [] then []
    else
      var last := gs[|gs| - 1];
      WithStatus(gs[..|gs| - 1], status) + (if last.status == status then [last] else [])
  }

  lemma {:induction false} WithStatusMembers(gs: seq<Goal>, status: string)
    ensures forall g :: g in WithStatus(gs, status) <==> g in gs && g.status == status
    decreases |gs|
  {
    if gs != [] {
      WithStatusMembers(gs[..|gs| - 1], status);
      assert gs == gs[..|gs| - 1] + [gs[|gs| - 1]];
    }
  }

  lemma {:induction false} WithStatusConcat(a: seq<Goal>, b: seq<Goal>, status: string)
    ensures WithStatus(a + b, status) == WithStatus(a, status) + WithStatus(b, status)
    decreases |b|
  {
    if b == [] {
      assert a + b == a;
    } else {
      assert (a + b)[..|a + b| - 1] == a + b[..|b| - 1];
      WithStatusConcat(a, b[..|b| - 1], status);
    }
  }

  lemma {:induction false} WithStatusNone(gs: seq<Goal>, status: string)
    requires forall g :: g in gs ==> g.status != status
    ensures WithStatus(gs, status) == []
    decreases |gs|
  {
    if gs != [] {
      assert forall g :: g in gs[..|gs| - 1] ==> g in gs;
      WithStatusNone(gs[..|gs| - 1], status);
      assert gs[|gs| - 1] in gs;
    }
  }

  /** `goals.filter(g => g.status === 'IN_PROGRESS')`. */
  function ActiveGoals(gs: seq<Goal>): seq<Goal>
  {
    WithStatus(gs, "IN_PROGRESS")
  }

  /** `goals.filter(g => g.status === 'COMPLETED')`. */
  function CompletedGoals(gs: seq<Goal>): seq<Goal>
  {
    WithStatus(gs, "COMPLETED")
  }

  /** A goal is active exactly when it is IN_PROGRESS and completed exactly
      when it is COMPLETED, so no goal is both, and a CANCELLED goal (or one
      with any other status) is neither. */
  lemma ActiveAndCompletedPartition(gs: seq<Goal>)
    ensures forall g :: g in ActiveGoals(gs) <==> g in gs && g.status == "IN_PROGRESS"
    ensures forall g :: g in CompletedGoals(gs) <==> g in gs && g.status == "COMPLETED"
    ensures forall g :: !(g in ActiveGoals(gs) && g in CompletedGoals(gs))
    ensures forall g: Goal :: g.status == "CANCELLED" ==> g !in ActiveGoals(gs) && g !in CompletedGoals(gs)
  {
    WithStatusMembers(gs, "IN_PROGRESS");
    WithStatusMembers(gs, "COMPLETED");
    assert "IN_PROGRESS" != "COMPLETED" && "CANCELLED" != "IN_PROGRESS" && "CANCELLED" != "COMPLETED";
  }

  /** The amounts still missing from `gs`, added up. */
  function Remaining(gs: seq<Goal>): real
  {
    if gs == [] then 0.0 else Remaining(gs[..|gs| - 1]) + (gs[|gs| - 1].targetAmount - gs[|gs| - 1].currentAmount)
  }

  /** The "Total à Économiser" card: the reduce over the active goals. */
  function TotalToSave(gs: seq<Goal>): real
  {
    Remaining(ActiveGoals(gs))
  }

  lemma {:induction false} RemainingConcat(a: seq<Goal>, b: seq<Goal>)
    ensures Remaining(a + b) == Remaining(a) + Remaining(b)
    decreases |b|
  {
    if b == [] {
      assert a + b == a;
    } else {
      assert (a + b)[..|a + b| - 1] == a + b[..|b| - 1];
      RemainingConcat(a, b[..|b| - 1]);
    }
  }

  /** The total is 0 without active goals; a further goal adds what it still
      misses when it is active and nothing otherwise. */
  lemma TotalToSaveSteps(gs: seq<Goal>, g: Goal)
    ensures (forall h :: h in gs ==> h.status != "IN_PROGRESS") ==> TotalToSave(gs) == 0.0
    ensures TotalToSave(gs + [g]) ==
      TotalToSave(gs) + (if g.status == "IN_PROGRESS" then g.targetAmount - g.currentAmount else 0.0)
  {
    WithStatusMembers(gs, "IN_PROGRESS");
    if forall h :: h in gs ==> h.status != "IN_PROGRESS" {
      WithStatusNone(gs, "IN_PROGRESS");
    }
    WithStatusConcat(gs, [g], "IN_PROGRESS");
    assert WithStatus([g], "IN_PROGRESS") == (if g.status == "IN_PROGRESS" then [g] else []) by {
      assert [g][..0] == [];
    }
    RemainingConcat(ActiveGoals(gs), WithStatus([g], "IN_PROGRESS"));
    assert Remaining([g]) == g.targetAmount - g.currentAmount by {
      assert [g][..0] == [];
    }
  }

  /** No active goal beyond its target makes the total negative. */
  lemma {:induction false} RemainingNonNegative(gs: seq<Goal>)
    requires forall g :: g in gs ==> g.currentAmount <= g.targetAmount
    ensures Remaining(gs) >= 0.0
    decreases |gs|
  {
    if gs != [] {
      assert forall g :: g in gs[..|gs| - 1] ==> g in gs;
      RemainingNonNegative(gs[..|gs| - 1]);
      assert gs[|gs| - 1] in gs;
    }
  }

  /** `progressPercentage = (currentAmount / targetAmount) * 100`. */
  function ProgressPercentage(g: Goal): JsNumber.Num
  {
    JsNumber.Percentage(g.currentAmount, g.targetAmount)
  }

  /** The Complete button: drawn on an active goal's card when its
      percentage is at least 100. */
  predicate CompleteOffered(g: Goal)
  {
    g.status == "IN_PROGRESS" && JsNumber.AtLeast(ProgressPercentage(g), 100.0)
  }

  /** Completion is offered for an active goal exactly when the saved amount
      has reached a positive target (or passed a negative one), or when any
      positive amount is saved towards a zero target (the percentage is then
      Infinity); 0 / 0 is NaN and offers nothing. */
  lemma CompleteOfferedIff(g: Goal)
    ensures CompleteOffered(g) <==>
      (g.status == "IN_PROGRESS" &&
       ((g.targetAmount > 0.0 && g.currentAmount >= g.targetAmount) ||
        (g.targetAmount == 0.0 && g.currentAmount > 0.0) ||
        (g.targetAmount < 0.0 && g.currentAmount <= g.targetAmount)))
  {
    JsNumber.PercentageAtLeast(g.currentAmount, g.targetAmount);
  }

  /** The progress records kept after the per-goal loop: each goal whose
      progress request succeeded maps its id to the reply, a later goal with
      the same id overwriting an earlier one. */
  function ProgressMap(gs: seq<Goal>, replies: seq<Result<GoalProgress, string>>): map<int, GoalProgress>
    requires |replies| == |gs|
  {
    if gs == [] then map[]
    else
      var n := |gs| - 1;
      var before := ProgressMap(gs[..n], replies[..n]);
      if replies[n].Success? then before[gs[n].id := replies[n].value] else before
  }

  /** Request `i` is the last successful one for `id`. */
  predicate LastSuccessAt(gs: seq<Goal>, replies: seq<Result<GoalProgress, string>>, id: int, i: int)
    requires |replies| == |gs|
  {
    0 <= i < |gs| && gs[i].id == id && replies[i].Success? &&
    forall j :: i < j < |gs| && gs[j].id == id ==> replies[j].Failure?
  }

  /** A goal has progress exactly when at least one request for its id
      succeeded, and the record kept is the reply to the last such request;
      a failure for one goal does not affect any other. */
  lemma {:induction false} ProgressMapContents(gs: seq<Goal>, replies: seq<Result<GoalProgress, string>>, id: int)
    requires |replies| == |gs|
    ensures id in ProgressMap(gs, replies) <==> exists i :: 0 <= i < |gs| && gs[i].id == id && replies[i].Success?
    ensures id in ProgressMap(gs, replies) ==>
      exists i :: LastSuccessAt(gs, replies, id, i) && ProgressMap(gs, replies)[id] == replies[i].value
    decreases |gs|
  {
    if gs != [] {
      var n := |gs| - 1;
      var gs', replies' := gs[..n], replies[..n];
      ProgressMapContents(gs', replies', id);
      if replies[n].Success? && gs[n].id == id {
        assert LastSuccessAt(gs, replies, id, n);
      } else {
        if id in ProgressMap(gs', replies') {
          var i :| LastSuccessAt(gs', replies', id, i) && ProgressMap(gs', replies')[id] == replies'[i].value;
          assert LastSuccessAt(gs, replies, id, i);
        }
        if exists i :: 0 <= i < |gs| && gs[i].id == id && replies[i].Success? {
          var i :| 0 <= i < |gs| && gs[i].id == id && replies[i].Success?;
          assert i < n;
          assert gs'[i].id == id && replies'[i].Success?;
        }
      }
    }
  }

  /** The page state the goal operations change. */
  class GoalsView {
    var goals: seq<Goal>
    var progress: map<int, GoalProgress>
    var isLoading: bool
    var progressDialogGoal: Option<Goal>
    var progressAmount: string

    constructor ()
      ensures goals == [] && progress == map[] && isLoading
      ensures progressDialogGoal == None && progressAmount == ""
    {
      goals := [];
      progress := map[];
      isLoading := true;
      progressDialogGoal := None;
      progressAmount := "";
    }

    /** `fetchGoals`: on a listed reply, the goals become the list and the
        progress map is filled goal by goal, skipping failed requests; on a
        failed list nothing else changes. Loading stops on both paths. */
    method FetchGoals(listReply: Result<seq<Goal>, string>, replies: seq<Result<GoalProgress, string>>)
      requires listReply.Success? ==> |replies| == |listReply.value|
      modifies this
      ensures !isLoading
      ensures listReply.Success? ==> goals == listReply.value && progress == ProgressMap(listReply.value, replies)
      ensures listReply.Failure? ==> goals == old(goals) && progress == old(progress)
      ensures progressDialogGoal == old(progressDialogGoal) && progressAmount == old(progressAmount)
    {
      if listReply.Success? {
        var data := listReply.value;
        goals := data;
        var progressMap: map<int, GoalProgress> := map[];
        for i := 0 to |data|
          invariant progressMap == ProgressMap(data[..i], replies[..i])
        {
          assert data[..i + 1][..i] == data[..i] && replies[..i + 1][..i] == replies[..i];
          if replies[i].Success? {
            progressMap := progressMap[data[i].id := replies[i].value];
          }
        }
        assert data[..|data|] == data && replies[..|replies|] == replies;
        progress := progressMap;
      }
      isLoading := false;
    }

    /** `handleUpdateProgress`: nothing at all without a selected goal or
        with an empty amount; otherwise the request for that goal with the
        parsed amount is sent, and after success the dialog closes and the
        amount is cleared, while after failure both stay. */
    method HandleUpdateProgress(reply: Result<Goal, string>) returns (sent: Option<(int, Option<real>)>)
      modifies this
      ensures sent.None? <==> old(progressDialogGoal).None? || old(progressAmount) == ""
      ensures sent.Some? ==> sent.value == (old(progressDialogGoal).value.id, Text.ParseFloatPrefix(old(progressAmount)))
      ensures sent.Some? && reply.Success? ==> progressDialogGoal == None && progressAmount == ""
      ensures sent.None? || reply.Failure? ==>
        progressDialogGoal == old(progressDialogGoal) && progressAmount == old(progressAmount)
      ensures goals == old(goals) && progress == old(progress) && isLoading == old(isLoading)
    {
      if progressDialogGoal.None? || progressAmount == "" {
        return None;
      }
      sent := Some((progressDialogGoal.value.id, Text.ParseFloatPrefix(progressAmount)));
      if reply.Success? {
        progressDialogGoal := None;
        progressAmount := "";
      }
    }
  }

  /** `getPriorityColor`. */
  function PriorityColor(priority: string): (c: string)
    ensures priority !in {"HIGH", "MEDIUM", "LOW"} ==> c == "bg-gray-500"
    ensures c in {"bg-red-500", "bg-yellow-500", "bg-green-500", "bg-gray-500"}
  {
    if priority == "HIGH" then "bg-red-500"
    else if priority == "MEDIUM" then "bg-yellow-500"
    else if priority == "LOW" then "bg-green-500"
    else "bg-gray-500"
  }

  /** `getStatusColor`: a cancelled goal looks like an unknown one. */
  function StatusColor(status: string): (c: string)
    ensures status !in {"IN_PROGRESS", "COMPLETED"} ==> c == "bg-gray-500"
    ensures c in {"bg-blue-500", "bg-green-500", "bg-gray-500"}
  {
    if status == "IN_PROGRESS" then "bg-blue-500"
    else if status == "COMPLETED" then "bg-green-500"
    else if status == "CANCELLED" then "bg-gray-500"
    else "bg-gray-500"
  }

  /** `getProgressStatusColor`. */
  function ProgressStatusColor(status: string): (c: string)
    ensures status !in {"ON_TRACK", "AT_RISK", "ACHIEVED"} ==> c == "text-gray-500"
    ensures c in {"text-green-500", "text-yellow-500", "text-blue-500", "text-gray-500"}
  {
    if status == "ON_TRACK" then "text-green-500"
    else if status == "AT_RISK" then "text-yellow-500"
    else if status == "ACHIEVED" then "text-blue-500"
    else "text-gray-500"
  }

  /** Each colour map gives each known value its own colour, so only unknown
      values (and a cancelled status) share the gray fallback. */
  lemma ColorMapsSeparateKnownValues(a: string, b: string)
    requires a != b
    ensures a in {"HIGH", "MEDIUM", "LOW"} && b in {"HIGH", "MEDIUM", "LOW"} ==>
      PriorityColor(a) != PriorityColor(b) && PriorityColor(a) != "bg-gray-500"
    ensures a in {"IN_PROGRESS", "COMPLETED"} && b in {"IN_PROGRESS", "COMPLETED"} ==>
      StatusColor(a) != StatusColor(b) && StatusColor(a) != "bg-gray-500"
    ensures StatusColor("CANCELLED") == "bg-gray-500"
    ensures a in {"ON_TRACK", "AT_RISK", "ACHIEVED"} && b in {"ON_TRACK", "AT_RISK", "ACHIEVED"} ==>
      ProgressStatusColor(a) != ProgressStatusColor(b) && ProgressStatusColor(a) != "text-gray-500"
  {
  }

  /** The days-remaining cell: the count when positive, "Échu" otherwise. */
  function DaysLabel(daysRemaining: int): (text: string)
    ensures daysRemaining <= 0 ==> text == "Échu"
  {
    if daysRemaining > 0 then Text.IntToString(daysRemaining) else "Échu"
  }

  /** A positive count is shown as digits that read back as the count. */
  lemma DaysLabelShowsCount(daysRemaining: int)
    requires daysRemaining > 0
    ensures Text.ParseIntPrefix(DaysLabel(daysRemaining)) == Some(daysRemaining)
    ensures DaysLabel(daysRemaining) != "Échu"
  {
    Text.ParseIntRoundTrip(daysRemaining);
    assert Text.ParseIntPrefix("Échu") == None by {
      assert !Text.IsDigit('É');
    }
  }
}
