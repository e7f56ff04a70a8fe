/**
 * The savings goals list of `hooks/useGoals.jsx`: a list held in component
 * state, loaded once from local storage, and changed by appending a goal,
 * replacing the goals with a given id, and removing the goals with an id.
 * A goal's id is the clock in milliseconds as a decimal string.
 */
module Goals {

  /** The fields the goal form supplies, by name; they are carried as they are. */
  type GoalData = map<string, string>

  datatype Goal = Goal(id: string, createdAt: string, details: GoalData)

  /** What local storage held under "financial-goals". */
  datatype Stored = NoItem | Unparsable | Parsed(goals: seq<Goal>)

  /** `n.toString()` for a whole number. */
  function DecimalString(n: nat): (r: string)
    ensures |r| >= 1
    ensures forall i :: 0 <= i < |r| ==> '0' <= r[i] <= '9'
    decreases n
  {
    var digit := ['0' + (n % 10) as char];
    if n < 10 then digit else DecimalString(n / 10) + digit
  }

  /** The number a string of decimal digits denotes, most significant digit first. */
  function DigitsValue(s: string): nat
    requires forall i :: 0 <= i < |s| ==> '0' <= s[i] <= '9'
  {
    if s == [] then 0 else DigitsValue(s[..|s| - 1]) * 10 + (s[|s| - 1] - '0') as nat
  }

  /** `String(n)` denotes `n`: the digits read back give the number. */
  lemma {:induction false} DecimalStringValue(n: nat)
    ensures DigitsValue(DecimalString(n)) == n
    decreases n
  {
    var s := DecimalString(n);
    if n >= 10 {
      assert s[..|s| - 1] == DecimalString(n / 10);
      DecimalStringValue(n / 10);
    } else {
      assert s[..|s| - 1] == [];
    }
  }

  /** Two clock readings give the same goal id only when they are equal. */
  lemma DecimalStringInjective(a: nat, b: nat)
    ensures DecimalString(a) == DecimalString(b) <==> a == b
  {
    DecimalStringValue(a);
    DecimalStringValue(b);
  }

  /** `[...prev, newGoal]`, the new goal stamped with the clock's id and time. */
  function AppendGoal(goals: seq<Goal>, data: GoalData, nowMs: nat, createdAt: string): (r: seq<Goal>)
    ensures |r| == |goals| + 1 && r[..|goals|] == goals
    ensures r[|goals|].id == DecimalString(nowMs) && r[|goals|].details == data && r[|goals|].createdAt == createdAt
  {
    goals + [Goal(DecimalString(nowMs), createdAt, data)]
  }

  /** `prev.map(goal => goal.id === updated.id ? updated : goal)` */
  function ReplaceById(goals: seq<Goal>, updated: Goal): (r: seq<Goal>)
    ensures |r| == |goals|
    ensures forall i :: 0 <= i < |goals| && goals[i].id == updated.id ==> r[i] == updated
    ensures forall i :: 0 <= i < |goals| && goals[i].id != updated.id ==> r[i] == goals[i]
    decreases |goals|
  {
    if goals == [] then []
    else [if goals[0].id == updated.id then updated else goals[0]] + ReplaceById(goals[1..], updated)
  }

  /** `prev.filter(goal => goal.id !== goalId)` */
  function RemoveById(goals: seq<Goal>, goalId: string): (r: seq<Goal>)
    ensures |r| <= |goals|
    ensures forall g :: g in r <==> g in goals && g.id != goalId
    decreases |goals|
  {
    if goals == [] then []
    else
      assert goals == [goals[0]] + goals[1..];
      (if goals[0].id != goalId then [goals[0]] else []) + RemoveById(goals[1..], goalId)
  }

  predicate HasId(goals: seq<Goal>, goalId: string) {
    exists i :: 0 <= i < |goals| && goals[i].id == goalId
  }

  /** Replacing or removing an id no goal has leaves the list as it was. */
  lemma {:induction false} AbsentIdChangesNothing(goals: seq<Goal>, updated: Goal, goalId: string)
    requires !HasId(goals, goalId) && !HasId(goals, updated.id)
    ensures ReplaceById(goals, updated) == goals
    ensures RemoveById(goals, goalId) == goals
    decreases |goals|
  {
    if goals != [] {
      assert !HasId(goals[1..], goalId) && !HasId(goals[1..], updated.id) by {
        forall i | 0 <= i < |goals[1..]|
          ensures goals[1..][i].id != goalId && goals[1..][i].id != updated.id
        {
          assert goals[1..][i] == goals[i + 1];
        }
      }
      assert goals[0].id != goalId && goals[0].id != updated.id;
      AbsentIdChangesNothing(goals[1..], updated, goalId);
    }
  }

  /** Removal keeps order: it works piecewise over a split list. */
  lemma {:induction false} RemoveByIdSplits(a: seq<Goal>, b: seq<Goal>, goalId: string)
    ensures RemoveById(a + b, goalId) == RemoveById(a, goalId) + RemoveById(b, goalId)
    decreases |a|
  {
    if a == [] {
      assert a + b == b;
    } else {
      assert (a + b)[0] == a[0];
      assert (a + b)[1..] == a[1..] + b;
      RemoveByIdSplits(a[1..], b, goalId);
    }
  }

  /** How many goals carry `goalId`. */
  function CountId(goals: seq<Goal>, goalId: string): nat
    decreases |goals|
  {
    if goals == [] then 0 else (if goals[0].id == goalId then 1 else 0) + CountId(goals[1..], goalId)
  }

  /** Removal takes away exactly the goals with the id: no fewer, however many share it. */
  lemma {:induction false} RemoveByIdCount(goals: seq<Goal>, goalId: string)
    ensures |RemoveById(goals, goalId)| + CountId(goals, goalId) == |goals|
    decreases |goals|
  {
    if goals != [] {
      RemoveByIdCount(goals[1..], goalId);
    }
  }

  /**
   * Two goals added in the same millisecond share their id: a later update
   * replaces both with the one goal, and a delete removes both.
   */
  lemma SameMillisecondCollision(goals: seq<Goal>, a: GoalData, b: GoalData, nowMs: nat, createdAt: string, updated: Goal)
    requires updated.id == DecimalString(nowMs)
    ensures var two := AppendGoal(AppendGoal(goals, a, nowMs, createdAt), b, nowMs, createdAt);
      two[|goals|].id == two[|goals| + 1].id &&
      ReplaceById(two, updated)[|goals|] == updated && ReplaceById(two, updated)[|goals| + 1] == updated &&
      RemoveById(two, DecimalString(nowMs)) == RemoveById(goals, DecimalString(nowMs))
  {
    var one := AppendGoal(goals, a, nowMs, createdAt);
    var two := AppendGoal(one, b, nowMs, createdAt);
    assert two == goals + [two[|goals|], two[|goals| + 1]];
    RemoveByIdSplits(goals, [two[|goals|], two[|goals| + 1]], DecimalString(nowMs));
    assert RemoveById([two[|goals|], two[|goals| + 1]], DecimalString(nowMs)) == [] by {
      assert [two[|goals|], two[|goals| + 1]][1..] == [two[|goals| + 1]];
    }
    assert RemoveById(goals, DecimalString(nowMs)) + [] == RemoveById(goals, DecimalString(nowMs));
  }

  /** The hook's `goals` state. Writing the list back to local storage on each change is not modelled. */
  class GoalsHook {
    var goals: seq<Goal>

    constructor ()
      ensures goals == []
    {
      goals := [];
    }

    /**
     * The mount effect: a stored list that parses replaces the state; a
     * missing item, or one that fails to parse (the error is only logged),
     * leaves it as it was.
     */
    method Load(stored: Stored)
      modifies this
      ensures stored.Parsed? ==> goals == stored.goals
      ensures !stored.Parsed? ==> goals == old(goals)
    {
      match stored
      case Parsed(saved) => goals := saved;
      case _ =>
    }

    method AddGoal(data: GoalData, nowMs: nat, createdAt: string)
      modifies this
      ensures goals == AppendGoal(old(goals), data, nowMs, createdAt)
    {
      goals := goals + [Goal(DecimalString(nowMs), createdAt, data)];
    }

    method UpdateGoal(updated: Goal)
      modifies this
      ensures goals == ReplaceById(old(goals), updated)
    {
      goals := ReplaceById(goals, updated);
    }

    method DeleteGoal(goalId: string)
      modifies this
      ensures goals == RemoveById(old(goals), goalId)
    {
      goals := RemoveById(goals, goalId);
    }
  }
}
