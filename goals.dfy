/**
 * GoalService: savings goals of a user, created and edited from a GoalDto,
 * contributions capped at the target, and the goal statistics.
 *
 * `currentAmount` is never null once a goal is stored (the entity's
 * pre-persist hook sets it to zero and an edit only overwrites it with a
 * non-null value), so it is a plain `real` here. Timestamps are seconds of
 * one clock, passed in as `now`.
 */
module Goals {
  import opened Wrappers
  import opened Numbers
  import opened Calendar
  import opened Decimal

  /** A Goal row with its owner. */
  datatype Goal = Goal(id: int, owner: int, title: string, description: Option<string>,
                       target: Option<real>, current: real, targetDate: Option<Day>,
                       category: Option<string>, icon: Option<string>, color: Option<string>,
                       monthly: Option<real>, createdAt: Option<int>, updatedAt: Option<int>)

  /** A GoalDto, as the client sends it and as `toDto` fills it. */
  datatype GoalDto = GoalDto(id: Option<int>, title: string, description: Option<string>,
                             target: Option<real>, current: Option<real>, targetDate: Option<Day>,
                             category: Option<string>, icon: Option<string>, color: Option<string>,
                             monthly: Option<real>)

  /** `toDto`. */
  function View(g: Goal): GoalDto {
    GoalDto(Some(g.id), g.title, g.description, g.target, Some(g.current), g.targetDate,
            g.category, g.icon, g.color, g.monthly)
  }

  /** `updateEntity`: every editable field from the DTO, except a null current amount keeps the old one. */
  function UpdateEntity(g: Goal, d: GoalDto): (r: Goal)
    ensures r.id == g.id && r.owner == g.owner && r.createdAt == g.createdAt && r.updatedAt == g.updatedAt
  {
    g.(title := d.title, description := d.description, target := d.target,
       current := if d.current.Some? then d.current.value else g.current,
       targetDate := d.targetDate, category := d.category, icon := d.icon, color := d.color,
       monthly := d.monthly)
  }

  /** Reading back an edited goal gives the DTO that edited it, with the goal's id and, for a null amount, the old amount. */
  lemma EditThenView(g: Goal, d: GoalDto)
    ensures View(UpdateEntity(g, d)) == d.(id := Some(g.id), current := Some(d.current.GetOr(g.current)))
  {
  }

  /** Editing twice with the same DTO is the same as editing once. */
  lemma EditIdempotent(g: Goal, d: GoalDto)
    ensures UpdateEntity(UpdateEntity(g, d), d) == UpdateEntity(g, d)
  {
  }

  // ------------------------------------------------------------ contribute

  /** The amount after a contribution: the sum, cut down to the target when it exceeds one. */
  function Capped(x: real, target: Option<real>): (r: real)
    ensures target.Some? ==> r <= target.value
    ensures target.None? || x <= target.value ==> r == x
    ensures target.Some? && x > target.value ==> r == target.value
  {
    if target.Some? && x > target.value then target.value else x
  }

  /** The goal after `contribute(amount, newMonthlyContribution)`. */
  function Contributed(g: Goal, amount: Option<real>, monthly: Option<real>): Goal {
    g.(current := if amount.Some? then Capped(g.current + amount.value, g.target) else g.current,
       monthly := if monthly.Some? then monthly else g.monthly)
  }

  /** A goal counts as completed when its current amount has reached its target. */
  predicate Completed(g: Goal) {
    g.target.Some? && g.current >= g.target.value
  }

  /** A contribution that reaches the target completes the goal exactly at the target. */
  lemma ContributionCompletes(g: Goal, amount: real)
    requires g.target.Some? && g.current + amount >= g.target.value
    ensures Completed(Contributed(g, Some(amount), None))
    ensures Contributed(g, Some(amount), None).current == g.target.value
  {
  }

  /** A contribution that stays below the target is added in full and leaves the goal active. */
  lemma ContributionBelowTarget(g: Goal, amount: real)
    requires g.target.Some? && g.current + amount < g.target.value
    ensures Contributed(g, Some(amount), None).current == g.current + amount
    ensures !Completed(Contributed(g, Some(amount), None))
  {
  }

  /** Once a goal sits at its target, further non-negative contributions leave it there. */
  lemma ContributionAtTargetStays(g: Goal, amount: real)
    requires g.target.Some? && g.current == g.target.value && amount >= 0.0
    ensures Contributed(g, Some(amount), None) == g
  {
  }

  // ----------------------------------------------------------------- stats

  /** A GoalStatsDto. */
  datatype Stats = Stats(totalGoals: nat, activeGoals: int, completedGoals: nat,
                         totalSaved: real, monthlyTarget: real, averageProgressPercent: real)

  function CompletedCount(gs: seq<Goal>): (n: nat)
    ensures n <= |gs|
  {
    if gs == [] then 0 else CompletedCount(gs[..|gs| - 1]) + (if Completed(gs[|gs| - 1]) then 1 else 0)
  }

  function SavedTotal(gs: seq<Goal>): real {
    if gs == [] then 0.0 else gs[0].current + SavedTotal(gs[1..])
  }

  function MonthlyTotal(gs: seq<Goal>): real {
    if gs == [] then 0.0 else gs[0].monthly.GetOr(0.0) + MonthlyTotal(gs[1..])
  }

  /** Only goals with a positive target contribute a progress percentage. */
  predicate HasTarget(g: Goal) {
    g.target.Some? && g.target.value > 0.0
  }

  /** A goal's progress: 100·current/target rounded to two places, half up. */
  function Progress(g: Goal): real
    requires HasTarget(g)
  {
    RoundHalfUp(g.current * 100.0 / g.target.value, 2)
  }

  function ProgressSum(gs: seq<Goal>): real {
    if gs == [] then 0.0 else (if HasTarget(gs[0]) then Progress(gs[0]) else 0.0) + ProgressSum(gs[1..])
  }

  /** `stats` over the user's goals. */
  function StatsOf(gs: seq<Goal>): (s: Stats)
    ensures s.totalGoals == |gs|
    ensures s.activeGoals + s.completedGoals == s.totalGoals && s.activeGoals >= 0
  {
    var total := |gs|;
    var completed := CompletedCount(gs);
    Stats(total, total - completed, completed, SavedTotal(gs), MonthlyTotal(gs),
          if total > 0 then RoundHalfUp(ProgressSum(gs) / total as real, 2) else 0.0)
  }

  /** completedGoals counts exactly the goals whose amount has reached their target. */
  lemma {:induction false} CompletedCountSpec(gs: seq<Goal>)
    ensures CompletedCount(gs) == |set i | 0 <= i < |gs| && Completed(gs[i])|
  {
    if gs != [] {
      var n := |gs| - 1;
      CompletedCountSpec(gs[..n]);
      var before := set i | 0 <= i < n && Completed(gs[..n][i]);
      var all := set i | 0 <= i < |gs| && Completed(gs[i]);
      assert before == set i | 0 <= i < n && Completed(gs[i]);
      if Completed(gs[n]) {
        assert all == before + {n};
      } else {
        assert all == before;
      }
    }
  }

  /** A goal set where each goal has a target and an amount between zero and it. */
  predicate OnTrack(gs: seq<Goal>) {
    forall i :: 0 <= i < |gs| ==> HasTarget(gs[i]) && 0.0 <= gs[i].current <= gs[i].target.value
  }

  lemma {:induction false} ProgressSumBounds(gs: seq<Goal>)
    requires OnTrack(gs)
    ensures 0.0 <= ProgressSum(gs) <= 100.0 * |gs| as real
  {
    if gs != [] {
      var g := gs[0];
      assert OnTrack(gs[1..]) by {
        forall i | 0 <= i < |gs| - 1 ensures HasTarget(gs[1..][i]) && 0.0 <= gs[1..][i].current <= gs[1..][i].target.value {
          assert gs[1..][i] == gs[i + 1];
        }
      }
      ProgressSumBounds(gs[1..]);
      var t := g.target.value;
      DivAtMost(g.current * 100.0, t, 100.0);
      DivAtLeast(g.current * 100.0, t, 0.0);
      RoundKeepsWholeUpper(g.current * 100.0 / t, 100, 2);
    }
  }

  /** When every goal has a target and lies between zero and it, the average progress is a percentage. */
  lemma AverageProgressBounds(gs: seq<Goal>)
    requires OnTrack(gs)
    ensures 0.0 <= StatsOf(gs).averageProgressPercent <= 100.0
  {
    if |gs| > 0 {
      ProgressSumBounds(gs);
      var n := |gs| as real;
      DivAtMost(ProgressSum(gs), n, 100.0);
      DivAtLeast(ProgressSum(gs), n, 0.0);
      RoundKeepsWholeUpper(ProgressSum(gs) / n, 100, 2);
    }
  }

  /** Goals all completed exactly at their targets show 100% average progress. */
  lemma {:induction false} ProgressSumFull(gs: seq<Goal>)
    requires forall i :: 0 <= i < |gs| ==> HasTarget(gs[i]) && gs[i].current == gs[i].target.value
    ensures ProgressSum(gs) == 100.0 * |gs| as real
  {
    if gs != [] {
      var t := gs[0].target.value;
      assert gs[0].current * 100.0 / t == 100.0;
      assert Units(100.0, Pow10(2) as real) == 10000;
      ProgressSumFull(gs[1..]);
    }
  }

  /** Goals that all sit exactly at their positive targets average 100% progress. */
  lemma AverageProgressFull(gs: seq<Goal>)
    requires |gs| > 0
    requires forall i :: 0 <= i < |gs| ==> HasTarget(gs[i]) && gs[i].current == gs[i].target.value
    ensures StatsOf(gs).averageProgressPercent == 100.0
    ensures StatsOf(gs).completedGoals == |gs|
  {
    ProgressSumFull(gs);
    CompletedAll(gs);
    assert ProgressSum(gs) / |gs| as real == 100.0;
    assert Units(100.0, Pow10(2) as real) == 10000;
  }

  lemma {:induction false} CompletedAll(gs: seq<Goal>)
    requires forall i :: 0 <= i < |gs| ==> Completed(gs[i])
    ensures CompletedCount(gs) == |gs|
  {
    if gs != [] {
      var n := |gs| - 1;
      assert forall i :: 0 <= i < n ==> gs[..n][i] == gs[i];
      CompletedAll(gs[..n]);
    }
  }

  // ------------------------------------------------------------ repository

  /** Index of the user's goal with this id (`findByIdAndUser`). */
  function FindGoal(rows: seq<Goal>, id: int, user: int): (k: Option<nat>)
    ensures k.Some? ==> k.value < |rows| && rows[k.value].id == id && rows[k.value].owner == user
    ensures k.None? ==> forall i :: 0 <= i < |rows| ==> !(rows[i].id == id && rows[i].owner == user)
  {
    if rows == [] then None
    else if rows[0].id == id && rows[0].owner == user then Some(0)
    else
      var k := FindGoal(rows[1..], id, user);
      if k.Some? then Some(k.value + 1) else None
  }

  function UserGoals(rows: seq<Goal>, user: int): (r: seq<Goal>)
    ensures forall g :: g in r <==> g in rows && g.owner == user
  {
    if rows == [] then []
    else (if rows[0].owner == user then [rows[0]] else []) + UserGoals(rows[1..], user)
  }

  class GoalBook {
    var rows: seq<Goal>
    var nextId: int

    /** Ids are unique and below the next one to hand out. */
    predicate Valid()
      reads this
    {
      && (forall i :: 0 <= i < |rows| ==> rows[i].id < nextId)
      && (forall i, j :: 0 <= i < j < |rows| ==> rows[i].id != rows[j].id)
    }

    constructor()
      ensures rows == [] && nextId == 1 && Valid()
    {
      rows := [];
      nextId := 1;
    }

    /** `list`. */
    function List(user: int): seq<GoalDto>
      reads this
    {
      var gs := UserGoals(rows, user);
      seq(|gs|, i requires 0 <= i < |gs| => View(gs[i]))
    }

    /** `create`: a new goal of the user from the DTO, its amount zero when none is given. */
    method Create(user: int, d: GoalDto, now: int) returns (r: GoalDto)
      requires Valid()
      modifies this
      ensures Valid()
      ensures var g := Goal(old(nextId), user, d.title, d.description, d.target, d.current.GetOr(0.0), d.targetDate,
                            d.category, d.icon, d.color, d.monthly, Some(now), Some(now));
        rows == old(rows) + [g] && r == View(g)
      ensures nextId == old(nextId) + 1
    {
      var blank := Goal(nextId, user, "", None, None, 0.0, None, None, None, None, None, None, None);
      var g := UpdateEntity(blank, d);
      g := g.(createdAt := Some(now), updatedAt := Some(now));
      rows := rows + [g];
      nextId := nextId + 1;
      r := View(g);
    }

    /** `update`: edits the user's goal; `None` (NoSuchElementException) when the user has no goal with that id. */
    method Update(user: int, id: int, d: GoalDto, now: int) returns (r: Option<GoalDto>)
      requires Valid()
      modifies this
      ensures Valid() && nextId == old(nextId)
      ensures var k := FindGoal(old(rows), id, user);
        k.None? ==> r.None? && rows == old(rows)
      ensures var k := FindGoal(old(rows), id, user);
        k.Some? ==> (rows == old(rows)[k.value := UpdateEntity(old(rows)[k.value], d).(updatedAt := Some(now))]
                     && r == Some(View(rows[k.value])))
    {
      var k := FindGoal(rows, id, user);
      if k.None? {
        return None;
      }
      var g := UpdateEntity(rows[k.value], d).(updatedAt := Some(now));
      rows := rows[k.value := g];
      return Some(View(g));
    }

    /** `delete`: removes the user's goal; false (NoSuchElementException) when there is none. */
    method Delete(user: int, id: int) returns (found: bool)
      requires Valid()
      modifies this
      ensures Valid() && nextId == old(nextId)
      ensures var k := FindGoal(old(rows), id, user);
        found == k.Some? && (k.None? ==> rows == old(rows))
        && (k.Some? ==> rows == old(rows)[..k.value] + old(rows)[k.value + 1..])
    {
      var k := FindGoal(rows, id, user);
      if k.None? {
        return false;
      }
      rows := rows[..k.value] + rows[k.value + 1..];
      return true;
    }

    /**
     * `contribute`: adds the amount to the goal's current amount, capped at
     * the target, and replaces the monthly contribution when one is given.
     */
    method Contribute(user: int, id: int, amount: Option<real>, monthly: Option<real>, now: int) returns (r: Option<GoalDto>)
      requires Valid()
      modifies this
      ensures Valid() && nextId == old(nextId)
      ensures var k := FindGoal(old(rows), id, user);
        k.None? ==> r.None? && rows == old(rows)
      ensures var k := FindGoal(old(rows), id, user);
        k.Some? ==> (rows == old(rows)[k.value := Contributed(old(rows)[k.value], amount, monthly).(updatedAt := Some(now))]
                     && r == Some(View(rows[k.value])))
    {
      var k := FindGoal(rows, id, user);
      if k.None? {
        return None;
      }
      var g := rows[k.value];
      if amount.Some? {
        var updated := g.current + amount.value;
        if g.target.Some? && updated > g.target.value {
          updated := g.target.value;
        }
        g := g.(current := updated);
      }
      if monthly.Some? {
        g := g.(monthly := monthly);
      }
      g := g.(updatedAt := Some(now));
      rows := rows[k.value := g];
      return Some(View(g));
    }

    /** `stats`. */
    function StatsFor(user: int): (s: Stats)
      reads this
      ensures s == StatsOf(UserGoals(rows, user))
    {
      StatsOf(UserGoals(rows, user))
    }
  }
}
