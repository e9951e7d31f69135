/** Candidate inspection: structural inspection is an exact analysis of the semantic one. */
module Inspection {

  /** A handler branch has a guard or none; a level has branches and may defer the event. */
  datatype Level = Level(guarded: seq<bool>, defers: bool)

  datatype Disposition = HandledNow | Deferred | Unhandled

  /** What a guard evaluation yields after so many steps: its value or a failure. */
  datatype Verdict = Verdict(value: bool, steps: nat) | GuardFails(steps: nat)

  /** The verdicts of all guards, by level and branch. */
  type Guards = (nat, nat) -> Verdict

  /** A guard that was evaluated, and its value. */
  datatype Evidence = Evidence(level: nat, branch: nat, value: bool)

  datatype Outcome =
    | Decided(disposition: Disposition)
    | LimitExceeded(level: nat, branch: nat)
    | GuardFailure(level: nat, branch: nat)

  // ------------------------------------------------------------------------------------------
  // Structural inspection
  // ------------------------------------------------------------------------------------------

  /** Whether dispatch can pass all of the levels. */
  predicate FallsThrough(levels: seq<Level>) {
    forall i :: 0 <= i < |levels| ==> !levels[i].defers && forall j :: 0 <= j < |levels[i].guarded| ==> levels[i].guarded[j]
  }

  /** Dispatch can reach level `i`, and there the disposition is possible. */
  predicate PossibleAt(levels: seq<Level>, i: nat, d: Disposition)
    requires i < |levels|
  {
    && FallsThrough(levels[..i])
    && match d
       case HandledNow => levels[i].guarded != []
       case Deferred => levels[i].defers && forall j :: 0 <= j < |levels[i].guarded| ==> levels[i].guarded[j]
       case Unhandled => false
  }

  predicate Possible(levels: seq<Level>, d: Disposition) {
    (d.Unhandled? && FallsThrough(levels)) || exists i: nat :: i < |levels| && PossibleAt(levels, i, d)
  }

  lemma FallsThroughMore(levels: seq<Level>, i: nat)
    requires i < |levels|
    ensures FallsThrough(levels[..i + 1]) <==>
              FallsThrough(levels[..i]) && !levels[i].defers && forall j :: 0 <= j < |levels[i].guarded| ==> levels[i].guarded[j]
  {
    var more := levels[..i + 1];
    assert more[i] == levels[i];
    assert forall k :: 0 <= k < i ==> more[k] == levels[..i][k];
  }

  /** The possible dispositions, found in one pass that stops where dispatch must stop. */
  method Structural(levels: seq<Level>) returns (possibilities: set<Disposition>)
    ensures forall d :: d in possibilities <==> Possible(levels, d)
  {
    possibilities := {};
    var through := true;
    var i := 0;
    assert FallsThrough(levels[..0]);
    while i < |levels| && through
      invariant 0 <= i <= |levels|
      invariant through <==> FallsThrough(levels[..i])
      invariant forall d :: d in possibilities <==> exists k: nat :: k < i && PossibleAt(levels, k, d)
    {
      FallsThroughMore(levels, i);
      var level := levels[i];
      ghost var before := possibilities;
      if level.guarded != [] {
        possibilities := possibilities + {HandledNow};
        if exists j :: 0 <= j < |level.guarded| && !level.guarded[j] {
          through := false;
        }
      }
      if through && level.defers {
        possibilities := possibilities + {Deferred};
        through := false;
      }
      forall d ensures d in possibilities <==> exists k: nat :: k < i + 1 && PossibleAt(levels, k, d) {
        assert d in possibilities <==> d in before || PossibleAt(levels, i, d);
      }
      i := i + 1;
    }
    assert levels[..|levels|] == levels;
    if !through {
      StopsThere(levels, i);
    }
    if through {
      possibilities := possibilities + {Unhandled};
    }
  }

  /** Once dispatch must stop, no later level is reached. */
  lemma StopsThere(levels: seq<Level>, i: nat)
    requires i <= |levels| && !FallsThrough(levels[..i])
    ensures !FallsThrough(levels)
    ensures forall k: nat, d :: i <= k < |levels| ==> !PossibleAt(levels, k, d)
  {
    var l :| 0 <= l < i && !(!levels[..i][l].defers && forall j :: 0 <= j < |levels[..i][l].guarded| ==> levels[..i][l].guarded[j]);
    forall k: nat | i <= k < |levels| ensures !FallsThrough(levels[..k]) {
      assert levels[..k][l] == levels[..i][l];
    }
    assert levels[l] == levels[..i][l];
  }

  // ------------------------------------------------------------------------------------------
  // Semantic inspection
  // ------------------------------------------------------------------------------------------

  /** What the branches of one level, from `branch` on, do to the remaining budgets. */
  datatype Walk = Stop(outcome: Outcome) | Pass(guards: nat, steps: nat)

  function WalkBranches(guarded: seq<bool>, level: nat, branch: nat, verdicts: Guards, guards: nat, steps: nat): Walk
    requires branch <= |guarded|
    decreases |guarded| - branch
  {
    if branch == |guarded| then Pass(guards, steps)
    else if !guarded[branch] then Stop(Decided(HandledNow))
    else if guards == 0 then Stop(LimitExceeded(level, branch))
    else
      var verdict := verdicts(level, branch);
      if verdict.steps > steps then Stop(LimitExceeded(level, branch))
      else if verdict.GuardFails? then Stop(GuardFailure(level, branch))
      else if verdict.value then Stop(Decided(HandledNow))
      else WalkBranches(guarded, level, branch + 1, verdicts, guards - 1, steps - verdict.steps)
  }

  function WalkLevels(levels: seq<Level>, level: nat, verdicts: Guards, guards: nat, steps: nat): Outcome
    requires level <= |levels|
    decreases |levels| - level
  {
    if level == |levels| then Decided(Unhandled)
    else
      match WalkBranches(levels[level].guarded, level, 0, verdicts, guards, steps)
      case Stop(outcome) => outcome
      case Pass(guards', steps') =>
        if levels[level].defers then Decided(Deferred) else WalkLevels(levels, level + 1, verdicts, guards', steps')
  }

  /** Position (l, b) comes before position (k, c) in the definition. */
  predicate Earlier(l: nat, b: nat, k: nat, c: nat) {
    l < k || (l == k && b < c)
  }

  predicate Attested(levels: seq<Level>, verdicts: Guards, x: Evidence) {
    && x.level < |levels| && x.branch < |levels[x.level].guarded| && levels[x.level].guarded[x.branch]
    && verdicts(x.level, x.branch).Verdict? && verdicts(x.level, x.branch).value == x.value
  }

  /** The evidence holds, in order, exactly the guards before position (k, c), with their values. */
  ghost predicate Evaluated(levels: seq<Level>, verdicts: Guards, evidence: seq<Evidence>, k: nat, c: nat) {
    && (forall x :: 0 <= x < |evidence| ==> Attested(levels, verdicts, evidence[x]) && Earlier(evidence[x].level, evidence[x].branch, k, c))
    && (forall x, y :: 0 <= x < y < |evidence| ==> Earlier(evidence[x].level, evidence[x].branch, evidence[y].level, evidence[y].branch))
    && (forall l: nat, b: nat :: l < |levels| && b < |levels[l].guarded| && levels[l].guarded[b] && Earlier(l, b, k, c) ==> Mentions(evidence, l, b))
  }

  ghost predicate Mentions(evidence: seq<Evidence>, l: nat, b: nat) {
    exists x :: 0 <= x < |evidence| && evidence[x].level == l && evidence[x].branch == b
  }

  lemma MentionsMore(evidence: seq<Evidence>, e: Evidence, l: nat, b: nat)
    ensures Mentions(evidence + [e], l, b) <==> Mentions(evidence, l, b) || (e.level == l && e.branch == b)
  {
    assert (evidence + [e])[|evidence|] == e;
    if Mentions(evidence, l, b) {
      var x :| 0 <= x < |evidence| && evidence[x].level == l && evidence[x].branch == b;
      assert (evidence + [e])[x] == evidence[x];
    }
  }

  lemma EvaluatedMore(levels: seq<Level>, verdicts: Guards, evidence: seq<Evidence>, k: nat, c: nat, value: bool)
    requires Evaluated(levels, verdicts, evidence, k, c) && Attested(levels, verdicts, Evidence(k, c, value))
    ensures Evaluated(levels, verdicts, evidence + [Evidence(k, c, value)], k, c + 1)
  {
    hide Mentions, Attested;
    var more := evidence + [Evidence(k, c, value)];
    forall l: nat, b: nat | l < |levels| && b < |levels[l].guarded| && levels[l].guarded[b] && Earlier(l, b, k, c + 1) ensures Mentions(more, l, b) {
      MentionsMore(evidence, Evidence(k, c, value), l, b);
    }
  }

  lemma EvaluatedLevel(levels: seq<Level>, verdicts: Guards, evidence: seq<Evidence>, k: nat)
    requires k < |levels| && Evaluated(levels, verdicts, evidence, k, |levels[k].guarded|)
    ensures Evaluated(levels, verdicts, evidence, k + 1, 0)
  {
    hide Mentions, Attested;
  }

  /** Where the walk stops: the first position that was not evaluated to false. */
  datatype Place = Place(level: nat, branch: nat)

  /** The steps that the evaluated guards took. */
  function Spent(verdicts: Guards, evidence: seq<Evidence>): nat {
    if evidence == [] then 0
    else Spent(verdicts, evidence[..|evidence| - 1]) + verdicts(evidence[|evidence| - 1].level, evidence[|evidence| - 1].branch).steps
  }

  lemma SpentMore(verdicts: Guards, evidence: seq<Evidence>, e: Evidence)
    ensures Spent(verdicts, evidence + [e]) == Spent(verdicts, evidence) + verdicts(e.level, e.branch).steps
  {
    assert (evidence + [e])[..|evidence|] == evidence;
  }

  /** Nothing before position (k, c) stops dispatch but the value of a guard. */
  predicate Passable(levels: seq<Level>, k: nat, c: nat) {
    && (forall l, b :: 0 <= l < |levels| && 0 <= b < |levels[l].guarded| && Earlier(l, b, k, c) ==> levels[l].guarded[b])
    && (forall l :: 0 <= l < |levels| && l < k ==> !levels[l].defers)
  }

  /** There is a guard at position (k, c). */
  predicate GuardAt(levels: seq<Level>, k: nat, c: nat) {
    k < |levels| && c < |levels[k].guarded| && levels[k].guarded[c]
  }

  /** There is a branch without a guard at position (k, c). */
  predicate OpenAt(levels: seq<Level>, k: nat, c: nat) {
    k < |levels| && c < |levels[k].guarded| && !levels[k].guarded[c]
  }

  /** The next guard at position (k, c) goes beyond a budget. */
  predicate Exceeds(verdicts: Guards, evidence: seq<Evidence>, guardLimit: nat, stepLimit: nat, k: nat, c: nat) {
    |evidence| >= guardLimit || Spent(verdicts, evidence) + verdicts(k, c).steps > stepLimit
  }

  /** Why the walk stops at `place` with this outcome. */
  ghost predicate Explains(levels: seq<Level>, verdicts: Guards, guardLimit: nat, stepLimit: nat, evidence: seq<Evidence>, place: Place, outcome: Outcome) {
    match outcome
    case Decided(HandledNow) =>
      && Passable(levels, place.level, place.branch)
      && (OpenAt(levels, place.level, place.branch) || (evidence != [] && evidence[|evidence| - 1].value))
    case Decided(Deferred) =>
      0 < place.level <= |levels| && place.branch == 0 && levels[place.level - 1].defers
      && Passable(levels, place.level - 1, |levels[place.level - 1].guarded|)
    case Decided(Unhandled) => place == Place(|levels|, 0) && Passable(levels, |levels|, 0)
    case LimitExceeded(level, branch) =>
      && place == Place(level, branch) && Passable(levels, level, branch) && GuardAt(levels, level, branch)
      && Exceeds(verdicts, evidence, guardLimit, stepLimit, level, branch)
    case GuardFailure(level, branch) =>
      && place == Place(level, branch) && Passable(levels, level, branch) && GuardAt(levels, level, branch)
      && !Exceeds(verdicts, evidence, guardLimit, stepLimit, level, branch) && verdicts(level, branch).GuardFails?
  }

  /** All guards so far were false, within both budgets. */
  predicate Affordable(verdicts: Guards, guardLimit: nat, stepLimit: nat, evidence: seq<Evidence>) {
    |evidence| <= guardLimit && Spent(verdicts, evidence) <= stepLimit
  }

  /**
   The walk over levels and branches, with both budgets running down. The evidence lists, in
   order, exactly the guards before the place where it stops, all of them false but the last one
   if it decided.
   */
  method Semantic(levels: seq<Level>, verdicts: Guards, guardLimit: nat, stepLimit: nat) returns (outcome: Outcome, evidence: seq<Evidence>, ghost place: Place)
    ensures outcome == WalkLevels(levels, 0, verdicts, guardLimit, stepLimit)
    ensures Evaluated(levels, verdicts, evidence, place.level, place.branch)
    ensures forall x :: 0 <= x < |evidence| - 1 ==> !evidence[x].value
    ensures outcome != Decided(HandledNow) ==> forall x :: 0 <= x < |evidence| ==> !evidence[x].value
    ensures Explains(levels, verdicts, guardLimit, stepLimit, evidence, place, outcome)
    ensures Affordable(verdicts, guardLimit, stepLimit, evidence)
  {
    hide Mentions, Spent;
    var guards: nat := guardLimit;
    var steps: nat := stepLimit;
    evidence := [];
    place := Place(0, 0);
    SpentNothing(verdicts);
    for i := 0 to |levels|
      invariant WalkLevels(levels, 0, verdicts, guardLimit, stepLimit) == WalkLevels(levels, i, verdicts, guards, steps)
      invariant place == Place(i, 0) && Evaluated(levels, verdicts, evidence, i, 0) && Passable(levels, i, 0)
      invariant forall x :: 0 <= x < |evidence| ==> !evidence[x].value
      invariant |evidence| + guards == guardLimit && Spent(verdicts, evidence) + steps == stepLimit
    {
      var guarded := levels[i].guarded;
      for j := 0 to |guarded|
        invariant WalkLevels(levels, 0, verdicts, guardLimit, stepLimit) == FromBranch(levels, i, j, verdicts, guards, steps)
        invariant place == Place(i, j) && Evaluated(levels, verdicts, evidence, i, j) && Passable(levels, i, j)
        invariant forall x :: 0 <= x < |evidence| ==> !evidence[x].value
        invariant |evidence| + guards == guardLimit && Spent(verdicts, evidence) + steps == stepLimit
      {
        if !guarded[j] {
          outcome := Decided(HandledNow);
          return;
        }
        if guards == 0 {
          outcome := LimitExceeded(i, j);
          return;
        }
        var verdict := verdicts(i, j);
        if verdict.steps > steps {
          outcome := LimitExceeded(i, j);
          return;
        }
        if verdict.GuardFails? {
          outcome := GuardFailure(i, j);
          return;
        }
        guards, steps := guards - 1, steps - verdict.steps;
        EvaluatedMore(levels, verdicts, evidence, i, j, verdict.value);
        SpentMore(verdicts, evidence, Evidence(i, j, verdict.value));
        PassableMore(levels, i, j);
        evidence := evidence + [Evidence(i, j, verdict.value)];
        place := Place(i, j + 1);
        if verdict.value {
          outcome := Decided(HandledNow);
          return;
        }
      }
      EvaluatedLevel(levels, verdicts, evidence, i);
      place := Place(i + 1, 0);
      if levels[i].defers {
        outcome := Decided(Deferred);
        return;
      }
      PassableLevel(levels, i);
    }
    outcome := Decided(Unhandled);
  }

  lemma SpentNothing(verdicts: Guards)
    ensures Spent(verdicts, []) == 0
  {
  }

  lemma PassableMore(levels: seq<Level>, k: nat, c: nat)
    requires Passable(levels, k, c) && GuardAt(levels, k, c)
    ensures Passable(levels, k, c + 1)
  {
  }

  lemma PassableLevel(levels: seq<Level>, k: nat)
    requires k < |levels| && Passable(levels, k, |levels[k].guarded|) && !levels[k].defers
    ensures Passable(levels, k + 1, 0)
  {
  }

  /** The walk from branch `branch` of level `level` on. */
  ghost function FromBranch(levels: seq<Level>, level: nat, branch: nat, verdicts: Guards, guards: nat, steps: nat): Outcome
    requires level < |levels| && branch <= |levels[level].guarded|
  {
    match WalkBranches(levels[level].guarded, level, branch, verdicts, guards, steps)
    case Stop(outcome) => outcome
    case Pass(guards', steps') =>
      if levels[level].defers then Decided(Deferred) else WalkLevels(levels, level + 1, verdicts, guards', steps')
  }

  // ------------------------------------------------------------------------------------------
  // Exactness
  // ------------------------------------------------------------------------------------------

  /** Without guard failures and with fuel enough, only the values of the guards matter. */
  lemma {:induction false} BranchesSound(levels: seq<Level>, level: nat, branch: nat, verdicts: Guards, guards: nat, steps: nat)
    requires level < |levels| && branch <= |levels[level].guarded| && FallsThrough(levels[..level])
    requires forall j :: 0 <= j < branch ==> levels[level].guarded[j]
    ensures match WalkBranches(levels[level].guarded, level, branch, verdicts, guards, steps)
            case Stop(Decided(d)) => PossibleAt(levels, level, d)
            case Stop(_) => true
            case Pass(_, _) => forall j :: 0 <= j < |levels[level].guarded| ==> levels[level].guarded[j]
    decreases |levels[level].guarded| - branch
  {
    var guarded := levels[level].guarded;
    if branch < |guarded| && guarded[branch] && guards > 0 && verdicts(level, branch).Verdict? && verdicts(level, branch).steps <= steps {
      BranchesSound(levels, level, branch + 1, verdicts, guards - 1, steps - verdicts(level, branch).steps);
    }
  }

  lemma {:induction false} LevelsSound(levels: seq<Level>, level: nat, verdicts: Guards, guards: nat, steps: nat)
    requires level <= |levels| && FallsThrough(levels[..level])
    ensures match WalkLevels(levels, level, verdicts, guards, steps)
            case Decided(d) => Possible(levels, d)
            case _ => true
    decreases |levels| - level
  {
    if level == |levels| {
      assert levels[..|levels|] == levels;
    } else {
      BranchesSound(levels, level, 0, verdicts, guards, steps);
      var w := WalkBranches(levels[level].guarded, level, 0, verdicts, guards, steps);
      if w.Pass? {
        if levels[level].defers {
          assert PossibleAt(levels, level, Deferred);
        } else {
          FallsThroughMore(levels, level);
          LevelsSound(levels, level + 1, verdicts, w.guards, w.steps);
        }
      } else if w.outcome.Decided? {
        assert PossibleAt(levels, level, w.outcome.disposition);
      }
    }
  }

  /** What each guard costs, whatever its value. */
  type Costs = (nat, nat) -> nat

  type Values = (nat, nat) -> bool

  /** Guards with these values at these costs. */
  function Table(costs: Costs, values: Values): Guards {
    (level: nat, branch: nat) => Verdict(values(level, branch), costs(level, branch))
  }

  /** Every guard is false, except that guard `(l, b)` is true. */
  function OnlyTrue(l: nat, b: nat): Values {
    (level: nat, branch: nat) => level == l && branch == b
  }

  /** The cost of the branches of one level from `branch` on. */
  function BranchCost(n: nat, level: nat, branch: nat, costs: Costs): nat
    requires branch <= n
    decreases n - branch
  {
    if branch == n then 0 else costs(level, branch) + BranchCost(n, level, branch + 1, costs)
  }

  lemma {:induction false} AllFalsePass(guarded: seq<bool>, level: nat, branch: nat, costs: Costs, values: Values, guards: nat, steps: nat)
    requires branch <= |guarded| && guards >= |guarded| - branch && steps >= BranchCost(|guarded|, level, branch, costs)
    requires forall j: nat :: branch <= j < |guarded| ==> guarded[j] && !values(level, j)
    ensures WalkBranches(guarded, level, branch, Table(costs, values), guards, steps)
            == Pass(guards - (|guarded| - branch), steps - BranchCost(|guarded|, level, branch, costs))
    decreases |guarded| - branch
  {
    if branch < |guarded| {
      assert guarded[branch] && !values(level, branch);
      AllFalsePass(guarded, level, branch + 1, costs, values, guards - 1, steps - costs(level, branch));
    }
  }

  /** The number of branches of the first `n` levels. */
  function Branches(levels: seq<Level>, n: nat): nat
    requires n <= |levels|
  {
    if n == 0 then 0 else Branches(levels, n - 1) + |levels[n - 1].guarded|
  }

  /** The cost of all branches of the first `n` levels. */
  function TotalCost(levels: seq<Level>, n: nat, costs: Costs): nat
    requires n <= |levels|
  {
    if n == 0 then 0 else TotalCost(levels, n - 1, costs) + BranchCost(|levels[n - 1].guarded|, n - 1, 0, costs)
  }

  lemma {:induction false} BudgetsGrow(levels: seq<Level>, m: nat, n: nat, costs: Costs)
    requires m <= n <= |levels|
    ensures Branches(levels, m) <= Branches(levels, n) && TotalCost(levels, m, costs) <= TotalCost(levels, n, costs)
    decreases n
  {
    if m < n {
      BudgetsGrow(levels, m, n - 1, costs);
    }
  }

  /** With all guards false before level `n`, the walk that starts at level `m` reaches it with what is left of the budgets. */
  lemma {:induction false} Reaches(levels: seq<Level>, m: nat, n: nat, costs: Costs, values: Values, guards: nat, steps: nat)
    requires m <= n <= |levels| && FallsThrough(levels[..n])
    requires forall k: nat, j: nat :: m <= k < n && j < |levels[k].guarded| ==> !values(k, j)
    requires guards + Branches(levels, m) >= Branches(levels, n) && steps + TotalCost(levels, m, costs) >= TotalCost(levels, n, costs)
    ensures Branches(levels, n) >= Branches(levels, m) && TotalCost(levels, n, costs) >= TotalCost(levels, m, costs)
    ensures WalkLevels(levels, m, Table(costs, values), guards, steps)
            == WalkLevels(levels, n, Table(costs, values), guards - (Branches(levels, n) - Branches(levels, m)),
                          steps - (TotalCost(levels, n, costs) - TotalCost(levels, m, costs)))
    decreases n - m
  {
    if m < n {
      assert levels[..n][m] == levels[m];
      BudgetsGrow(levels, m + 1, n, costs);
      AllFalsePass(levels[m].guarded, m, 0, costs, values, guards, steps);
      Reaches(levels, m + 1, n, costs, values, guards - |levels[m].guarded|, steps - BranchCost(|levels[m].guarded|, m, 0, costs));
    }
  }

  /** A possible disposition is what some valuation of the guards leads to, whatever the guards cost. */
  lemma Complete(levels: seq<Level>, d: Disposition, costs: Costs) returns (values: Values)
    requires Possible(levels, d)
    ensures WalkLevels(levels, 0, Table(costs, values), Branches(levels, |levels|), TotalCost(levels, |levels|, costs)) == Decided(d)
  {
    var guards, steps := Branches(levels, |levels|), TotalCost(levels, |levels|, costs);
    if d.Unhandled? {
      values := OnlyTrue(|levels|, 0);
      assert levels[..|levels|] == levels;
      Reaches(levels, 0, |levels|, costs, values, guards, steps);
    } else {
      var i: nat :| i < |levels| && PossibleAt(levels, i, d);
      values := if d.HandledNow? then OnlyTrue(i, 0) else OnlyTrue(|levels|, 0);
      BudgetsGrow(levels, i, |levels|, costs);
      BudgetsGrow(levels, i + 1, |levels|, costs);
      Reaches(levels, 0, i, costs, values, guards, steps);
      StopsHere(levels, i, d, costs, values, guards - Branches(levels, i), steps - TotalCost(levels, i, costs));
    }
  }

  /** At the level where the disposition is possible the walk decides on it. */
  lemma StopsHere(levels: seq<Level>, i: nat, d: Disposition, costs: Costs, values: Values, guards: nat, steps: nat)
    requires i < |levels| && PossibleAt(levels, i, d) && values == if d.HandledNow? then OnlyTrue(i, 0) else OnlyTrue(|levels|, 0)
    requires guards >= |levels[i].guarded| && steps >= BranchCost(|levels[i].guarded|, i, 0, costs)
    ensures WalkLevels(levels, i, Table(costs, values), guards, steps) == Decided(d)
  {
    if d.Deferred? {
      AllFalsePass(levels[i].guarded, i, 0, costs, values, guards, steps);
    }
  }

  /**
   Structural inspection reports exactly the dispositions that semantic inspection can decide on:
   whatever the guards cost, over all their values and all budgets. No failure of a guard adds to
   them.
   */
  lemma Exact(levels: seq<Level>, d: Disposition, costs: Costs)
    ensures Possible(levels, d) <==>
              exists values: Values, guards: nat, steps: nat :: WalkLevels(levels, 0, Table(costs, values), guards, steps) == Decided(d)
    ensures forall verdicts: Guards, guards: nat, steps: nat ::
              WalkLevels(levels, 0, verdicts, guards, steps) == Decided(d) ==> Possible(levels, d)
  {
    if Possible(levels, d) {
      var values := Complete(levels, d, costs);
      assert WalkLevels(levels, 0, Table(costs, values), Branches(levels, |levels|), TotalCost(levels, |levels|, costs)) == Decided(d);
    }
    forall verdicts: Guards, guards: nat, steps: nat | WalkLevels(levels, 0, verdicts, guards, steps) == Decided(d) ensures Possible(levels, d) {
      assert levels[..0] == [];
      LevelsSound(levels, 0, verdicts, guards, steps);
    }
  }
}
