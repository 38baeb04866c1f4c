/**
 The response migrator of backend/core/api_versioning.py. A version is its position in the list
 of versions and a document maps member names to values.
 */
module Migration {
  import opened Options

  type Doc<V> = map<string, V>

  datatype Strategy = Passthrough | FieldRename | FieldAdd | FieldRemove | Transform

  datatype Rule<!V> = Rule(source: nat, target: nat, strategy: Strategy, fieldMap: seq<(string, string)>,
                           addDefaults: Doc<V>, removeFields: seq<string>, transformFn: Option<Doc<V> -> Doc<V>>)

  function Names(names: seq<string>): set<string> {
    set name | name in names
  }

  /** One rename after the other; a renamed member overwrites one that has the new name already. */
  function Rename<V>(d: Doc<V>, pairs: seq<(string, string)>): Doc<V> {
    if pairs == [] then d
    else
      var done := Rename(d, pairs[..|pairs| - 1]);
      var (from, to) := pairs[|pairs| - 1];
      if from in done then (done - {from})[to := done[from]] else done
  }

  function Apply<V>(d: Doc<V>, r: Rule<V>): Doc<V> {
    match r.strategy
    case Passthrough => d
    case FieldAdd => r.addDefaults + d
    case FieldRemove => d - Names(r.removeFields)
    case FieldRename => Rename(d, r.fieldMap)
    case Transform => if r.transformFn.Some? then r.transformFn.value(d) else d
  }

  /** No name occurs twice among the old and new names. */
  predicate Apart(pairs: seq<(string, string)>) {
    && (forall i | 0 <= i < |pairs| :: pairs[i].0 != pairs[i].1)
    && (forall i, j | 0 <= i < j < |pairs| ::
          pairs[i].0 != pairs[j].0 && pairs[i].0 != pairs[j].1 && pairs[i].1 != pairs[j].0 && pairs[i].1 != pairs[j].1)
  }

  /** One rename moves the value to the new name, over any value there, and leaves the other members alone. */
  lemma RenameOne<V>(d: Doc<V>, from: string, to: string)
    ensures var r := Rename(d, [(from, to)]);
            && (from !in d ==> r == d)
            && (from in d ==> to in r && r[to] == d[from] && r.Keys == d.Keys - {from} + {to})
            && (forall k | k in d && k != from && k != to :: k in r && r[k] == d[k])
  {
    assert Rename(d, [(from, to)][..0]) == d;
  }

  lemma {:induction false} RenameOthers<V>(d: Doc<V>, pairs: seq<(string, string)>, k: string)
    requires Other(pairs, k)
    ensures var r := Rename(d, pairs); (k in r <==> k in d) && (k in d ==> r[k] == d[k])
  {
    if pairs != [] {
      RenameOthers(d, pairs[..|pairs| - 1], k);
    }
  }

  /**
   Renaming by a map whose names are all different: each old name is gone and its value is under
   the new one; RenameOthers says that every other member is as before.
   */
  lemma {:induction false} RenameMeans<V>(d: Doc<V>, pairs: seq<(string, string)>, i: nat)
    requires Apart(pairs) && i < |pairs|
    ensures var (from, to), r := pairs[i], Rename(d, pairs);
            && from !in r
            && (from in d ==> to in r && r[to] == d[from])
            && (from !in d ==> (to in r <==> to in d) && (to in d ==> r[to] == d[to]))
  {
    var n := |pairs| - 1;
    if i < n {
      RenameMeans(d, pairs[..n], i);
    } else {
      RenameOthers(d, pairs[..n], pairs[i].0);
      RenameOthers(d, pairs[..n], pairs[i].1);
    }
  }

  predicate Other(pairs: seq<(string, string)>, k: string) {
    forall i | 0 <= i < |pairs| :: k != pairs[i].0 && k != pairs[i].1
  }

  /** What the strategies that need no map of names do. */
  lemma ApplyMeans<V>(d: Doc<V>, r: Rule<V>)
    ensures r.strategy == Passthrough || (r.strategy == Transform && r.transformFn.None?) ==> Apply(d, r) == d
    ensures r.strategy == Transform && r.transformFn.Some? ==> Apply(d, r) == r.transformFn.value(d)
    ensures r.strategy == FieldAdd ==>
              forall k :: k in Apply(d, r) <==> k in d || k in r.addDefaults
    ensures r.strategy == FieldAdd ==>
              forall k | k in Apply(d, r) :: Apply(d, r)[k] == if k in d then d[k] else r.addDefaults[k]
    ensures r.strategy == FieldRemove ==> forall k :: k in Apply(d, r) <==> k in d && k !in r.removeFields
    ensures r.strategy == FieldRemove ==> forall k | k in Apply(d, r) :: Apply(d, r)[k] == d[k]
  {
    hide Rename;
  }

  /** The first registered rule from one version to another. */
  function FindRule<V>(rules: seq<Rule<V>>, source: nat, target: nat): (r: Option<Rule<V>>)
    ensures r.Some? ==> r.value.source == source && r.value.target == target && r.value in rules
  {
    if rules == [] then None
    else if rules[0].source == source && rules[0].target == target then Some(rules[0])
    else FindRule(rules[1..], source, target)
  }

  function Next(source: nat, target: nat): nat
    requires source != target
  {
    if target > source then source + 1 else source - 1
  }

  function Distance(a: nat, b: nat): nat {
    if a <= b then b - a else a - b
  }

  /** Every adjacent pair between the two versions has a rule. */
  predicate Paved<V>(rules: seq<Rule<V>>, source: nat, target: nat)
    decreases Distance(source, target)
  {
    source == target
    || (FindRule(rules, source, Next(source, target)).Some? && Paved(rules, Next(source, target), target))
  }

  /** The versions are equal, directly linked, or linked step by step. */
  predicate Routable<V>(rules: seq<Rule<V>>, source: nat, target: nat) {
    source == target || FindRule(rules, source, target).Some? || Paved(rules, source, target)
  }

  function Steps<V>(rules: seq<Rule<V>>, d: Doc<V>, source: nat, target: nat): Doc<V>
    requires Paved(rules, source, target)
    decreases Distance(source, target)
  {
    if source == target then d
    else
      var next := Next(source, target);
      Steps(rules, Apply(d, FindRule(rules, source, next).value), next, target)
  }

  function Migrate<V>(rules: seq<Rule<V>>, d: Doc<V>, source: nat, target: nat): Doc<V>
    requires Routable(rules, source, target)
  {
    if source == target then d
    else
      match FindRule(rules, source, target)
      case Some(r) => Apply(d, r)
      case None => Steps(rules, d, source, target)
  }

  /** A rule registered later is taken only where no earlier one is. */
  lemma {:induction false} EarlierRuleWins<V>(rules: seq<Rule<V>>, rule: Rule<V>, a: nat, b: nat)
    ensures FindRule(rules + [rule], a, b)
            == if FindRule(rules, a, b).Some? then FindRule(rules, a, b)
               else if rule.source == a && rule.target == b then Some(rule) else None
  {
    if rules != [] {
      assert (rules + [rule])[1..] == rules[1..] + [rule];
      EarlierRuleWins(rules[1..], rule, a, b);
    }
  }

  // ---------------------------------------------------------------- termination

  /** `migrate` with a bound on the depth of its calls; None when the bound is exceeded. */
  function Bounded<V>(depth: nat, rules: seq<Rule<V>>, d: Doc<V>, source: nat, target: nat): Option<Doc<V>>
    decreases depth, 0, 0
  {
    if depth == 0 then None
    else if source == target then Some(d)
    else
      match FindRule(rules, source, target)
      case Some(r) => Some(Apply(d, r))
      case None => BoundedSteps(depth - 1, rules, d, source, target)
  }

  function BoundedSteps<V>(depth: nat, rules: seq<Rule<V>>, d: Doc<V>, source: nat, target: nat): Option<Doc<V>>
    decreases depth, 1, Distance(source, target)
  {
    if source == target then Some(d)
    else
      var next := Next(source, target);
      match Bounded(depth, rules, d, source, next)
      case None => None
      case Some(stepped) => BoundedSteps(depth, rules, stepped, next, target)
  }

  lemma {:induction false} PavedSteps<V>(depth: nat, rules: seq<Rule<V>>, d: Doc<V>, source: nat, target: nat)
    requires Paved(rules, source, target) && depth > 0
    ensures BoundedSteps(depth, rules, d, source, target) == Some(Steps(rules, d, source, target))
    decreases Distance(source, target)
  {
    if source != target {
      var next := Next(source, target);
      PavedSteps(depth, rules, Apply(d, FindRule(rules, source, next).value), next, target);
    }
  }

  /** An adjacent pair without a rule sends the two functions round in a circle. */
  lemma {:induction false} MissingRuleLoops<V>(depth: nat, rules: seq<Rule<V>>, d: Doc<V>, source: nat, target: nat)
    requires Distance(source, target) == 1 && FindRule(rules, source, target).None?
    ensures Bounded(depth, rules, d, source, target) == None
  {
    if depth > 0 {
      MissingRuleLoops(depth - 1, rules, d, source, target);
    }
  }

  lemma {:induction false} UnpavedSteps<V>(depth: nat, rules: seq<Rule<V>>, d: Doc<V>, source: nat, target: nat)
    requires !Paved(rules, source, target)
    ensures BoundedSteps(depth, rules, d, source, target) == None
    decreases Distance(source, target)
  {
    var next := Next(source, target);
    if FindRule(rules, source, next).None? {
      MissingRuleLoops(depth, rules, d, source, next);
    } else if Bounded(depth, rules, d, source, next).Some? {
      UnpavedSteps(depth, rules, Bounded(depth, rules, d, source, next).value, next, target);
    }
  }

  /** `migrate` terminates exactly on routable pairs, and then two levels of calls are enough. */
  lemma TerminatesIffRoutable<V>(rules: seq<Rule<V>>, d: Doc<V>, source: nat, target: nat)
    ensures (exists depth: nat :: Bounded(depth, rules, d, source, target).Some?) <==> Routable(rules, source, target)
    ensures Routable(rules, source, target) ==>
              forall depth: nat :: depth >= 2 ==>
                Bounded(depth, rules, d, source, target) == Some(Migrate(rules, d, source, target))
  {
    if Routable(rules, source, target) {
      forall depth: nat | depth >= 2
        ensures Bounded(depth, rules, d, source, target) == Some(Migrate(rules, d, source, target))
      {
        if source != target && FindRule(rules, source, target).None? {
          PavedSteps(depth - 1, rules, d, source, target);
        }
      }
      assert Bounded(2, rules, d, source, target).Some?;
    } else {
      forall depth: nat
        ensures Bounded(depth, rules, d, source, target) == None
      {
        if depth > 0 {
          UnpavedSteps(depth - 1, rules, d, source, target);
        }
      }
    }
  }

  // ---------------------------------------------------------------- round trips

  predicate AddingStep<V>(rules: seq<Rule<V>>, i: nat) {
    FindRule(rules, i, i + 1).Some? && FindRule(rules, i, i + 1).value.strategy == FieldAdd
  }

  predicate RemovingStep<V>(rules: seq<Rule<V>>, i: nat) {
    FindRule(rules, i + 1, i).Some? && FindRule(rules, i + 1, i).value.strategy == FieldRemove
  }

  predicate AddingSteps<V>(rules: seq<Rule<V>>, low: nat, high: nat) {
    forall i: nat | low <= i < high :: AddingStep(rules, i)
  }

  predicate RemovingSteps<V>(rules: seq<Rule<V>>, low: nat, high: nat) {
    forall i: nat | low <= i < high :: RemovingStep(rules, i)
  }

  /** Migration from `low` up to `high` adds members only: by the direct rule, which wins, or step by step. */
  predicate AddsUp<V>(rules: seq<Rule<V>>, low: nat, high: nat) {
    var direct := FindRule(rules, low, high);
    low == high || if direct.Some? then direct.value.strategy == FieldAdd else AddingSteps(rules, low, high)
  }

  /** Migration from `high` down to `low` removes members only. */
  predicate RemovesDown<V>(rules: seq<Rule<V>>, low: nat, high: nat) {
    var direct := FindRule(rules, high, low);
    low == high || if direct.Some? then direct.value.strategy == FieldRemove else RemovingSteps(rules, low, high)
  }

  /** The members that the steps up give a document with none of its own. */
  function StepsAdded<V>(rules: seq<Rule<V>>, low: nat, high: nat): Doc<V>
    requires low <= high && AddingSteps(rules, low, high)
    decreases high - low
  {
    if low == high then map[]
    else
      assert AddingStep(rules, low);
      StepsAdded(rules, low + 1, high) + FindRule(rules, low, low + 1).value.addDefaults
  }

  function StepsRemoved<V>(rules: seq<Rule<V>>, low: nat, high: nat): set<string>
    requires low <= high && RemovingSteps(rules, low, high)
  {
    if low == high then {}
    else
      assert RemovingStep(rules, high - 1);
      StepsRemoved(rules, low, high - 1) + Names(FindRule(rules, high, high - 1).value.removeFields)
  }

  /** What going up from `low` to `high` adds. */
  function Added<V>(rules: seq<Rule<V>>, low: nat, high: nat): Doc<V>
    requires low <= high && AddsUp(rules, low, high)
  {
    var direct := FindRule(rules, low, high);
    if low == high then map[]
    else if direct.Some? then direct.value.addDefaults
    else StepsAdded(rules, low, high)
  }

  /** What going down from `high` to `low` removes. */
  function Removed<V>(rules: seq<Rule<V>>, low: nat, high: nat): set<string>
    requires low <= high && RemovesDown(rules, low, high)
  {
    var direct := FindRule(rules, high, low);
    if low == high then {}
    else if direct.Some? then Names(direct.value.removeFields)
    else StepsRemoved(rules, low, high)
  }

  lemma PlusAssociates<V>(a: Doc<V>, b: Doc<V>, c: Doc<V>)
    ensures a + (b + c) == a + b + c
  {
  }

  lemma {:induction false} StepsUp<V>(rules: seq<Rule<V>>, d: Doc<V>, low: nat, high: nat)
    requires low <= high && AddingSteps(rules, low, high)
    ensures Paved(rules, low, high) && Steps(rules, d, low, high) == StepsAdded(rules, low, high) + d
    decreases high - low
  {
    if low < high {
      assert AddingStep(rules, low);
      var defaults := FindRule(rules, low, low + 1).value.addDefaults;
      StepsUp(rules, defaults + d, low + 1, high);
      PlusAssociates(StepsAdded(rules, low + 1, high), defaults, d);
    }
  }

  lemma {:induction false} StepsDown<V>(rules: seq<Rule<V>>, d: Doc<V>, low: nat, high: nat)
    requires low <= high && RemovingSteps(rules, low, high)
    ensures Paved(rules, high, low) && Steps(rules, d, high, low) == d - StepsRemoved(rules, low, high)
    decreases high - low
  {
    if low < high {
      assert RemovingStep(rules, high - 1);
      var names := Names(FindRule(rules, high, high - 1).value.removeFields);
      StepsDown(rules, d - names, low, high - 1);
      assert d - names - StepsRemoved(rules, low, high - 1) == d - StepsRemoved(rules, low, high);
    }
  }

  /** Going up keeps every member of the document and adds exactly the missing ones of `Added`. */
  lemma UpAdds<V>(rules: seq<Rule<V>>, d: Doc<V>, low: nat, high: nat)
    requires low <= high && AddsUp(rules, low, high)
    ensures Routable(rules, low, high) && Migrate(rules, d, low, high) == Added(rules, low, high) + d
  {
    if low < high && FindRule(rules, low, high).None? {
      StepsUp(rules, d, low, high);
    }
  }

  /** Going down removes exactly the members of `Removed`. */
  lemma DownRemoves<V>(rules: seq<Rule<V>>, d: Doc<V>, low: nat, high: nat)
    requires low <= high && RemovesDown(rules, low, high)
    ensures Routable(rules, high, low) && Migrate(rules, d, high, low) == d - Removed(rules, low, high)
  {
    if low < high && FindRule(rules, high, low).None? {
      StepsDown(rules, d, low, high);
    }
  }

  function UpAndDown<V>(rules: seq<Rule<V>>, d: Doc<V>, low: nat, high: nat): Doc<V>
    requires Routable(rules, low, high) && Routable(rules, high, low)
  {
    Migrate(rules, Migrate(rules, d, low, high), high, low)
  }

  lemma ThereAndBack<V>(rules: seq<Rule<V>>, d: Doc<V>, low: nat, high: nat)
    requires low <= high && AddsUp(rules, low, high) && RemovesDown(rules, low, high)
    ensures Routable(rules, low, high) && Routable(rules, high, low)
    ensures UpAndDown(rules, d, low, high) == Added(rules, low, high) + d - Removed(rules, low, high)
  {
    UpAdds(rules, d, low, high);
    DownRemoves(rules, Added(rules, low, high) + d, low, high);
  }

  lemma CoveredIff<V(!new)>(added: Doc<V>, gone: set<string>)
    ensures (forall d: Doc<V> :: added + d - gone == d - gone) <==> added.Keys <= gone
  {
    var empty: Doc<V> := map[];
    if forall d: Doc<V> :: added + d - gone == d - gone {
      assert added + empty - gone == empty - gone;
      forall k | k in added.Keys
        ensures k in gone
      {
        assert k !in empty - gone && k in added + empty;
      }
    }
  }

  /**
   Where going up only adds and going down only removes, by direct rules or step by step, down
   after up returns every document without the removed members exactly when everything added is
   among the removed.
   */
  lemma RoundTripIff<V(!new)>(rules: seq<Rule<V>>, low: nat, high: nat)
    requires low <= high && AddsUp(rules, low, high) && RemovesDown(rules, low, high)
    ensures Routable(rules, low, high) && Routable(rules, high, low)
    ensures (forall d: Doc<V> :: UpAndDown(rules, d, low, high) == d - Removed(rules, low, high))
            <==> Added(rules, low, high).Keys <= Removed(rules, low, high)
  {
    ThereAndBack(rules, map[], low, high);
    var added, gone := Added(rules, low, high), Removed(rules, low, high);
    hide UpAndDown, Added, Removed, AddsUp, RemovesDown, Routable;
    forall d: Doc<V>
      ensures UpAndDown(rules, d, low, high) == added + d - gone
    {
      ThereAndBack(rules, d, low, high);
    }
    CoveredIff(added, gone);
  }

  /** The step up adds only what the step down removes. */
  predicate Rung<V>(rules: seq<Rule<V>>, i: nat) {
    && AddingStep(rules, i) && RemovingStep(rules, i)
    && FindRule(rules, i, i + 1).value.addDefaults.Keys <= Names(FindRule(rules, i + 1, i).value.removeFields)
  }

  /** All neighbours between the two versions are linked both ways, and no direct rule is taken instead. */
  predicate Ladder<V>(rules: seq<Rule<V>>, low: nat, high: nat) {
    && (forall i: nat | low <= i < high :: Rung(rules, i))
    && (low + 2 <= high ==> FindRule(rules, low, high).None? && FindRule(rules, high, low).None?)
  }

  lemma RungsSteps<V>(rules: seq<Rule<V>>, low: nat, high: nat)
    requires forall i: nat | low <= i < high :: Rung(rules, i)
    ensures AddingSteps(rules, low, high) && RemovingSteps(rules, low, high)
  {
    forall i: nat | low <= i < high
      ensures AddingStep(rules, i) && RemovingStep(rules, i)
    {
      assert Rung(rules, i);
    }
  }

  lemma {:induction false} RemovedFromBelow<V>(rules: seq<Rule<V>>, low: nat, high: nat)
    requires low < high && RemovingSteps(rules, low, high)
    ensures RemovingStep(rules, low)
    ensures StepsRemoved(rules, low, high)
            == Names(FindRule(rules, low + 1, low).value.removeFields) + StepsRemoved(rules, low + 1, high)
    decreases high - low
  {
    assert RemovingStep(rules, low);
    if low + 1 < high {
      RemovedFromBelow(rules, low, high - 1);
    } else {
      assert StepsRemoved(rules, low, low) == {};
    }
  }

  lemma {:induction false} StepsCovered<V>(rules: seq<Rule<V>>, low: nat, high: nat)
    requires low <= high && forall i: nat | low <= i < high :: Rung(rules, i)
    ensures AddingSteps(rules, low, high) && RemovingSteps(rules, low, high)
    ensures StepsAdded(rules, low, high).Keys <= StepsRemoved(rules, low, high)
    decreases high - low
  {
    RungsSteps(rules, low, high);
    if low < high {
      assert Rung(rules, low);
      StepsCovered(rules, low + 1, high);
      RemovedFromBelow(rules, low, high);
    }
  }

  /** On a ladder everything added is removed again. */
  lemma LadderCovered<V>(rules: seq<Rule<V>>, low: nat, high: nat)
    requires low <= high && Ladder(rules, low, high)
    ensures AddsUp(rules, low, high) && RemovesDown(rules, low, high)
    ensures Added(rules, low, high).Keys <= Removed(rules, low, high)
  {
    StepsCovered(rules, low, high);
    if high == low + 1 {
      assert Rung(rules, low);
    }
  }

  /**
   Down after up: on any ladder, migrating up from `low` to `high` and back down gives the
   document without the members that the down rules remove, hence the document itself exactly
   when it has none of them.
   */
  lemma DownAfterUp<V>(rules: seq<Rule<V>>, d: Doc<V>, low: nat, high: nat)
    requires low <= high && Ladder(rules, low, high)
    ensures Routable(rules, low, high) && Routable(rules, high, low) && RemovesDown(rules, low, high)
    ensures var back, gone := UpAndDown(rules, d, low, high), Removed(rules, low, high);
            back == d - gone && (back == d <==> d.Keys !! gone)
  {
    LadderCovered(rules, low, high);
    ThereAndBack(rules, d, low, high);
    var added, gone := Added(rules, low, high), Removed(rules, low, high);
    hide UpAndDown, Added, Removed, AddsUp, RemovesDown, Routable, Ladder;
    assert added + d - gone == d - gone;
    if d - gone == d {
      assert (d - gone).Keys == d.Keys - gone;
    }
  }

  // The rules registered at construction for V1, V2 and V3 (versions 0, 1 and 2).

  function OneToTwo<V>(nothing: V): Rule<V> {
    Rule(0, 1, FieldAdd, [], map["tenant_id" := nothing, "refresh_token" := nothing], [], None)
  }

  function TwoToThree<V>(nothing: V, object_: V, list: V): Rule<V> {
    Rule(1, 2, FieldAdd, [],
         map["audit_token" := nothing, "feature_flags" := object_, "roles" := list, "incident_id" := nothing], [], None)
  }

  function ThreeToTwo<V>(): Rule<V> {
    Rule(2, 1, FieldRemove, [], map[], ["audit_token", "feature_flags", "roles", "incident_id", "audit_chain"], None)
  }

  function TwoToOne<V>(): Rule<V> {
    Rule(1, 0, FieldRemove, [], map[],
         ["refresh_token", "tenant_id", "kill_switch_active", "idempotency_key", "plan_tier"], None)
  }

  function DefaultRules<V>(nothing: V, object_: V, list: V): seq<Rule<V>> {
    [OneToTwo(nothing), TwoToThree(nothing, object_, list), ThreeToTwo(), TwoToOne()]
  }

  lemma FindFirst<V>(rule: Rule<V>, rest: seq<Rule<V>>, a: nat, b: nat)
    ensures FindRule([rule] + rest, a, b)
            == if rule.source == a && rule.target == b then Some(rule) else FindRule(rest, a, b)
  {
    assert ([rule] + rest)[1..] == rest;
  }

  predicate Links<V>(r: Rule<V>, a: nat, b: nat) {
    r.source == a && r.target == b
  }

  lemma FindInFour<V>(r0: Rule<V>, r1: Rule<V>, r2: Rule<V>, r3: Rule<V>, a: nat, b: nat)
    ensures FindRule([r0, r1, r2, r3], a, b)
            == if Links(r0, a, b) then Some(r0) else if Links(r1, a, b) then Some(r1)
               else if Links(r2, a, b) then Some(r2) else if Links(r3, a, b) then Some(r3) else None
  {
    assert FindRule<V>([], a, b) == None;
    hide FindRule;
    FindFirst(r3, [], a, b);
    FindFirst(r2, [r3], a, b);
    FindFirst(r1, [r2, r3], a, b);
    FindFirst(r0, [r1, r2, r3], a, b);
    assert [r3] + [] == [r3] && [r2] + [r3] == [r2, r3] && [r1] + [r2, r3] == [r1, r2, r3];
    assert [r0] + [r1, r2, r3] == [r0, r1, r2, r3];
  }

  lemma DefaultRulesFound<V>(nothing: V, object_: V, list: V, a: nat, b: nat)
    ensures FindRule(DefaultRules(nothing, object_, list), a, b) ==
              if a == 0 && b == 1 then Some(OneToTwo(nothing))
              else if a == 1 && b == 2 then Some(TwoToThree(nothing, object_, list))
              else if a == 2 && b == 1 then Some(ThreeToTwo()) else if a == 1 && b == 0 then Some(TwoToOne()) else None
  {
    FindInFour(OneToTwo(nothing), TwoToThree(nothing, object_, list), ThreeToTwo<V>(), TwoToOne<V>(), a, b);
    hide FindRule;
  }

  lemma DefaultRungs<V>(nothing: V, object_: V, list: V)
    ensures Rung(DefaultRules(nothing, object_, list), 0)
    ensures Rung(DefaultRules(nothing, object_, list), 1)
  {
    DefaultRulesFound(nothing, object_, list, 0, 1);
    DefaultRulesFound(nothing, object_, list, 1, 2);
    DefaultRulesFound(nothing, object_, list, 2, 1);
    DefaultRulesFound(nothing, object_, list, 1, 0);
    hide FindRule, DefaultRules;
  }

  /** The default rules link any two versions by a ladder. */
  lemma DefaultRulesLadder<V>(nothing: V, object_: V, list: V, low: nat, high: nat)
    requires low <= high <= 2
    ensures Ladder(DefaultRules(nothing, object_, list), low, high)
  {
    DefaultRungs(nothing, object_, list);
    DefaultRulesFound(nothing, object_, list, low, high);
    DefaultRulesFound(nothing, object_, list, high, low);
    hide FindRule, DefaultRules, Rung;
  }

  /** What a V1 document gains on the way to V3. */
  lemma DefaultAdded<V>(nothing: V, object_: V, list: V)
    ensures AddsUp(DefaultRules(nothing, object_, list), 0, 2)
    ensures Added(DefaultRules(nothing, object_, list), 0, 2)
            == map["tenant_id" := nothing, "refresh_token" := nothing, "audit_token" := nothing,
                   "feature_flags" := object_, "roles" := list, "incident_id" := nothing]
  {
    var rules := DefaultRules(nothing, object_, list);
    DefaultRulesLadder(nothing, object_, list, 0, 2);
    LadderCovered(rules, 0, 2);
    DefaultRulesFound(nothing, object_, list, 0, 2);
    DefaultRulesFound(nothing, object_, list, 0, 1);
    DefaultRulesFound(nothing, object_, list, 1, 2);
    hide FindRule, DefaultRules;
    assert StepsAdded(rules, 2, 2) == map[];
    assert StepsAdded(rules, 1, 2) == TwoToThree(nothing, object_, list).addDefaults;
  }

  /** What a V1 document loses, and all it can lose, on the way to V3 and back. */
  lemma DefaultRemoved<V>(nothing: V, object_: V, list: V)
    ensures RemovesDown(DefaultRules(nothing, object_, list), 0, 2)
    ensures Removed(DefaultRules(nothing, object_, list), 0, 2)
            == Names(["refresh_token", "tenant_id", "kill_switch_active", "idempotency_key", "plan_tier"])
               + Names(["audit_token", "feature_flags", "roles", "incident_id", "audit_chain"])
  {
    var rules := DefaultRules(nothing, object_, list);
    DefaultRulesLadder(nothing, object_, list, 0, 2);
    LadderCovered(rules, 0, 2);
    DefaultRulesFound(nothing, object_, list, 2, 0);
    DefaultRulesFound(nothing, object_, list, 2, 1);
    DefaultRulesFound(nothing, object_, list, 1, 0);
    hide FindRule, DefaultRules, Names;
    assert StepsRemoved(rules, 0, 0) == {};
    assert StepsRemoved(rules, 0, 1) == Names(TwoToOne<V>().removeFields);
  }

  // ---------------------------------------------------------------- the migrator itself

  class ResponseMigrator<!V> {
    var rules: seq<Rule<V>>

    constructor (nothing: V, object_: V, list: V)
      ensures rules == DefaultRules(nothing, object_, list)
    {
      rules := DefaultRules(nothing, object_, list);
    }

    method Register(rule: Rule<V>)
      modifies this
      ensures rules == old(rules) + [rule]
      ensures forall a, b :: FindRule(old(rules), a, b).Some? ==> FindRule(rules, a, b) == FindRule(old(rules), a, b)
    {
      forall a, b
        ensures FindRule(rules, a, b).Some? ==> FindRule(rules + [rule], a, b) == FindRule(rules, a, b)
      {
        EarlierRuleWins(rules, rule, a, b);
      }
      rules := rules + [rule];
    }

    method MigrateDoc(data: Doc<V>, source: nat, target: nat) returns (result: Doc<V>)
      requires Routable(rules, source, target)
      ensures result == Migrate(rules, data, source, target)
      decreases Distance(source, target), 1
    {
      if source == target {
        return data;
      }
      var i := 0;
      while i < |rules|
        invariant 0 <= i <= |rules| && FindRule(rules, source, target) == FindRule(rules[i..], source, target)
      {
        if rules[i].source == source && rules[i].target == target {
          result := ApplyRule(data, rules[i]);
          return;
        }
        i := i + 1;
      }
      result := StepMigrate(data, source, target);
    }

    method StepMigrate(data: Doc<V>, source: nat, target: nat) returns (result: Doc<V>)
      requires source != target && Paved(rules, source, target) && FindRule(rules, source, target).None?
      ensures result == Steps(rules, data, source, target)
      decreases Distance(source, target), 0
    {
      result := data;
      var i := source;
      while i != target
        invariant Distance(i, target) <= Distance(source, target) && Paved(rules, i, target)
        invariant Steps(rules, result, i, target) == Steps(rules, data, source, target)
        decreases Distance(i, target)
      {
        var next := Next(i, target);
        NotAdjacent(rules, source, target);
        var stepped := MigrateDoc(result, i, next);
        result := stepped;
        i := next;
      }
    }

    method ApplyRule(data: Doc<V>, rule: Rule<V>) returns (result: Doc<V>)
      ensures result == Apply(data, rule)
    {
      result := data;
      match rule.strategy {
        case Passthrough =>
        case FieldAdd =>
          var todo := rule.addDefaults.Keys;
          while todo != {}
            invariant todo <= rule.addDefaults.Keys
            invariant result == (rule.addDefaults - todo) + data
            decreases todo
          {
            var k :| k in todo;
            if k !in result {
              result := result[k := rule.addDefaults[k]];
            }
            todo := todo - {k};
          }
          assert rule.addDefaults - {} == rule.addDefaults;
        case FieldRemove =>
          for i := 0 to |rule.removeFields|
            invariant result == data - Names(rule.removeFields[..i])
          {
            result := result - {rule.removeFields[i]};
            assert rule.removeFields[..i + 1] == rule.removeFields[..i] + [rule.removeFields[i]];
          }
          assert rule.removeFields[..|rule.removeFields|] == rule.removeFields;
        case FieldRename =>
          for i := 0 to |rule.fieldMap|
            invariant result == Rename(data, rule.fieldMap[..i])
          {
            var (from, to) := rule.fieldMap[i];
            assert rule.fieldMap[..i + 1][..i] == rule.fieldMap[..i];
            if from in result {
              var value := result[from];
              result := (result - {from})[to := value];
            }
          }
          assert rule.fieldMap[..|rule.fieldMap|] == rule.fieldMap;
        case Transform =>
          if rule.transformFn.Some? {
            result := rule.transformFn.value(result);
          }
      }
    }
  }

  lemma NotAdjacent<V>(rules: seq<Rule<V>>, source: nat, target: nat)
    requires source != target && Paved(rules, source, target) && FindRule(rules, source, target).None?
    ensures Distance(source, target) >= 2
  {
  }
}
