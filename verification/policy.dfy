/**
 Central policy: the requirements derived from a profile, the plan made for a stage, and the check that
 a plan meets the requirements, up to what a passing gate then says about every required check.
 */
module Policy {
  import opened Wrappers
  import opened EvidenceGate

  datatype Stage = PullRequest | Merge | Nightly | Release

  datatype ProfileCheck = ProfileCheck(id: string, kind: Kind, required: bool, stages: set<Stage>)

  type Requirements = map<string, Kind>

  datatype Central = Central(common: Requirements, byStage: map<Stage, Requirements>, supported: set<Stage>)

  /** The profile validator refuses two checks with one id. */
  predicate UniqueIds(checks: seq<ProfileCheck>) {
    forall c, d :: c in checks && d in checks && c.id == d.id ==> c == d
  }

  predicate RequiredAt(c: ProfileCheck, stage: Stage) { c.required && stage in c.stages }

  /** The stages with a required check. */
  function Supported(checks: seq<ProfileCheck>): set<Stage> {
    set stage | stage in STAGES && exists c :: c in checks && RequiredAt(c, stage)
  }

  predicate Common(c: ProfileCheck, supported: set<Stage>) { c.required && supported <= c.stages }

  function CommonOf(checks: seq<ProfileCheck>): Requirements
    requires UniqueIds(checks)
  {
    map c | c in checks && Common(c, Supported(checks)) :: c.id := c.kind
  }

  function ExtraOf(checks: seq<ProfileCheck>, stage: Stage): Requirements
    requires UniqueIds(checks)
  {
    map c | c in checks && RequiredAt(c, stage) && c.id !in CommonOf(checks) :: c.id := c.kind
  }

  const STAGES := {PullRequest, Merge, Nightly, Release}

  /** `_central_requirements`. */
  function CentralRequirements(checks: seq<ProfileCheck>): Option<Central>
    requires UniqueIds(checks)
  {
    if CommonOf(checks) == map[] then None
    else
      Some(Central(CommonOf(checks),
                   map stage | stage in STAGES && ExtraOf(checks, stage) != map[] :: ExtraOf(checks, stage),
                   Supported(checks)))
  }

  // ----- make_plan and enforce_policy -----

  function Planned(c: ProfileCheck): Check { Check(c.id, c.kind, c.required) }

  /** The selection of `make_plan`: the checks of the stage, in order. */
  function Selected(checks: seq<ProfileCheck>, stage: Stage): seq<Check>
    decreases |checks|
  {
    if checks == [] then []
    else
      var last := checks[|checks| - 1];
      Selected(checks[..|checks| - 1], stage) + (if stage in last.stages then [Planned(last)] else [])
  }

  /** `make_plan`: refused when it selects no required check. */
  method MakePlan(checks: seq<ProfileCheck>, stage: Stage) returns (plan: Option<seq<Check>>)
    ensures plan == if HasRequired(Selected(checks, stage)) then Some(Selected(checks, stage)) else None
  {
    var selected: seq<Check> := [];
    for i := 0 to |checks|
      invariant selected == Selected(checks[..i], stage)
    {
      assert checks[..i + 1][..i] == checks[..i];
      if stage in checks[i].stages {
        selected := selected + [Check(checks[i].id, checks[i].kind, checks[i].required)];
      }
    }
    assert checks[..|checks|] == checks;
    if selected == [] || !exists i :: 0 <= i < |selected| && selected[i].required { return None; }
    plan := Some(selected);
  }

  /** `{**required_checks, **required_checks_by_stage.get(stage, {})}`. */
  function RequirementsAt(c: Central, stage: Stage): Requirements {
    c.common + (if stage in c.byStage then c.byStage[stage] else map[])
  }

  /** `enforce_policy`, as far as it concerns checks. */
  predicate Enforced(c: Central, stage: Stage, plan: seq<Check>) {
    var selected, required := Expected(plan), RequirementsAt(c, stage);
    forall id :: id in required ==> id in selected && selected[id].required && selected[id].kind == required[id]
  }

  // ----- the generated policy fits its profile -----

  lemma {:induction false} SelectedHas(checks: seq<ProfileCheck>, stage: Stage, c: ProfileCheck)
    requires c in checks && stage in c.stages
    ensures Planned(c) in Selected(checks, stage)
    decreases |checks|
  {
    var n := |checks| - 1;
    if c != checks[n] {
      SelectedHas(checks[..n], stage, c);
    }
  }

  lemma {:induction false} SelectedFrom(checks: seq<ProfileCheck>, stage: Stage, p: Check) returns (c: ProfileCheck)
    requires p in Selected(checks, stage)
    ensures c in checks && stage in c.stages && p == Planned(c)
    decreases |checks|
  {
    var n := |checks| - 1;
    if p in Selected(checks[..n], stage) {
      c := SelectedFrom(checks[..n], stage, p);
    } else {
      c := checks[n];
    }
  }

  /** These are the places, in order, of the checks of a stage. */
  ghost predicate Places(checks: seq<ProfileCheck>, stage: Stage, at: seq<nat>) {
    && (forall i, j :: 0 <= i < j < |at| ==> at[i] < at[j])
    && (forall i :: 0 <= i < |at| ==> at[i] < |checks|)
    && (forall k: nat :: k < |checks| ==> (k in at <==> stage in checks[k].stages))
  }

  /** The plan is what the profile has at these places. */
  ghost predicate Picks(checks: seq<ProfileCheck>, stage: Stage, at: seq<nat>) {
    && Places(checks, stage, at) && |at| == |Selected(checks, stage)|
    && forall i :: 0 <= i < |at| ==>
         Selected(checks, stage)[i] == Check(checks[at[i]].id, checks[at[i]].kind, checks[at[i]].required)
  }

  /** The plan selects exactly the checks of the stage, in order, each as the profile has it. */
  lemma {:induction false} SelectedAt(checks: seq<ProfileCheck>, stage: Stage) returns (at: seq<nat>)
    ensures Picks(checks, stage, at)
    decreases |checks|
  {
    hide Picks;
    at := [];
    if checks == [] {
      NonePicked(stage);
    } else {
      at := SelectedAt(checks[..|checks| - 1], stage);
      PicksMore(checks, stage, at);
      if stage in checks[|checks| - 1].stages { at := at + [|checks| - 1]; }
    }
  }

  lemma NonePicked(stage: Stage)
    ensures Picks([], stage, [])
  {
  }

  lemma PicksMore(checks: seq<ProfileCheck>, stage: Stage, at: seq<nat>)
    requires checks != [] && Picks(checks[..|checks| - 1], stage, at)
    ensures Picks(checks, stage, if stage in checks[|checks| - 1].stages then at + [|checks| - 1] else at)
  {
    hide Places;
    PlacesMore(checks, stage, at);
    InFront(checks, stage, at);
  }

  lemma InFront(checks: seq<ProfileCheck>, stage: Stage, at: seq<nat>)
    requires checks != [] && Places(checks[..|checks| - 1], stage, at)
    ensures forall i :: 0 <= i < |at| ==> at[i] < |checks| - 1 && checks[..|checks| - 1][at[i]] == checks[at[i]]
  {
  }

  lemma PlacesMore(checks: seq<ProfileCheck>, stage: Stage, at: seq<nat>)
    requires checks != [] && Places(checks[..|checks| - 1], stage, at)
    ensures Places(checks, stage, if stage in checks[|checks| - 1].stages then at + [|checks| - 1] else at)
  {
    var n := |checks| - 1;
    assert forall k: nat :: k < n ==> checks[..n][k] == checks[k];
    var more := if stage in checks[n].stages then at + [n] else at;
    forall k: nat | k < |checks| ensures k in more <==> stage in checks[k].stages {
      assert k in more <==> k in at || (k == n && stage in checks[n].stages);
    }
  }

  /** Some stage needs this check, and so does every stage that needs any. */
  ghost predicate NeededEverywhere(checks: seq<ProfileCheck>, c: ProfileCheck) {
    && c in checks && c.required
    && forall d, stage :: d in checks && d.required && stage in d.stages ==> stage in c.stages
  }

  /** A policy is generated exactly if one required check belongs to every stage that has a required one. */
  lemma GeneratedIff(checks: seq<ProfileCheck>)
    requires UniqueIds(checks)
    ensures CentralRequirements(checks).Some? <==> exists c :: NeededEverywhere(checks, c)
  {
    hide CommonOf, ExtraOf;
    forall c | c in checks ensures NeededEverywhere(checks, c) <==> Common(c, Supported(checks)) {
      EveryStage(checks, c);
    }
    if c :| NeededEverywhere(checks, c) { CommonAt(checks, c); }
    if id :| id in CommonOf(checks) { CommonFrom(checks, id); }
  }

  lemma EveryStageListed(stage: Stage)
    ensures stage in STAGES
  {
  }

  lemma EveryStage(checks: seq<ProfileCheck>, c: ProfileCheck)
    requires c in checks
    ensures NeededEverywhere(checks, c) <==> Common(c, Supported(checks))
  {
    if Common(c, Supported(checks)) {
      forall d, stage | d in checks && d.required && stage in d.stages ensures stage in c.stages {
        EveryStageListed(stage);
        assert RequiredAt(d, stage);
        assert stage in Supported(checks);
      }
    }
    if NeededEverywhere(checks, c) {
      forall stage | stage in Supported(checks) ensures stage in c.stages {
        var d :| d in checks && RequiredAt(d, stage);
      }
    }
  }

  lemma CommonFrom(checks: seq<ProfileCheck>, id: string)
    requires UniqueIds(checks) && id in CommonOf(checks)
    ensures exists c :: c in checks && c.id == id && Common(c, Supported(checks))
  {
    hide Supported;
  }

  /** In the plan, an id stands for the check that the profile has under it. */
  lemma SelectedAs(checks: seq<ProfileCheck>, stage: Stage, c: ProfileCheck)
    requires UniqueIds(checks) && c in checks && stage in c.stages
    ensures c.id in Expected(Selected(checks, stage)) && Expected(Selected(checks, stage))[c.id] == Planned(c)
  {
    hide Selected;
    SelectedHas(checks, stage, c);
    var plan := Selected(checks, stage);
    var k :| 0 <= k < |plan| && plan[k] == Planned(c);
    assert plan[k].id == c.id;
    var d := SelectedFrom(checks, stage, Expected(plan)[c.id]);
  }

  lemma CommonAt(checks: seq<ProfileCheck>, c: ProfileCheck)
    requires UniqueIds(checks) && c in checks
    ensures c.id in CommonOf(checks) <==> Common(c, Supported(checks))
    ensures c.id in CommonOf(checks) ==> CommonOf(checks)[c.id] == c.kind
  {
    hide Supported;
  }

  lemma ExtraAt(checks: seq<ProfileCheck>, stage: Stage, c: ProfileCheck)
    requires UniqueIds(checks) && c in checks
    ensures c.id in ExtraOf(checks, stage) <==> RequiredAt(c, stage) && c.id !in CommonOf(checks)
    ensures c.id in ExtraOf(checks, stage) ==> ExtraOf(checks, stage)[c.id] == c.kind
  {
    hide CommonOf;
  }

  lemma RequirementsAre(checks: seq<ProfileCheck>, stage: Stage, central: Central)
    requires UniqueIds(checks) && CentralRequirements(checks) == Some(central)
    ensures RequirementsAt(central, stage) == CommonOf(checks) + ExtraOf(checks, stage)
    ensures central.supported == Supported(checks)
  {
    hide CommonOf, ExtraOf, Supported;
    assert stage in STAGES;
  }

  /** What is required at a supported stage, check by check. */
  lemma RequiredChecks(checks: seq<ProfileCheck>, stage: Stage, central: Central, c: ProfileCheck)
    requires UniqueIds(checks) && CentralRequirements(checks) == Some(central) && stage in central.supported
    requires c in checks && RequiredAt(c, stage)
    ensures c.id in RequirementsAt(central, stage) && RequirementsAt(central, stage)[c.id] == c.kind
  {
    hide CommonOf, ExtraOf, Supported, CentralRequirements, RequirementsAt, UniqueIds;
    RequirementsAre(checks, stage, central);
    CommonAt(checks, c);
    ExtraAt(checks, stage, c);
  }

  lemma RequiredFrom(checks: seq<ProfileCheck>, stage: Stage, central: Central, id: string) returns (c: ProfileCheck)
    requires UniqueIds(checks) && CentralRequirements(checks) == Some(central) && stage in central.supported
    requires id in RequirementsAt(central, stage)
    ensures c in checks && RequiredAt(c, stage) && c.id == id
  {
    hide Supported, CentralRequirements, RequirementsAt;
    RequirementsAre(checks, stage, central);
    if id in CommonOf(checks) {
      c :| c in checks && Common(c, Supported(checks)) && c.id == id;
    } else {
      hide CommonOf;
      c :| c in checks && RequiredAt(c, stage) && c.id == id;
    }
  }

  /** The requirements of a supported stage are exactly the required checks its plan selects. */
  lemma GeneratedPolicyFits(checks: seq<ProfileCheck>, stage: Stage, central: Central, id: string)
    requires UniqueIds(checks) && CentralRequirements(checks) == Some(central) && stage in central.supported
    ensures var required, selected := RequirementsAt(central, stage), Expected(Selected(checks, stage));
            && (id in required <==> id in selected && selected[id].required)
            && (id in required ==> required[id] == selected[id].kind)
  {
    hide CentralRequirements, RequirementsAt, Expected, Selected;
    var plan := Selected(checks, stage);
    if id in RequirementsAt(central, stage) {
      var c := RequiredFrom(checks, stage, central, id);
      RequiredChecks(checks, stage, central, c);
      SelectedAs(checks, stage, c);
    }
    if id in Expected(plan) && Expected(plan)[id].required {
      var c := SelectedFrom(checks, stage, Expected(plan)[id]);
      assert c.id == id;
      RequiredChecks(checks, stage, central, c);
    }
  }

  /** The plan of a supported stage exists and is accepted. */
  lemma GeneratedPolicyAcceptsItsPlan(checks: seq<ProfileCheck>, stage: Stage, central: Central)
    requires UniqueIds(checks) && CentralRequirements(checks) == Some(central) && stage in central.supported
    ensures HasRequired(Selected(checks, stage)) && Enforced(central, stage, Selected(checks, stage))
  {
    RequirementsAre(checks, stage, central);
    OnlySupportedStagesHavePlans(checks, stage);
    hide CentralRequirements, RequirementsAt, Expected, Selected;
    forall id | id in RequirementsAt(central, stage)
      ensures var selected := Expected(Selected(checks, stage));
              id in selected && selected[id].required && selected[id].kind == RequirementsAt(central, stage)[id]
    {
      GeneratedPolicyFits(checks, stage, central, id);
    }
  }

  predicate Keeps(plan: seq<Check>, c: ProfileCheck) {
    c.id in Expected(plan) && Expected(plan)[c.id] == Check(c.id, c.kind, true)
  }

  /** A plan is accepted exactly when it keeps every required check of the stage, required and of its kind. */
  lemma AcceptedPlansKeepEveryCheck(checks: seq<ProfileCheck>, stage: Stage, central: Central, plan: seq<Check>)
    requires UniqueIds(checks) && CentralRequirements(checks) == Some(central) && stage in central.supported
    ensures Enforced(central, stage, plan) <==>
              forall c :: c in checks && RequiredAt(c, stage) ==> Keeps(plan, c)
  {
    hide CentralRequirements, RequirementsAt, Selected;
    forall c | c in checks && RequiredAt(c, stage)
      ensures c.id in RequirementsAt(central, stage) && RequirementsAt(central, stage)[c.id] == c.kind
    {
      RequiredChecks(checks, stage, central, c);
    }
    forall id | id in RequirementsAt(central, stage)
      ensures exists c :: c in checks && RequiredAt(c, stage) && c.id == id
    {
      var c := RequiredFrom(checks, stage, central, id);
    }
  }

  /** Without a required check of the stage in it, or with that check optional or of another kind, a plan is refused. */
  lemma WeakenedPlansAreRefused(
      checks: seq<ProfileCheck>, stage: Stage, central: Central, plan: seq<Check>, c: ProfileCheck, changed: Check)
    requires UniqueIds(checks) && CentralRequirements(checks) == Some(central) && stage in central.supported
    requires c in checks && RequiredAt(c, stage)
    requires forall k :: 0 <= k < |plan| ==> plan[k].id == c.id ==> plan[k] == changed
    requires !changed.required || changed.kind != c.kind
    ensures !Enforced(central, stage, plan)
  {
    hide CentralRequirements, RequirementsAt, Selected, Enforced;
    AcceptedPlansKeepEveryCheck(checks, stage, central, plan);
    if c.id in Expected(plan) {
      assert Expected(plan)[c.id] in plan;
    }
  }

  /** A stage has a plan exactly if it is one of the supported ones. */
  lemma OnlySupportedStagesHavePlans(checks: seq<ProfileCheck>, stage: Stage)
    ensures HasRequired(Selected(checks, stage)) <==> stage in Supported(checks)
  {
    var plan := Selected(checks, stage);
    if k :| 0 <= k < |plan| && plan[k].required {
      var c := SelectedFrom(checks, stage, plan[k]);
      assert RequiredAt(c, stage) && stage in STAGES;
    }
    if c :| c in checks && RequiredAt(c, stage) {
      SelectedHas(checks, stage, c);
    }
  }

  /** A passing gate over a plan that keeps a required check holds a passing, backed result of that check. */
  lemma PassingRunsMeetThePolicy(c: ProfileCheck, plan: seq<Check>, results: seq<Result>)
    requires Keeps(plan, c) && Complete(plan, results)
    ensures exists k :: 0 <= k < |results| && results[k].id == c.id && results[k].status == Passed
              && results[k].exit == Some(0) && (c.kind.Test? ==> TestsPassed(results[k].evidence))
  {
    assert c.id in Ids(results);
    var k :| 0 <= k < |results| && results[k].id == c.id;
    assert Clean(Expected(plan), results[k]);
  }
}
