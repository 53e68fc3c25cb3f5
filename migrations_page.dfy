/**
 * The migrations page of one migration plan: which plan the route names,
 * the redirect when there is none, and which of the plan's Stage, Migrate
 * and Rollback actions its kebab menu offers enabled.
 */
module MigrationsPage {
  import opened Wrappers

  // ---------------------------------------------------------------------------
  // JavaScript truthiness of the disabled expressions
  // ---------------------------------------------------------------------------

  /** The values a destructured status flag, and an `||` chain over them, can take. */
  datatype JsValue = JsNull | JsBool(b: bool)

  predicate Truthy(v: JsValue) {
    v == JsBool(true)
  }

  /** JavaScript `a || b`: the left operand when it is truthy, otherwise the right one. */
  function JsOr(a: JsValue, b: JsValue): (r: JsValue)
    ensures Truthy(r) <==> Truthy(a) || Truthy(b)
    ensures r == a || r == b
  {
    if Truthy(a) then a else b
  }

  /** JavaScript `!a`: always a boolean. */
  function JsNot(a: JsValue): (r: JsValue)
    ensures r.JsBool? && (Truthy(r) <==> !Truthy(a))
  {
    JsBool(!Truthy(a))
  }

  // ---------------------------------------------------------------------------
  // Plans and their status
  // ---------------------------------------------------------------------------

  /**
   * The six status flags of a plan, as computed elsewhere. A flag that is
   * not present is `None`.
   */
  datatype PlanStatus = PlanStatus(
    hasClosedCondition: Option<bool>,
    hasReadyCondition: Option<bool>,
    hasErrorCondition: Option<bool>,
    hasRunningMigrations: Option<bool>,
    finalMigrationComplete: Option<bool>,
    isPlanLocked: Option<bool>)

  /** A plan as the page sees it: the name of its MigPlan resource and its status, if any. */
  datatype Plan = Plan(name: string, status: Option<PlanStatus>)

  /** Destructuring with default `null`: a missing flag reads as `null`. */
  function Destructured(flag: Option<bool>): (v: JsValue)
    ensures Truthy(v) <==> flag == Some(true)
    ensures flag.None? ==> v == JsNull
  {
    match flag
    case None => JsNull
    case Some(b) => JsBool(b)
  }

  /** The flag is present and true. */
  predicate Holds(flag: Option<bool>) {
    flag == Some(true)
  }

  /** The condition under which Stage and Migrate are unavailable, over plain booleans. */
  predicate StageBlocked(s: PlanStatus) {
    || Holds(s.hasClosedCondition)
    || !Holds(s.hasReadyCondition)
    || Holds(s.hasErrorCondition)
    || Holds(s.hasRunningMigrations)
    || Holds(s.finalMigrationComplete)
    || Holds(s.isPlanLocked)
  }

  /** The condition under which Rollback is unavailable: Stage's without the final-migration term. */
  predicate RollbackBlocked(s: PlanStatus) {
    || Holds(s.hasClosedCondition)
    || !Holds(s.hasReadyCondition)
    || Holds(s.hasErrorCondition)
    || Holds(s.hasRunningMigrations)
    || Holds(s.isPlanLocked)
  }

  /** The `isDisabled` value of the Stage item (and of the Migrate item, whose expression is the same). */
  function StageDisabled(s: PlanStatus): (v: JsValue)
    ensures Truthy(v) <==> StageBlocked(s)
  {
    JsOr(JsOr(JsOr(JsOr(JsOr(
      Destructured(s.hasClosedCondition),
      JsNot(Destructured(s.hasReadyCondition))),
      Destructured(s.hasErrorCondition)),
      Destructured(s.hasRunningMigrations)),
      Destructured(s.finalMigrationComplete)),
      Destructured(s.isPlanLocked))
  }

  /** The `isDisabled` value of the Rollback item. */
  function RollbackDisabled(s: PlanStatus): (v: JsValue)
    ensures Truthy(v) <==> RollbackBlocked(s)
  {
    JsOr(JsOr(JsOr(JsOr(
      Destructured(s.hasClosedCondition),
      JsNot(Destructured(s.hasReadyCondition))),
      Destructured(s.hasErrorCondition)),
      Destructured(s.hasRunningMigrations)),
      Destructured(s.isPlanLocked))
  }

  /** Whenever Rollback is disabled, so is Stage (and Migrate). */
  lemma RollbackDisabledImpliesStageDisabled(s: PlanStatus)
    ensures Truthy(RollbackDisabled(s)) ==> Truthy(StageDisabled(s))
  {
  }

  /** Stage and Rollback differ exactly when the final migration is complete and nothing else blocks. */
  lemma StageRollbackDiffer(s: PlanStatus)
    ensures Truthy(StageDisabled(s)) != Truthy(RollbackDisabled(s)) <==>
      && Holds(s.finalMigrationComplete)
      && !Holds(s.hasClosedCondition)
      && Holds(s.hasReadyCondition)
      && !Holds(s.hasErrorCondition)
      && !Holds(s.hasRunningMigrations)
      && !Holds(s.isPlanLocked)
  {
  }

  /** A missing ready flag disables all three actions. */
  lemma MissingReadyDisablesAll(s: PlanStatus)
    requires s.hasReadyCondition.None?
    ensures Truthy(StageDisabled(s)) && Truthy(RollbackDisabled(s))
  {
  }

  /** Any other missing flag counts as false, for Stage (and Migrate) and for Rollback alike. */
  lemma MissingFlagCountsAsFalse(s: PlanStatus)
    ensures
      var closed := s.(hasClosedCondition := None);
      Truthy(StageDisabled(closed)) == Truthy(StageDisabled(s.(hasClosedCondition := Some(false))))
    ensures
      var error := s.(hasErrorCondition := None);
      Truthy(StageDisabled(error)) == Truthy(StageDisabled(s.(hasErrorCondition := Some(false))))
    ensures
      var running := s.(hasRunningMigrations := None);
      Truthy(StageDisabled(running)) == Truthy(StageDisabled(s.(hasRunningMigrations := Some(false))))
    ensures
      var complete := s.(finalMigrationComplete := None);
      Truthy(StageDisabled(complete)) == Truthy(StageDisabled(s.(finalMigrationComplete := Some(false))))
    ensures
      var locked := s.(isPlanLocked := None);
      Truthy(StageDisabled(locked)) == Truthy(StageDisabled(s.(isPlanLocked := Some(false))))
    ensures
      var closed := s.(hasClosedCondition := None);
      Truthy(RollbackDisabled(closed)) == Truthy(RollbackDisabled(s.(hasClosedCondition := Some(false))))
    ensures
      var error := s.(hasErrorCondition := None);
      Truthy(RollbackDisabled(error)) == Truthy(RollbackDisabled(s.(hasErrorCondition := Some(false))))
    ensures
      var running := s.(hasRunningMigrations := None);
      Truthy(RollbackDisabled(running)) == Truthy(RollbackDisabled(s.(hasRunningMigrations := Some(false))))
    ensures
      var locked := s.(isPlanLocked := None);
      Truthy(RollbackDisabled(locked)) == Truthy(RollbackDisabled(s.(isPlanLocked := Some(false))))
  {
  }

  // ---------------------------------------------------------------------------
  // Plan lookup
  // ---------------------------------------------------------------------------

  /** The plan carries the route's plan name; a missing route parameter (`null`) matches no plan. */
  predicate NameMatches(plan: Plan, planName: Option<string>) {
    planName == Some(plan.name)
  }

  /** The position of the first plan named `planName`, or the length of the list when there is none. */
  function FirstMatchIndex(planList: seq<Plan>, planName: Option<string>): (k: nat)
    ensures k <= |planList|
    ensures k < |planList| ==> NameMatches(planList[k], planName)
    ensures forall j :: 0 <= j < k ==> !NameMatches(planList[j], planName)
  {
    if planList == [] then 0
    else if NameMatches(planList[0], planName) then 0
    else 1 + FirstMatchIndex(planList[1..], planName)
  }

  /** `planList.find(...)`: the first plan named `planName`, or `undefined` (`None`). */
  function FindPlan(planList: seq<Plan>, planName: Option<string>): (r: Option<Plan>)
    ensures r.None? <==> forall i :: 0 <= i < |planList| ==> !NameMatches(planList[i], planName)
    ensures r.Some? ==>
      exists i :: (0 <= i < |planList| && planList[i] == r.value
        && NameMatches(planList[i], planName)
        && forall j :: 0 <= j < i ==> !NameMatches(planList[j], planName))
    ensures planName.None? ==> r.None?
  {
    var k := FirstMatchIndex(planList, planName);
    if k < |planList| then Some(planList[k]) else None
  }

  /** Plans after a matching one never change the selection; before any match, the rest decides. */
  lemma {:induction false} FindPlanAppend(front: seq<Plan>, back: seq<Plan>, planName: Option<string>)
    ensures FindPlan(front + back, planName) ==
      if FindPlan(front, planName).Some? then FindPlan(front, planName) else FindPlan(back, planName)
  {
    FirstMatchIndexAppend(front, back, planName);
  }

  lemma {:induction false} FirstMatchIndexAppend(front: seq<Plan>, back: seq<Plan>, planName: Option<string>)
    ensures FirstMatchIndex(front + back, planName) ==
      var k := FirstMatchIndex(front, planName);
      if k < |front| then k else |front| + FirstMatchIndex(back, planName)
  {
    if front == [] {
      assert front + back == back;
    } else {
      assert (front + back)[0] == front[0];
      assert (front + back)[1..] == front[1..] + back;
      FirstMatchIndexAppend(front[1..], back, planName);
    }
  }

  // ---------------------------------------------------------------------------
  // The kebab menu
  // ---------------------------------------------------------------------------

  /** The three plan actions of the kebab menu. */
  datatype PlanAction = Stage | Migrate | Rollback

  datatype MenuItem = MenuItem(action: PlanAction, isDisabled: JsValue)

  /** The kebab items: none without a status, otherwise Stage, Migrate and Rollback in that order. */
  function KebabItems(planStatus: Option<PlanStatus>): (items: seq<MenuItem>)
    ensures planStatus.None? ==> items == []
    ensures planStatus.Some? ==>
      && |items| == 3
      && items[0].action == Stage && items[1].action == Migrate && items[2].action == Rollback
      && items[1].isDisabled == items[0].isDisabled
      && (Truthy(items[0].isDisabled) <==> StageBlocked(planStatus.value))
      && (Truthy(items[1].isDisabled) <==> StageBlocked(planStatus.value))
      && (Truthy(items[2].isDisabled) <==> RollbackBlocked(planStatus.value))
  {
    match planStatus
    case None => []
    case Some(s) =>
      [ MenuItem(Stage, StageDisabled(s)),
        MenuItem(Migrate, StageDisabled(s)),
        MenuItem(Rollback, RollbackDisabled(s)) ]
  }

  /** What choosing a menu item sets off besides closing the menu. */
  datatype Effect = RunStageRequest(plan: Plan) | ToggleMigrateModal | ToggleRollbackModal

  /** The outcome of a click on a menu item: the new kebab-open flag and the effect. */
  datatype Selection = Selection(kebabIsOpen: bool, effect: Effect)

  /** Choosing any item closes the menu; Stage requests a stage run of this plan, the others open their dialog. */
  function Select(action: PlanAction, plan: Plan): (r: Selection)
    ensures !r.kebabIsOpen
    ensures r.effect.RunStageRequest? <==> action == Stage
    ensures r.effect.RunStageRequest? ==> r.effect.plan == plan
    ensures r.effect == ToggleMigrateModal <==> action == Migrate
    ensures r.effect == ToggleRollbackModal <==> action == Rollback
  {
    match action
    case Stage => Selection(false, RunStageRequest(plan))
    case Migrate => Selection(false, ToggleMigrateModal)
    case Rollback => Selection(false, ToggleRollbackModal)
  }

  /** The kebab menu is closed when the page is first shown. */
  const InitialKebabIsOpen: bool := false

  /**
   * The kebab toggle flips the open flag, which starts at `InitialKebabIsOpen`
   * (closed); choosing an item (`Select`) closes it again.
   */
  function ToggleKebab(kebabIsOpen: bool): (r: bool)
    ensures r != kebabIsOpen
  {
    !kebabIsOpen
  }

  // ---------------------------------------------------------------------------
  // The routes
  // ---------------------------------------------------------------------------

  /** The three nested routes below the plan's migrations path. */
  datatype Route =
    | MigrationList
    | MigrationDetail(migrationID: string)
    | StepDetail(migrationID: string, stepName: string)

  /**
   * What a route shows below its header. `StatusMissingError` is the
   * TypeError the page throws when it reads `isPlanLocked` of a found plan
   * that has no status.
   */
  datatype Body =
    | Redirect(to: string)
    | StatusMissingError
    | MigrationsCard(plan: Plan, kebabItems: seq<MenuItem>)
    // the detail pages receive no plan from this page; they read the route themselves
    | MigrationDetails(migrationID: string)
    | MigrationStepDetails(migrationID: string, stepName: string)

  /**
   * The page: every route redirects to `/` when no plan carries the route's
   * plan name. Otherwise the list route shows the first plan that does, and
   * the detail routes show their detail pages for the route's migration and step. The element
   * trees of all three routes are built before one is chosen, and the list
   * route's tree reads `isPlanLocked` of the found plan's status without a
   * guard, so a found plan without a status fails on every route.
   */
  function Render(route: Route, planName: Option<string>, planList: seq<Plan>): (r: Body)
    ensures r == Redirect("/") <==> forall i :: 0 <= i < |planList| ==> !NameMatches(planList[i], planName)
    ensures r.Redirect? ==> r == Redirect("/")
    ensures r.StatusMissingError? <==>
      FindPlan(planList, planName).Some? && FindPlan(planList, planName).value.status.None?
    ensures r.MigrationsCard? ==>
      && FindPlan(planList, planName) == Some(r.plan)
      && NameMatches(r.plan, planName) && r.plan in planList && r.plan.status.Some?
    ensures r.MigrationsCard? <==> route.MigrationList? && !r.Redirect? && !r.StatusMissingError?
    ensures r.MigrationsCard? ==> r.kebabItems == KebabItems(r.plan.status)
    ensures r.MigrationDetails? <==> route.MigrationDetail? && !r.Redirect? && !r.StatusMissingError?
    ensures r.MigrationDetails? ==> r.migrationID == route.migrationID
    ensures r.MigrationStepDetails? <==> route.StepDetail? && !r.Redirect? && !r.StatusMissingError?
    ensures r.MigrationStepDetails? ==>
      r.migrationID == route.migrationID && r.stepName == route.stepName
  {
    match FindPlan(planList, planName)
    case None => Redirect("/")
    case Some(plan) =>
      if plan.status.None? then StatusMissingError
      else match route
      case MigrationList => MigrationsCard(plan, KebabItems(plan.status))
      case MigrationDetail(id) => MigrationDetails(id)
      case StepDetail(id, step) => MigrationStepDetails(id, step)
  }
}
