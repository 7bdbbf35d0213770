/** The onboarding wizard's handlers: the page keeps its own `currentStep`
    cell, clamps it to the steps 1..8, and mirrors every change into the
    onboarding store. Rendering is not modelled beyond which navigation
    buttons are offered. */
module OnboardingPage {
  import opened Common
  import AuthStore
  import opened UserStore

  const FIRST_STEP: int := 1
  const TOTAL_STEPS: int := 8
  const REPORT_ROUTE: string := "/onboarding/report"

  predicate InRange(step: int) {
    FIRST_STEP <= step <= TOTAL_STEPS
  }

  // ------------------------------------------------------------ stepping

  /** The step after `handleNext`: one further, unless already at the last step. */
  function NextStep(step: int): (r: int)
    ensures step < TOTAL_STEPS ==> r == step + 1
    ensures step >= TOTAL_STEPS ==> r == step
  {
    if step < TOTAL_STEPS then step + 1 else step
  }

  /** The step after `handlePrevious`: one back, unless already at the first step. */
  function PreviousStep(step: int): (r: int)
    ensures step > FIRST_STEP ==> r == step - 1
    ensures step <= FIRST_STEP ==> r == step
  {
    if step > FIRST_STEP then step - 1 else step
  }

  datatype NavAction = Next | Previous

  /** Whether the handler for `a` changes the step (and so writes to the store). */
  predicate Moves(step: int, a: NavAction) {
    match a
    case Next => step < TOTAL_STEPS
    case Previous => step > FIRST_STEP
  }

  function Navigate(step: int, a: NavAction): int {
    match a
    case Next => NextStep(step)
    case Previous => PreviousStep(step)
  }

  /** The page's step after a sequence of button presses. */
  function RunNavigation(step: int, actions: seq<NavAction>): int
    decreases |actions|
  {
    if actions == [] then step else RunNavigation(Navigate(step, actions[0]), actions[1..])
  }

  /** Starting inside 1..8, no sequence of presses leaves 1..8. */
  lemma {:induction false} NavigationStaysInRange(step: int, actions: seq<NavAction>)
    requires InRange(step)
    ensures InRange(RunNavigation(step, actions))
    decreases |actions|
  {
    if actions != [] {
      NavigationStaysInRange(Navigate(step, actions[0]), actions[1..]);
    }
  }

  /** The store's onboarding data after the handlers' writes for a sequence
      of presses: a press that moves writes `{currentStep: new step}`, one
      that does not writes nothing. */
  function MirrorNavigation(data: Option<OnboardingData>, step: int, actions: seq<NavAction>): Option<OnboardingData>
    decreases |actions|
  {
    if actions == [] then data
    else
      var a := actions[0];
      var next := Navigate(step, a);
      var written := if Moves(step, a) then Some(MergeOnboarding(data, StepPatch(next))) else data;
      MirrorNavigation(written, next, actions[1..])
  }

  /** If the store agrees with the page before, it agrees after any
      sequence of presses; the rest of the onboarding data is kept, and
      completion survives only a sequence that wrote nothing at all. */
  lemma {:induction false} NavigationMirrorsStore(data: Option<OnboardingData>, step: int, actions: seq<NavAction>)
    requires InRange(step)
    requires data.Some? && data.value.currentStep == step
    ensures var d := MirrorNavigation(data, step, actions);
      && d.Some? && d.value.currentStep == RunNavigation(step, actions)
      && d.value.userId == data.value.userId && d.value.answers == data.value.answers
      && (data.value.totalSteps != 0 ==> d.value.totalSteps == data.value.totalSteps)
      && (d.value.isComplete ==> d == data)
    decreases |actions|
  {
    if actions != [] {
      var a := actions[0];
      var next := Navigate(step, a);
      var written := if Moves(step, a) then Some(MergeOnboarding(data, StepPatch(next))) else data;
      NavigationMirrorsStore(written, next, actions[1..]);
    }
  }

  // ------------------------------------------------------------- buttons

  datatype PrimaryButton = NextButton | SubmitButton

  /** The right-hand button: Next before the last step, Submit on it. */
  function PrimaryAction(step: int): (b: PrimaryButton)
    ensures b == NextButton <==> step < TOTAL_STEPS
  {
    if step < TOTAL_STEPS then NextButton else SubmitButton
  }

  /** The Previous button is disabled on the first step. */
  function PreviousDisabled(step: int): (disabled: bool)
    ensures disabled <==> step == FIRST_STEP
  {
    step == FIRST_STEP
  }

  /** Inside 1..8 the buttons offered are exactly the moves the handlers
      make: Next is offered iff it moves, Previous is enabled iff it moves,
      and Submit appears only on the last step. */
  lemma ButtonsAgreeWithHandlers(step: int)
    requires InRange(step)
    ensures PrimaryAction(step) == NextButton <==> Moves(step, Next)
    ensures PrimaryAction(step) == SubmitButton <==> step == TOTAL_STEPS
    ensures !PreviousDisabled(step) <==> Moves(step, Previous)
  {
  }

  // ---------------------------------------------------------- the page

  /** The patch the initialising effect writes for user `userId`: on an
      empty store it yields step 1 of 8, incomplete, owned by the user. */
  function InitialPatch(userId: string): (p: OnboardingPatch)
    ensures MergeOnboarding(None, p) == OnboardingData(FIRST_STEP, TOTAL_STEPS, false, Some(userId), map[])
  {
    OnboardingPatch(Some(FIRST_STEP), Some(TOTAL_STEPS), Some(false), Some(userId), map[])
  }

  class Wizard {
    /** The page's `currentStep` state cell. */
    var currentStep: int
    var isSubmitting: bool
    /** The onboarding store the page reads and writes. */
    const store: UserStore.Store

    constructor (store: UserStore.Store)
      ensures currentStep == FIRST_STEP && !isSubmitting && this.store == store
    {
      currentStep, isSubmitting := FIRST_STEP, false;
      this.store := store;
    }

    /** The initialising effect: only an authenticated user with no stored
        data gets fresh data, at step 1 of 8, incomplete, owned by the user. */
    method InitEffect(isAuthenticated: bool, user: Option<AuthStore.User>)
      modifies store
      ensures isAuthenticated && user.Some? && old(store.onboardingData).None? ==>
        store.State() == old(store.State()).(onboardingData :=
          Some(OnboardingData(FIRST_STEP, TOTAL_STEPS, false, Some(user.value.id), map[])))
      ensures !(isAuthenticated && user.Some? && old(store.onboardingData).None?) ==>
        store.State() == old(store.State())
    {
      if isAuthenticated && user.Some? && store.onboardingData.None? {
        store.UpdateOnboarding(InitialPatch(user.value.id));
      }
    }

    /** The effect that loads saved progress: a truthy stored step is copied
        into the page (without clamping). */
    method SyncStepEffect()
      modifies this
      ensures store.onboardingData.Some? && store.onboardingData.value.currentStep != 0 ==>
        currentStep == store.onboardingData.value.currentStep
      ensures !(store.onboardingData.Some? && store.onboardingData.value.currentStep != 0) ==>
        currentStep == old(currentStep)
      ensures isSubmitting == old(isSubmitting)
    {
      if store.onboardingData.Some? && store.onboardingData.value.currentStep != 0 {
        currentStep := store.onboardingData.value.currentStep;
      }
    }

    /** `handleNext`. */
    method HandleNext()
      modifies this, store
      ensures currentStep == NextStep(old(currentStep)) && isSubmitting == old(isSubmitting)
      ensures Moves(old(currentStep), Next) ==>
        store.State() == old(store.State()).(onboardingData :=
          Some(MergeOnboarding(old(store.onboardingData), StepPatch(currentStep))))
      ensures !Moves(old(currentStep), Next) ==> store.State() == old(store.State())
      ensures Moves(old(currentStep), Next) && currentStep != 0 ==>
        store.onboardingData.Some? && store.onboardingData.value.currentStep == currentStep
        && !store.onboardingData.value.isComplete
    {
      if currentStep < TOTAL_STEPS {
        var nextStep := currentStep + 1;
        currentStep := nextStep;
        store.UpdateOnboarding(StepPatch(nextStep));
      }
    }

    /** `handlePrevious`. */
    method HandlePrevious()
      modifies this, store
      ensures currentStep == PreviousStep(old(currentStep)) && isSubmitting == old(isSubmitting)
      ensures Moves(old(currentStep), Previous) ==>
        store.State() == old(store.State()).(onboardingData :=
          Some(MergeOnboarding(old(store.onboardingData), StepPatch(currentStep))))
      ensures !Moves(old(currentStep), Previous) ==> store.State() == old(store.State())
      ensures Moves(old(currentStep), Previous) && currentStep != 0 ==>
        store.onboardingData.Some? && store.onboardingData.value.currentStep == currentStep
        && !store.onboardingData.value.isComplete
    {
      if currentStep > FIRST_STEP {
        var prevStep := currentStep - 1;
        currentStep := prevStep;
        store.UpdateOnboarding(StepPatch(prevStep));
      }
    }

    /** `handleSubmit`: marks the data complete, so the store's guard holds
        when it submits, and then navigates to the report whatever the
        submission's outcome (the store catches every failure). */
    method HandleSubmit(reply: HttpOutcome<Profile>, notify: HttpOutcome<()>) returns (route: string)
      modifies this, store
      ensures route == REPORT_ROUTE && !isSubmitting && currentStep == old(currentStep)
      ensures store.State() == Submitted(
        old(store.State()).(onboardingData := Some(MergeOnboarding(old(store.onboardingData), CompletionPatch()))),
        store.demoMode, store.demoProfile, reply, notify)
      ensures ReadyToSubmit(store.onboardingData) && !store.isLoading
      ensures store.demoMode ==>
        store.profile == Some(store.demoProfile) && store.isOnboardingComplete && store.error.None?
      ensures !store.demoMode && reply.Ok? ==>
        store.profile == Some(reply.body) && store.isOnboardingComplete
    {
      isSubmitting := true;
      store.UpdateOnboarding(CompletionPatch());
      store.SubmitOnboarding(reply, notify);
      route := REPORT_ROUTE;
      isSubmitting := false;
    }
  }
}
