/** The onboarding and profile store: the wizard's collected data, the
    profile created from it, the completion flag, and the loading and error
    flags.

    The questionnaire sections (marathon goal, experience, ...) are kept as
    opaque serialized values keyed by `Section`: every merge in the store is
    a shallow object spread, which replaces a section wholesale, so their
    inner structure plays no part. HTTP calls arrive as `HttpOutcome`s and
    the current time as an ISO string. */
module UserStore {
  import opened Common

  /** The fallbacks of `updateOnboarding` for a missing step or step count. */
  const DEFAULT_STEP: int := 1
  const DEFAULT_TOTAL_STEPS: int := 8

  const INCOMPLETE: string := "Onboarding data incomplete"
  const SUBMIT_REJECTED: string := "Failed to submit onboarding data"
  const SUBMISSION_FAILED: string := "Submission failed"

  const DEMO_PROFILE_ID: string := "profile-demo-1"
  const DEMO_PROFILE_USER_ID: string := "demo-user-1"

  /** The questionnaire sections shared by onboarding data and profiles. */
  datatype Section = MarathonGoal | Experience | WeeklyAvailability | CurrentFitness | Goals | Constraints

  const ALL_SECTIONS: set<Section> :=
    {MarathonGoal, Experience, WeeklyAvailability, CurrentFitness, Goals, Constraints}

  /** Serialized value of one section. */
  type SectionValue = string

  datatype OnboardingData = OnboardingData(
    currentStep: int,
    totalSteps: int,
    isComplete: bool,
    userId: Option<string>,
    answers: map<Section, SectionValue>)

  /** `Partial<OnboardingData>`: a field is `None` when the caller left it out. */
  datatype OnboardingPatch = OnboardingPatch(
    currentStep: Option<int>,
    totalSteps: Option<int>,
    isComplete: Option<bool>,
    userId: Option<string>,
    answers: map<Section, SectionValue>)

  datatype Profile = Profile(
    id: string,
    userId: string,
    sections: map<Section, SectionValue>,
    ouraRingConnected: bool,
    createdAt: string,
    updatedAt: string)

  /** `Partial<UserProfile>`. */
  datatype ProfilePatch = ProfilePatch(
    id: Option<string>,
    userId: Option<string>,
    sections: map<Section, SectionValue>,
    ouraRingConnected: Option<bool>,
    createdAt: Option<string>,
    updatedAt: Option<string>)

  datatype UserState = UserState(
    profile: Option<Profile>,
    onboardingData: Option<OnboardingData>,
    isOnboardingComplete: bool,
    isLoading: bool,
    error: Option<string>)

  /** The slice written to the `user-storage` key. */
  datatype PersistedUser = PersistedUser(
    profile: Option<Profile>,
    onboardingData: Option<OnboardingData>,
    isOnboardingComplete: bool)

  /** The patch `{ currentStep: step }`. */
  function StepPatch(step: int): OnboardingPatch {
    OnboardingPatch(Some(step), None, None, None, map[])
  }

  /** The patch `{ isComplete: true }`. */
  function CompletionPatch(): OnboardingPatch {
    OnboardingPatch(None, None, Some(true), None, map[])
  }

  // ------------------------------------------------------------ merging

  /** `after` is the value given in the patch when there is one, the value
      from `before` otherwise. */
  predicate Overrides<T(==)>(given: Option<T>, before: T, after: T) {
    (given.Some? ==> after == given.value) && (given.None? ==> after == before)
  }

  /** The object `updateOnboarding` stores: the previous data spread under
      the patch, then `currentStep` and `totalSteps` taken from the first
      truthy of patch, previous data and default, and `isComplete` true
      only when the patch says so. */
  function MergeOnboarding(current: Option<OnboardingData>, data: OnboardingPatch): (r: OnboardingData)
    ensures TruthyInt(data.currentStep) ==> r.currentStep == data.currentStep.value
    ensures !TruthyInt(data.currentStep) && current.Some? && current.value.currentStep != 0 ==>
      r.currentStep == current.value.currentStep
    ensures !TruthyInt(data.currentStep) && (current.None? || current.value.currentStep == 0) ==>
      r.currentStep == DEFAULT_STEP
    ensures TruthyInt(data.totalSteps) ==> r.totalSteps == data.totalSteps.value
    ensures !TruthyInt(data.totalSteps) && current.Some? && current.value.totalSteps != 0 ==>
      r.totalSteps == current.value.totalSteps
    ensures !TruthyInt(data.totalSteps) && (current.None? || current.value.totalSteps == 0) ==>
      r.totalSteps == DEFAULT_TOTAL_STEPS
    ensures r.currentStep != 0 && r.totalSteps != 0
    ensures r.isComplete <==> data.isComplete == Some(true)
    ensures current.None? ==> r.userId == data.userId && r.answers == data.answers
    ensures data.userId.Some? ==> r.userId == data.userId
    ensures current.Some? && data.userId.None? ==> r.userId == current.value.userId
    ensures current.Some? ==> r.answers.Keys == current.value.answers.Keys + data.answers.Keys
    ensures forall k :: k in data.answers ==> k in r.answers && r.answers[k] == data.answers[k]
    ensures current.Some? ==> forall k :: k in current.value.answers && k !in data.answers ==>
      k in r.answers && r.answers[k] == current.value.answers[k]
  {
    var previousStep := if current.Some? then current.value.currentStep else 0;
    var previousTotal := if current.Some? then current.value.totalSteps else 0;
    OnboardingData(
      if TruthyInt(data.currentStep) then data.currentStep.value
      else if previousStep != 0 then previousStep else DEFAULT_STEP,
      if TruthyInt(data.totalSteps) then data.totalSteps.value
      else if previousTotal != 0 then previousTotal else DEFAULT_TOTAL_STEPS,
      TruthyBool(data.isComplete),
      if data.userId.Some? then data.userId else if current.Some? then current.value.userId else None,
      if current.Some? then current.value.answers + data.answers else data.answers)
  }

  /** Applying the same patch twice stores the same data as applying it once. */
  lemma MergeOnboardingIdempotent(current: Option<OnboardingData>, data: OnboardingPatch)
    ensures MergeOnboarding(Some(MergeOnboarding(current, data)), data) == MergeOnboarding(current, data)
  {
  }

  /** Setting a step and then completing keeps the step: from no data,
      `{currentStep: s}` then `{isComplete: true}` gives step `s` of 8, complete. */
  lemma StepThenCompletion(step: int)
    requires step != 0
    ensures MergeOnboarding(Some(MergeOnboarding(None, StepPatch(step))), CompletionPatch())
      == OnboardingData(step, DEFAULT_TOTAL_STEPS, true, None, map[])
  {
  }

  /** The profile `updateProfile` stores: the previous profile spread under
      the patch, with `updatedAt` replaced by the current time. */
  function MergeProfile(p: Profile, data: ProfilePatch, nowIso: string): (r: Profile)
    ensures r.updatedAt == nowIso
    ensures Overrides(data.id, p.id, r.id) && Overrides(data.userId, p.userId, r.userId)
    ensures Overrides(data.ouraRingConnected, p.ouraRingConnected, r.ouraRingConnected)
    ensures Overrides(data.createdAt, p.createdAt, r.createdAt)
    ensures r.sections.Keys == p.sections.Keys + data.sections.Keys
    ensures forall k :: k in data.sections ==> r.sections[k] == data.sections[k]
    ensures forall k :: k in p.sections && k !in data.sections ==> r.sections[k] == p.sections[k]
  {
    Profile(
      if data.id.Some? then data.id.value else p.id,
      if data.userId.Some? then data.userId.value else p.userId,
      p.sections + data.sections,
      if data.ouraRingConnected.Some? then data.ouraRingConnected.value else p.ouraRingConnected,
      if data.createdAt.Some? then data.createdAt.value else p.createdAt,
      nowIso)
  }

  /** An empty patch only refreshes the timestamp. */
  lemma EmptyProfilePatchTouchesOnly(p: Profile, nowIso: string)
    ensures MergeProfile(p, ProfilePatch(None, None, map[], None, None, None), nowIso) == p.(updatedAt := nowIso)
  {
  }

  // --------------------------------------------------------- submission

  /** The guard of `submitOnboarding`: data present and marked complete. */
  predicate ReadyToSubmit(d: Option<OnboardingData>): (ready: bool)
    ensures d.None? ==> !ready
    ensures d.Some? ==> (ready <==> d.value.isComplete)
  {
    d.Some? && d.value.isComplete
  }

  /** After `updateOnboarding(data)` the guard holds exactly when the patch
      set `isComplete` to true; in particular after `{isComplete: true}`. */
  lemma ReadyAfterMergeIff(current: Option<OnboardingData>, data: OnboardingPatch)
    ensures ReadyToSubmit(Some(MergeOnboarding(current, data))) <==> TruthyBool(data.isComplete)
    ensures ReadyToSubmit(Some(MergeOnboarding(current, CompletionPatch())))
  {
  }

  /** The fixed demo profile, built once when the module loads at `loadedAt`;
      the Oura ring counts as connected exactly in demo mode. */
  function DemoProfile(loadedAt: string, demoMode: bool): (p: Profile)
    ensures p.id == DEMO_PROFILE_ID && p.userId == DEMO_PROFILE_USER_ID
    ensures p.ouraRingConnected == demoMode
    ensures p.createdAt == loadedAt && p.updatedAt == loadedAt
    ensures p.sections.Keys == ALL_SECTIONS
  {
    var fixture := map[MarathonGoal := "fixture", Experience := "fixture",
                       WeeklyAvailability := "fixture", CurrentFitness := "fixture",
                       Goals := "fixture", Constraints := "fixture"];
    Profile(DEMO_PROFILE_ID, DEMO_PROFILE_USER_ID, fixture, demoMode, loadedAt, loadedAt)
  }

  /** The state `submitOnboarding` leaves, given the profile endpoint's
      outcome and the notification call's outcome (only a rejection of the
      latter counts as failure: a non-ok reply is not inspected). */
  function Submitted(s: UserState, demoMode: bool, demoProfile: Profile,
                     reply: HttpOutcome<Profile>, notify: HttpOutcome<()>): (r: UserState)
    ensures !ReadyToSubmit(s.onboardingData) ==> r == s.(error := Some(INCOMPLETE))
    ensures ReadyToSubmit(s.onboardingData) ==> !r.isLoading && r.onboardingData == s.onboardingData
    ensures ReadyToSubmit(s.onboardingData) && demoMode ==>
      r.profile == Some(demoProfile) && r.isOnboardingComplete && r.error.None?
    ensures ReadyToSubmit(s.onboardingData) && !demoMode && reply.Ok? ==>
      && r.profile == Some(reply.body) && r.isOnboardingComplete
      && (notify.Threw? ==> r.error == Some(ErrorMessage(notify.thrown, SUBMISSION_FAILED)))
      && (!notify.Threw? ==> r.error.None?)
    ensures ReadyToSubmit(s.onboardingData) && !demoMode && !reply.Ok? ==>
      && r.profile == s.profile && r.isOnboardingComplete == s.isOnboardingComplete
      && r.error == Some(if reply.NotOk? then SUBMIT_REJECTED else ErrorMessage(reply.thrown, SUBMISSION_FAILED))
  {
    if !ReadyToSubmit(s.onboardingData) then
      s.(error := Some(INCOMPLETE))
    else if demoMode then
      s.(profile := Some(demoProfile), isOnboardingComplete := true, isLoading := false, error := None)
    else
      match reply
      case Ok(p) =>
        var stored := s.(profile := Some(p), isOnboardingComplete := true, isLoading := false, error := None);
        if notify.Threw? then stored.(error := Some(ErrorMessage(notify.thrown, SUBMISSION_FAILED)))
        else stored
      case NotOk =>
        s.(isLoading := false, error := Some(SUBMIT_REJECTED))
      case Threw(e) =>
        s.(isLoading := false, error := Some(ErrorMessage(e, SUBMISSION_FAILED)))
  }

  /** Submitting twice in a row with the same outcomes leaves the same state
      as submitting once: the guard, once passed, still passes, and the
      stored profile is the same. */
  lemma SubmitIdempotent(s: UserState, demoMode: bool, demoProfile: Profile,
                         reply: HttpOutcome<Profile>, notify: HttpOutcome<()>)
    ensures var once := Submitted(s, demoMode, demoProfile, reply, notify);
      Submitted(once, demoMode, demoProfile, reply, notify) == once
  {
  }

  // -------------------------------------------------------- persistence

  /** `partialize`: profile, onboarding data and completion flag. */
  function Partialize(s: UserState): (p: PersistedUser)
    ensures p.profile == s.profile && p.onboardingData == s.onboardingData
    ensures p.isOnboardingComplete == s.isOnboardingComplete
  {
    PersistedUser(s.profile, s.onboardingData, s.isOnboardingComplete)
  }

  /** The initial state, overwritten by the persisted slice when one was saved. */
  function Rehydrate(saved: Option<PersistedUser>): (s: UserState)
    ensures !s.isLoading && s.error.None?
    ensures saved.None? ==> s.profile.None? && s.onboardingData.None? && !s.isOnboardingComplete
    ensures saved.Some? ==> Partialize(s) == saved.value
  {
    match saved
    case None => UserState(None, None, false, false, None)
    case Some(p) => UserState(p.profile, p.onboardingData, p.isOnboardingComplete, false, None)
  }

  /** Persisting and reloading gives back exactly the states that are not
      loading and carry no error. */
  lemma PersistRoundTrip(s: UserState)
    ensures Rehydrate(Some(Partialize(s))) == s <==> (!s.isLoading && s.error.None?)
  {
  }

  // ------------------------------------------------------------ the store

  class Store {
    /** `isDemoMode()`, fixed when the application starts. */
    const demoMode: bool
    /** `demoUserProfile`, built once when the module loads. */
    const demoProfile: Profile

    var profile: Option<Profile>
    var onboardingData: Option<OnboardingData>
    var isOnboardingComplete: bool
    var isLoading: bool
    var error: Option<string>

    function State(): UserState
      reads this
    {
      UserState(profile, onboardingData, isOnboardingComplete, isLoading, error)
    }

    constructor (demoMode: bool, loadedAt: string, saved: Option<PersistedUser>)
      ensures this.demoMode == demoMode && demoProfile == DemoProfile(loadedAt, demoMode)
      ensures State() == Rehydrate(saved)
    {
      this.demoMode := demoMode;
      demoProfile := DemoProfile(loadedAt, demoMode);
      var s := Rehydrate(saved);
      profile, onboardingData, isOnboardingComplete := s.profile, s.onboardingData, s.isOnboardingComplete;
      isLoading, error := false, None;
    }

    /** `updateProfile`: a no-op while there is no profile. */
    method UpdateProfile(data: ProfilePatch, nowIso: string)
      modifies this
      ensures old(profile).None? ==> State() == old(State())
      ensures old(profile).Some? ==>
        State() == old(State()).(profile := Some(MergeProfile(old(profile).value, data, nowIso)))
    {
      if profile.Some? {
        profile := Some(MergeProfile(profile.value, data, nowIso));
      }
    }

    /** `updateOnboarding`: only the onboarding data changes. */
    method UpdateOnboarding(data: OnboardingPatch)
      modifies this
      ensures State() == old(State()).(onboardingData := Some(MergeOnboarding(old(onboardingData), data)))
    {
      onboardingData := Some(MergeOnboarding(onboardingData, data));
    }

    /** `submitOnboarding`; `reply` is the profile endpoint's outcome and
        `notify` the plan-generation notification's. */
    method SubmitOnboarding(reply: HttpOutcome<Profile>, notify: HttpOutcome<()>)
      modifies this
      ensures State() == Submitted(old(State()), demoMode, demoProfile, reply, notify)
    {
      if onboardingData.None? || !onboardingData.value.isComplete {
        error := Some(INCOMPLETE);
        return;
      }
      isLoading, error := true, None;
      if demoMode {
        profile, isOnboardingComplete, isLoading := Some(demoProfile), true, false;
        return;
      }
      var failure: Thrown;
      match reply {
        case Ok(p) =>
          profile, isOnboardingComplete, isLoading := Some(p), true, false;
          if notify.Threw? {
            error, isLoading := Some(ErrorMessage(notify.thrown, SUBMISSION_FAILED)), false;
          }
          return;
        case NotOk =>
          failure := ErrorValue(SUBMIT_REJECTED);
        case Threw(e) =>
          failure := e;
      }
      error, isLoading := Some(ErrorMessage(failure, SUBMISSION_FAILED)), false;
    }

    /** `completeOnboarding`. */
    method CompleteOnboarding()
      modifies this
      ensures State() == old(State()).(isOnboardingComplete := true)
    {
      isOnboardingComplete := true;
    }

    /** `resetOnboarding`: the profile and `isLoading` survive, and a
        submission is refused until the wizard completes again. */
    method ResetOnboarding()
      modifies this
      ensures State() == old(State()).(onboardingData := None, isOnboardingComplete := false, error := None)
      ensures !ReadyToSubmit(onboardingData)
    {
      onboardingData, isOnboardingComplete, error := None, false, None;
    }

    /** `loadDemoData`: a no-op outside demo mode. */
    method LoadDemoData()
      modifies this
      ensures !demoMode ==> State() == old(State())
      ensures demoMode ==> State() == old(State()).(profile := Some(demoProfile), isOnboardingComplete := true)
    {
      if demoMode {
        profile, isOnboardingComplete := Some(demoProfile), true;
      }
    }
  }
}
