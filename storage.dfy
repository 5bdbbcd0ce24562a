/** The profile and meal-plan store: domain operations over the device store.
    Each operation is one atomic step; reads that the device rejects read as
    null, writes that it rejects make the write operations throw. */
module Storage {
  import opened Wrappers
  import opened Types
  import opened AsyncStorageUtils

  /** JSON.stringify / JSON.parse at the two types the store persists. */
  datatype Json = Json(profile: Codec<UserProfile>, plans: Codec<seq<MealPlan>>)

  /** What the store operations throw. */
  datatype StoreError =
    | ProfileNotSaved            // 'Failed to save user profile'
    | MealPlanNotSaved           // 'Failed to save meal plan'
    | Corrupt(json: JsonError)   // a parse failure of stored text, not caught
    | ClearFailed(native: NativeError)  // the rejection of the bulk removal, rethrown

  /** The keys removed by a data reset, in the order they are passed. */
  const ResetKeys: seq<Key> :=
    [UserProfileKey, MealPlansKey, OnboardingCompletedKey, ThemeKey, FollowSystemThemeKey]

  /** saveUserProfile: writes the profile, then the onboarding flag "true"
      whether or not the first write succeeded; throws when either failed. */
  method SaveUserProfile(store: DeviceStore, json: Json, profile: UserProfile,
                         profileWriteFails: bool, flagWriteFails: bool)
    returns (r: Outcome<StoreError>)
    modifies store
    ensures r.Pass? <==> !profileWriteFails && !flagWriteFails
    ensures r.Fail? ==> r.error == ProfileNotSaved
    ensures var afterProfile :=
        if profileWriteFails then old(store.entries)
        else old(store.entries)[UserProfileKey := json.profile.encode(profile)];
      store.entries ==
        if flagWriteFails then afterProfile
        else afterProfile[OnboardingCompletedKey := "true"]
    ensures r.Pass? ==> IsOnboardingCompleted(store, false)
    ensures r.Pass? && RoundTrips(json.profile, profile) ==>
      GetUserProfile(store, json, false) == Success(Some(profile))
  {
    var profileSaved := SetJson(store, UserProfileKey, profile, json.profile, profileWriteFails);
    var onboardingSaved := SetValue(store, OnboardingCompletedKey, "true", flagWriteFails);
    if !profileSaved || !onboardingSaved {
      return Fail(ProfileNotSaved);
    }
    r := Pass;
  }

  /** getUserProfile: the stored profile, or null when none is stored, the
      stored text is empty or JSON null, or the read is rejected; corrupt text
      throws. */
  function GetUserProfile(store: DeviceStore, json: Json, readFails: bool): (r: Result<Option<UserProfile>, JsonError>)
    reads store
    ensures readFails || UserProfileKey !in store.entries || store.entries[UserProfileKey] == "" ==>
      r == Success(None)
    ensures !readFails && UserProfileKey in store.entries && store.entries[UserProfileKey] != "" ==>
      match json.profile.decode(store.entries[UserProfileKey])
      case None => r.Failure?
      case Some(None) => r == Success(None)
      case Some(Some(profile)) => r == Success(Some(profile))
  {
    GetJson(store, UserProfileKey, json.profile, readFails)
  }

  /** isOnboardingCompleted: exactly when the flag reads as the string "true". */
  function IsOnboardingCompleted(store: DeviceStore, readFails: bool): (completed: bool)
    reads store
    ensures completed <==>
      !readFails && OnboardingCompletedKey in store.entries
      && store.entries[OnboardingCompletedKey] == "true"
  {
    GetValue(store, OnboardingCompletedKey, readFails) == Some("true")
  }

  /** getMealPlans: the stored list as it is, or [] when nothing is stored,
      the stored text is empty or JSON null, or the read is rejected; corrupt
      text throws. */
  function GetMealPlans(store: DeviceStore, json: Json, readFails: bool): (r: Result<seq<MealPlan>, JsonError>)
    reads store
    ensures readFails || MealPlansKey !in store.entries || store.entries[MealPlansKey] == "" ==>
      r == Success([])
    ensures !readFails && MealPlansKey in store.entries && store.entries[MealPlansKey] != "" ==>
      match json.plans.decode(store.entries[MealPlansKey])
      case None => r.Failure?
      case Some(None) => r == Success([])
      case Some(Some(plans)) => r == Success(plans)
  {
    match GetJson(store, MealPlansKey, json.plans, readFails)
    case Failure(e) => Failure(e)
    case Success(plans) => Success(plans.GetOr([]))
  }

  /** saveMealPlan: reads the list as getMealPlans does, prepends the plan and
      writes the list back; throws when the write fails, and lets a parse
      failure of the stored list through without writing. A rejected read
      counts as an empty list, so the write then replaces the history. */
  method SaveMealPlan(store: DeviceStore, json: Json, plan: MealPlan, readFails: bool, writeFails: bool)
    returns (r: Outcome<StoreError>)
    modifies store
    ensures old(GetMealPlans(store, json, readFails)).Failure? ==>
      r == Fail(Corrupt(old(GetMealPlans(store, json, readFails)).error))
      && store.entries == old(store.entries)
    ensures old(GetMealPlans(store, json, readFails)).Success? ==>
      && (r.Pass? <==> !writeFails)
      && (r.Fail? ==> r.error == MealPlanNotSaved)
      && store.entries ==
        if writeFails then old(store.entries)
        else old(store.entries)[MealPlansKey :=
          json.plans.encode([plan] + old(GetMealPlans(store, json, readFails)).value)]
    ensures r.Pass? && RoundTrips(json.plans, [plan] + old(GetMealPlans(store, json, readFails)).value) ==>
      && GetMealPlans(store, json, false) == Success([plan] + old(GetMealPlans(store, json, readFails)).value)
      && GetMealPlanById(store, json, plan.id, false) == Some(plan)
  {
    var existing := GetMealPlans(store, json, readFails);
    if existing.Failure? {
      return Fail(Corrupt(existing.error));
    }
    var updatedPlans := [plan] + existing.value;
    var saved := SetJson(store, MealPlansKey, updatedPlans, json.plans, writeFails);
    if !saved {
      return Fail(MealPlanNotSaved);
    }
    r := Pass;
    FindByIdHead(updatedPlans);
  }

  /** The plans are in stored order, and `i` is the first place `id` occurs. */
  ghost predicate IsFirstWithId(plans: seq<MealPlan>, id: string, i: int) {
    && 0 <= i < |plans|
    && plans[i].id == id
    && forall j :: 0 <= j < i ==> plans[j].id != id
  }

  /** Array.prototype.find with `plan.id === id`, null when nothing matches. */
  function FindById(plans: seq<MealPlan>, id: string): (r: Option<MealPlan>)
    ensures r.None? <==> forall i :: 0 <= i < |plans| ==> plans[i].id != id
    ensures r.Some? ==> exists i :: IsFirstWithId(plans, id, i) && plans[i] == r.value
  {
    if plans == [] then None
    else if plans[0].id == id then
      assert IsFirstWithId(plans, id, 0);
      Some(plans[0])
    else
      var rest := FindById(plans[1..], id);
      assert rest.Some? ==> exists i :: IsFirstWithId(plans, id, i) && plans[i] == rest.value by {
        if rest.Some? {
          var k :| IsFirstWithId(plans[1..], id, k) && plans[1..][k] == rest.value;
          assert IsFirstWithId(plans, id, k + 1);
        }
      }
      rest
  }

  /** A plan at the head of the list is what a lookup of its id finds. */
  lemma FindByIdHead(plans: seq<MealPlan>)
    requires plans != []
    ensures FindById(plans, plans[0].id) == Some(plans[0])
  {
  }

  /** getMealPlanById: the first stored plan with the id, and null both when
      none matches and when reading the list throws. */
  function GetMealPlanById(store: DeviceStore, json: Json, id: string, readFails: bool): (r: Option<MealPlan>)
    reads store
    ensures GetMealPlans(store, json, readFails).Failure? ==> r.None?
    ensures GetMealPlans(store, json, readFails).Success? ==>
      var plans := GetMealPlans(store, json, readFails).value;
      && (r.None? <==> forall i :: 0 <= i < |plans| ==> plans[i].id != id)
      && (r.Some? ==> exists i :: IsFirstWithId(plans, id, i) && plans[i] == r.value)
  {
    match GetMealPlans(store, json, readFails)
    case Failure(_) => None
    case Success(plans) => FindById(plans, id)
  }

  /** clearAllData: removes exactly the five reset keys in one bulk call and
      rethrows its rejection. */
  method ClearAllData(store: DeviceStore, removeFails: bool) returns (r: Outcome<StoreError>)
    modifies store
    ensures r.Pass? <==> !removeFails
    ensures r.Fail? ==> r.error == ClearFailed(RemoveRejected)
    ensures r.Pass? ==> store.entries == old(store.entries) - ResetKeySet
    ensures r.Pass? ==> forall k :: k !in ResetKeySet && k in old(store.entries) ==>
      k in store.entries && store.entries[k] == old(store.entries)[k]
  {
    var removed := store.MultiRemove(ResetKeys, removeFails);
    if removed.Fail? {
      return Fail(ClearFailed(removed.error));
    }
    r := Pass;
  }

  const ResetKeySet: set<Key> := set k | k in ResetKeys

  /** After a reset nothing of the user is left: no profile, onboarding not
      completed, no plans, whatever the read oracle answers. */
  lemma ClearedStoreIsEmpty(store: DeviceStore, json: Json, readFails: bool)
    requires forall k :: k in ResetKeySet ==> k !in store.entries
    ensures GetUserProfile(store, json, readFails) == Success(None)
    ensures !IsOnboardingCompleted(store, readFails)
    ensures GetMealPlans(store, json, readFails) == Success([])
  {
    assert UserProfileKey in ResetKeySet && OnboardingCompletedKey in ResetKeySet;
    assert MealPlansKey in ResetKeySet;
  }

  /** Two saves of A then B: the second sees the list the first wrote, so the
      list reads back newest first, in front of what was stored before them. */
  method SaveTwiceNewestFirst(store: DeviceStore, json: Json, a: MealPlan, b: MealPlan)
    returns (first: Outcome<StoreError>, second: Outcome<StoreError>)
    modifies store
    ensures first.Pass? <==> old(GetMealPlans(store, json, false)).Success?
    ensures first.Pass? && RoundTrips(json.plans, [a] + old(GetMealPlans(store, json, false)).value) ==>
      second.Pass?
    ensures (first.Pass? && second.Pass?
        && RoundTrips(json.plans, [a] + old(GetMealPlans(store, json, false)).value)
        && RoundTrips(json.plans, [b, a] + old(GetMealPlans(store, json, false)).value)) ==>
      GetMealPlans(store, json, false) == Success([b, a] + old(GetMealPlans(store, json, false)).value)
  {
    ghost var before := GetMealPlans(store, json, false);
    first := SaveMealPlan(store, json, a, false, false);
    ghost var between := GetMealPlans(store, json, false);
    second := SaveMealPlan(store, json, b, false, false);
    if first.Pass? && RoundTrips(json.plans, [a] + before.value) {
      assert between == Success([a] + before.value);
      assert [b] + ([a] + before.value) == [b, a] + before.value;
    }
  }
}
