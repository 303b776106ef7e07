/** `PlanManager` of src/services/plan.ts: the plan lookups over the
    constant table, and a manager holding one user's profile that it
    replaces on every change. */
module Plan {
  import opened Wrappers
  import opened Types
  import opened ReminderMap
  import opened Subscriptions
  import StoreModel

  datatype GoogleAuth = GoogleAuth(accessToken: string, refreshToken: string, expiresAt: int)

  /** `UserProfile`, timestamps as integer instants. `plan` is the stored
      string, which need not be one of the plan identifiers. `id` is the
      profile's document id, a string. */
  datatype UserProfile = UserProfile(
    id: string, userId: string, username: string, timezone: string,
    createdAt: int, updatedAt: int,
    plan: string, planExpiresAt: Option<int>, trialEndsAt: Option<int>,
    googleAuth: GoogleAuth)

  /** `Partial<UserProfile>`: `None` where the key is absent. */
  datatype ProfilePatch = ProfilePatch(
    id: Option<string>, userId: Option<string>, username: Option<string>, timezone: Option<string>,
    createdAt: Option<int>, updatedAt: Option<int>,
    plan: Option<string>, planExpiresAt: Option<Option<int>>, trialEndsAt: Option<Option<int>>,
    googleAuth: Option<GoogleAuth>)

  /** `plans.find((plan) => plan.id === planId)`. */
  function FindPlan(plans: seq<PlanDetails>, planId: string): (d: Option<PlanDetails>)
    ensures d.None? <==> forall i :: 0 <= i < |plans| ==> plans[i].id.Id() != planId
    ensures d.Some? ==> exists i :: 0 <= i < |plans| && plans[i] == d.value && plans[i].id.Id() == planId
                                   && forall j :: 0 <= j < i ==> plans[j].id.Id() != planId
  {
    if plans == [] then None
    else if plans[0].id.Id() == planId then Some(plans[0])
    else
      var d := FindPlan(plans[1..], planId);
      assert forall i :: 1 <= i < |plans| ==> plans[i] == plans[1..][i - 1];
      d
  }

  /** `getPlanDetails(planId)`: the configured plan with that identifier. */
  function GetPlanDetails(planId: string): Option<PlanDetails> {
    FindPlan(SubscriptionConfig, planId)
  }

  /** Each plan identifier finds its own table entry; any other string finds
      nothing. */
  lemma GetPlanDetailsFindsOwnEntry(planId: string)
    ensures (exists s: Subscription :: s.Id() == planId) ==>
      GetPlanDetails(planId).Some? && GetPlanDetails(planId).value.id.Id() == planId
    ensures (forall s: Subscription :: s.Id() != planId) ==> GetPlanDetails(planId).None?
  {
    if exists s: Subscription :: s.Id() == planId {
      var s: Subscription :| s.Id() == planId;
      EachPlanOnce(s);
    }
  }

  /** `getFeatures(profile)`: the features of the profile's plan, or those of
      FREE when the plan string has no entry. */
  function GetFeatures(profile: UserProfile): PlanFeatures {
    match GetPlanDetails(profile.plan)
    case Some(plan) => plan.features
    case None =>
      assert SubscriptionConfig[0].id.Id() == FREE.Id();
      GetPlanDetails(FREE.Id()).value.features
  }

  /** The reminder limit a profile gets, by its plan string: 5, 50, 9999 or
      unbounded, and FREE's 5 for an unknown plan. */
  lemma GetFeaturesLimits(profile: UserProfile)
    ensures GetFeatures(profile).maxReminders ==
      if profile.plan == "BASIC" then Finite(50)
      else if profile.plan == "PRO" then Finite(9999)
      else if profile.plan == "DEV" then Infinity
      else Finite(5)
  {
    GetPlanDetailsTable(profile.plan);
    GetPlanDetailsTable(FREE.Id());
  }

  /** The table as a lookup: each identifier's own entry, nothing else. */
  lemma GetPlanDetailsTable(planId: string)
    ensures GetPlanDetails(planId) ==
      if planId == "FREE" then Some(SubscriptionConfig[0])
      else if planId == "BASIC" then Some(SubscriptionConfig[1])
      else if planId == "PRO" then Some(SubscriptionConfig[2])
      else if planId == "DEV" then Some(SubscriptionConfig[3])
      else None
  {
    var c := SubscriptionConfig;
    assert c[0].id.Id() == "FREE" && c[1].id.Id() == "BASIC" && c[2].id.Id() == "PRO" && c[3].id.Id() == "DEV";
  }

  /** An unknown plan string gets exactly the FREE features. */
  lemma GetFeaturesFallsBackToFree(profile: UserProfile)
    requires forall s: Subscription :: s.Id() != profile.plan
    ensures GetFeatures(profile) == SubscriptionConfig[0].features
  {
    GetPlanDetailsFindsOwnEntry(profile.plan);
  }

  datatype FeatureKey = MaxReminders | Services | AiPowered | MaxRepeatCount

  /** `!!features[key]`: a number is truthy unless it is 0, an array always
      is, an absent optional never is. */
  predicate Truthy(f: PlanFeatures, key: FeatureKey) {
    match key
    case MaxReminders => f.maxReminders != Finite(0)
    case Services => true
    case AiPowered => f.aiPowered
    case MaxRepeatCount => f.maxRepeatCount.Some? && f.maxRepeatCount.value != Finite(0)
  }

  /** AI features come exactly with PRO and DEV; `services` counts as present
      for every plan, FREE's empty list included. */
  lemma FeatureFlags(profile: UserProfile)
    ensures Truthy(GetFeatures(profile), AiPowered) <==> profile.plan == "PRO" || profile.plan == "DEV"
    ensures Truthy(GetFeatures(profile), Services)
    ensures Truthy(GetFeatures(profile), MaxReminders) && Truthy(GetFeatures(profile), MaxRepeatCount)
  {
    GetPlanDetailsTable(profile.plan);
    GetPlanDetailsTable(FREE.Id());
  }

  /** `{...old, ...patch}`: every field the patch carries replaces the old
      one. */
  function Patched(p: UserProfile, d: ProfilePatch): (q: UserProfile)
    ensures q.plan == (if d.plan.Some? then d.plan.value else p.plan)
    ensures q.id == (if d.id.Some? then d.id.value else p.id)
    ensures q.updatedAt == (if d.updatedAt.Some? then d.updatedAt.value else p.updatedAt)
    ensures q.userId == (if d.userId.Some? then d.userId.value else p.userId)
    ensures q.username == (if d.username.Some? then d.username.value else p.username)
    ensures q.timezone == (if d.timezone.Some? then d.timezone.value else p.timezone)
    ensures q.createdAt == (if d.createdAt.Some? then d.createdAt.value else p.createdAt)
    ensures q.planExpiresAt == (if d.planExpiresAt.Some? then d.planExpiresAt.value else p.planExpiresAt)
    ensures q.trialEndsAt == (if d.trialEndsAt.Some? then d.trialEndsAt.value else p.trialEndsAt)
    ensures q.googleAuth == (if d.googleAuth.Some? then d.googleAuth.value else p.googleAuth)
    ensures d ==ProfilePatch(None, None, None, None, None, None, None, None, None, None) ==> q == p
  {
    UserProfile(
      d.id.GetOr(p.id), d.userId.GetOr(p.userId), d.username.GetOr(p.username), d.timezone.GetOr(p.timezone),
      d.createdAt.GetOr(p.createdAt), d.updatedAt.GetOr(p.updatedAt),
      d.plan.GetOr(p.plan), d.planExpiresAt.GetOr(p.planExpiresAt), d.trialEndsAt.GetOr(p.trialEndsAt),
      d.googleAuth.GetOr(p.googleAuth))
  }

  /** The ids of the index's reminders that pass the owner test `owned`. */
  function OwnedIds(index: map<string, Reminder>, owned: Reminder -> bool): set<string> {
    set id | id in index && owned(index[id])
  }

  /** The ids of the index's reminders whose chat id, printed, is `userId`. */
  function ChatOwnedIds(index: map<string, Reminder>, userId: string): set<string> {
    set id | id in index && StoreModel.OwnedByCorrected(index[id], userId)
  }

  class PlanManager {
    var userId: string
    var profile: UserProfile

    constructor (p: UserProfile)
      ensures userId == p.id && profile == p
    {
      userId := p.id;
      profile := p;
    }

    /** The `profile` setter. */
    method SetProfile(p: UserProfile)
      modifies this
      ensures profile == p && userId == old(userId)
    {
      profile := p;
    }

    /** The `features` getter. */
    function Features(): PlanFeatures
      reads this
    {
      GetFeatures(profile)
    }

    function HasFeature(key: FeatureKey): bool
      reads this
    {
      Truthy(Features(), key)
    }

    /** `syncProfile(patch)`: the old profile overridden by the patch, with
      `updatedAt` set to `now` whatever the patch says. The stored copy is
      not part of this model. */
    method SyncProfile(patch: ProfilePatch, now: int) returns (p: UserProfile)
      modifies this
      ensures p == Patched(old(profile), patch).(updatedAt := now)
      ensures profile == p && userId == old(userId)
    {
      p := Patched(profile, patch).(updatedAt := now);
      SetProfile(p);
    }

    /** `upgrade(plan, expiresAt)`: only the plan, its expiry and `updatedAt`
      change. */
    method Upgrade(plan: Subscription, expiresAt: int, now: int)
      modifies this
      ensures profile == old(profile).(plan := plan.Id(), planExpiresAt := Some(expiresAt), updatedAt := now)
      ensures userId == old(userId)
    {
      SetProfile(profile.(plan := plan.Id(), planExpiresAt := Some(expiresAt), updatedAt := now));
    }

    /** `downgrade(userId)`: back to FREE with no expiry. */
    method Downgrade(saveAs: string, now: int)
      modifies this
      ensures profile == old(profile).(plan := FREE.Id(), planExpiresAt := None, updatedAt := now)
      ensures userId == old(userId)
    {
      SetProfile(profile.(plan := FREE.Id(), planExpiresAt := None, updatedAt := now));
    }

    /** `hasExceededReminderLimit()` as written: `r.chatId === this.profile.id`
      sets the numeric chat id against the string profile id, so no reminder
      is counted and, every configured limit being at least 5, the answer is
      always false. */
    method HasExceededReminderLimit(local: StoreModel.ReminderManager) returns (b: bool)
      requires local.Valid()
      ensures !b
    {
      var all := local.ToArray();
      var pid := profile.id;
      var mine := Kept(all, r => StoreModel.OwnedBy(r, pid));
      KeptNone(all, r => StoreModel.OwnedBy(r, pid));
      GetFeaturesLimits(profile);
      b := AtLeast(|mine|, Features().maxReminders);
    }

    /** The evidently intended test: the reminders whose chat id, printed,
      is the profile id, against the plan's limit. */
    method HasExceededReminderLimitCorrected(local: StoreModel.ReminderManager) returns (b: bool)
      requires local.Valid()
      ensures b <==> AtLeast(|ChatOwnedIds(local.reminders, profile.id)|, Features().maxReminders)
    {
      var all := local.ToArray();
      var pid := profile.id;
      var keep := r => StoreModel.OwnedByCorrected(r, pid);
      KeptCountsOwned(all, local.reminders, keep);
      assert OwnedIds(local.reminders, keep) == ChatOwnedIds(local.reminders, pid);
      b := AtLeast(|Kept(all, keep)|, Features().maxReminders);
    }
  }

  /** Filtering a listing of the index counts the index's owned entries. */
  lemma KeptCountsOwned(s: seq<Reminder>, m: map<string, Reminder>, keep: Reminder -> bool)
    requires Keyed(m) && Lists(s, m)
    ensures |Kept(s, keep)| == |OwnedIds(m, keep)|
  {
    assert DistinctIds(s);
    KeptDistinct(s, keep);
    KeptMembers(s, keep);
    var k := Kept(s, keep);
    DistinctIdsCard(k);
    assert Ids(k) == OwnedIds(m, keep) by {
      forall id | id in Ids(k) ensures id in OwnedIds(m, keep) {
        var i :| 0 <= i < |k| && k[i].id == id;
        assert k[i] in k;
      }
      forall id | id in OwnedIds(m, keep) ensures id in Ids(k) {
        assert m[id] in s;
        assert m[id] in k;
        var i :| 0 <= i < |k| && k[i] == m[id];
      }
    }
  }
}
