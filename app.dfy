/** The controller's state and event handlers (App.tsx, lines 23-175); rendering is not modelled. */
module AppController {
  import opened Types
  import opened KeyValueStore
  import opened QuotaService
  import AuthService
  import GeminiService

  const MAX_FILE_SIZE: nat := 5 * 1024 * 1024
  const FILE_TOO_LARGE := "File size too large. Please upload an image under 5MB."
  const QUOTA_REACHED := "Daily quota reached. Upgrade to Pro for unlimited access."
  const GENERIC_FAILURE := "Failed to generate caption"
  const DEFAULT_MIME_TYPE := "image/jpeg"

  /** What updateQuota displays for a plan, over store contents m. */
  function ShownRemaining(plan: PlanType, m: map<string, Entry>, today: string): Remaining
  {
    if plan == PAID then Unbounded else Status(m, today).remaining
  }

  /** The store contents after updateQuota. */
  function AfterUpdate(plan: PlanType, m: map<string, Entry>, today: string): map<string, Entry>
  {
    if plan == PAID then m else Checked(m, today)
  }

  /** The store contents after the mount-time safety check: PAID without a user reverts to FREE. */
  function Reverted(m: map<string, Entry>): map<string, Entry>
  {
    if StoredPlan(m) == PAID && AuthService.StoredUser(m).None? then m[PLAN_KEY := PlanEntry(FREE)] else m
  }

  /** The message shown for a failed request: err.message, or a generic one when it is empty. */
  function FailureText(message: string): string
  {
    if message != "" then message else GENERIC_FAILURE
  }

  class App {
    const store: Store
    const apiKey: string
    var user: Option<User>
    var plan: PlanType
    var quotaRemaining: Remaining
    var loading: bool
    var error: Option<string>
    var selectedImage: Option<string>
    var selectedMimeType: string
    var currentCaption: Option<string>
    var history: seq<HistoryItem>
    var authModalOpen: bool

    /** PAID only with a signed-in user, and the plan shown is the plan stored. */
    ghost predicate Valid()
      reads this, store
    {
      && (plan == PAID ==> user.Some?)
      && plan == StoredPlan(store.entries)
    }

    /** The initial state followed by the mount effect. */
    constructor (store: Store, apiKey: string, today: string)
      modifies store
      ensures this.store == store && this.apiKey == apiKey
      ensures Valid()
      ensures user == AuthService.StoredUser(old(store.entries))
      ensures plan == StoredPlan(Reverted(old(store.entries)))
      ensures StoredPlan(old(store.entries)) == PAID && user.None? ==> plan == FREE
      ensures store.entries == AfterUpdate(plan, Reverted(old(store.entries)), today)
      ensures quotaRemaining == ShownRemaining(plan, Reverted(old(store.entries)), today)
      ensures !loading && error.None? && selectedImage.None? && currentCaption.None?
      ensures selectedMimeType == DEFAULT_MIME_TYPE && history == [] && !authModalOpen
    {
      this.store := store;
      this.apiKey := apiKey;
      var currentUser := AuthService.StoredUser(store.entries);
      user := currentUser;
      var storedPlan := StoredPlan(store.entries);
      if storedPlan == PAID && currentUser.None? {
        storedPlan := FREE;
        SetStoredPlan(store, FREE);
      }
      plan := storedPlan;
      quotaRemaining := Finite(0);
      loading := false;
      error := None;
      selectedImage := None;
      selectedMimeType := DEFAULT_MIME_TYPE;
      currentCaption := None;
      history := [];
      authModalOpen := false;
      new;
      UpdateQuota(storedPlan, today);
    }

    method UpdateQuota(currentPlan: PlanType, today: string)
      modifies this`quotaRemaining, store
      ensures quotaRemaining == ShownRemaining(currentPlan, old(store.entries), today)
      ensures store.entries == AfterUpdate(currentPlan, old(store.entries), today)
    {
      if currentPlan == PAID {
        quotaRemaining := Unbounded;
      } else {
        var status := CheckQuota(store, today);
        quotaRemaining := status.remaining;
      }
    }

    method HandlePlanChangeRequest(requested: PlanType, today: string)
      requires Valid()
      modifies this`plan, this`quotaRemaining, this`authModalOpen, store
      ensures Valid()
      ensures requested == PAID && user.None? ==>
        authModalOpen && plan == old(plan) && quotaRemaining == old(quotaRemaining) &&
        store.entries == old(store.entries)
      ensures !(requested == PAID && user.None?) ==>
        var written := old(store.entries)[PLAN_KEY := PlanEntry(requested)];
        plan == requested && authModalOpen == old(authModalOpen) &&
        store.entries == AfterUpdate(requested, written, today) &&
        quotaRemaining == ShownRemaining(requested, written, today)
    {
      if requested == PAID {
        if user.None? {
          // PAID needs a signed-in user
          authModalOpen := true;
          return;
        }
      }
      SetStoredPlan(store, requested);
      plan := requested;
      UpdateQuota(requested, today);
    }

    method HandleLoginSuccess(loggedInUser: User, today: string)
      requires Valid()
      modifies this`user, this`plan, this`quotaRemaining, this`authModalOpen, store
      ensures Valid()
      ensures user == Some(loggedInUser) && plan == PAID && quotaRemaining == Unbounded && !authModalOpen
      ensures store.entries == old(store.entries)[PLAN_KEY := PlanEntry(PAID)]
    {
      user := Some(loggedInUser);
      // signing in upgrades to PAID
      SetStoredPlan(store, PAID);
      plan := PAID;
      UpdateQuota(PAID, today);
      authModalOpen := false;
    }

    method HandleLogout(today: string)
      requires Valid()
      modifies this`user, this`plan, this`quotaRemaining, store
      ensures Valid()
      ensures user.None? && plan == FREE
      ensures var signedOut := (old(store.entries) - {AuthService.USER_KEY})[PLAN_KEY := PlanEntry(FREE)];
        store.entries == Checked(signedOut, today) &&
        quotaRemaining == Status(signedOut, today).remaining
      ensures AuthService.StoredUser(store.entries).None?
    {
      AuthService.Logout(store);
      user := None;
      SetStoredPlan(store, FREE);
      plan := FREE;
      UpdateQuota(FREE, today);
    }

    /** A chosen file; its data URL is what the file reader eventually delivers. */
    method HandleImage(fileSize: nat, fileType: string, dataUrl: string)
      requires Valid()
      modifies this`currentCaption, this`error, this`selectedImage, this`selectedMimeType
      ensures Valid()
      ensures currentCaption.None?
      ensures fileSize > MAX_FILE_SIZE ==>
        error == Some(FILE_TOO_LARGE) &&
        selectedImage == old(selectedImage) && selectedMimeType == old(selectedMimeType)
      ensures fileSize <= MAX_FILE_SIZE ==>
        error.None? && selectedImage == Some(dataUrl) && selectedMimeType == fileType
    {
      currentCaption := None;
      error := None;
      if fileSize > MAX_FILE_SIZE {
        error := Some(FILE_TOO_LARGE);
        return;
      }
      selectedImage := Some(dataUrl);
      selectedMimeType := fileType;
    }

    /** The generate button: quota gate, then one caption request. The gate reads the date as
        today; the quota bookkeeping after the reply reads it again as todayAfterReply. */
    method GenerateCaption(today: string, todayAfterReply: string, remote: GeminiService.Request -> GeminiService.Reply, stamp: string, now: int)
      returns (calls: seq<GeminiService.Request>)
      requires Valid()
      modifies this`quotaRemaining, this`loading, this`error, this`currentCaption, this`history, store
      ensures Valid()
      ensures selectedImage.None? ==>
        calls == [] && store.entries == old(store.entries) && quotaRemaining == old(quotaRemaining) &&
        loading == old(loading) && error == old(error) && currentCaption == old(currentCaption) &&
        history == old(history)
      ensures selectedImage.Some? && plan == FREE && !Status(old(store.entries), today).allowed ==>
        calls == [] && error == Some(QUOTA_REACHED) &&
        store.entries == old(store.entries) && quotaRemaining == old(quotaRemaining) &&
        loading == old(loading) && currentCaption == old(currentCaption) && history == old(history)
      ensures selectedImage.Some? && (plan == PAID || Status(old(store.entries), today).allowed) ==>
        var a := GeminiService.Orchestrate(apiKey, selectedImage.value, selectedMimeType, remote);
        calls == a.calls && !loading &&
        (a.result.Success? ==>
          var caption := a.result.value;
          currentCaption == Some(caption.text) && error.None? &&
          history == [HistoryItem(stamp, selectedImage.value, caption.text, caption.model, now)] + old(history) &&
          store.entries == (if plan == FREE then Incremented(Checked(old(store.entries), today), todayAfterReply)
                            else old(store.entries)) &&
          (plan == FREE && todayAfterReply == today ==> store.entries == Incremented(old(store.entries), today)) &&
          quotaRemaining == (if plan == FREE then Status(store.entries, todayAfterReply).remaining else old(quotaRemaining))) &&
        (a.result.Failure? ==>
          currentCaption.None? &&
          error == Some(FailureText(GeminiService.ErrorMessage(a.result.error))) &&
          history == old(history) && store.entries == Checked(old(store.entries), today) &&
          quotaRemaining == old(quotaRemaining))
    {
      calls := [];
      if selectedImage.None? {
        return;
      }
      ghost var before := store.entries;

      // quota gate
      var status := CheckQuota(store, today);
      if !status.allowed && plan == FREE {
        BlockedCheckWritesNothing(before, today);
        error := Some(QUOTA_REACHED);
        return;
      }
      IncrementAfterCheck(before, today);
      calls := Submit(todayAfterReply, remote, stamp, now);
    }

    /** The request once the gate has let it through; today is the date when the reply is handled. */
    method Submit(today: string, remote: GeminiService.Request -> GeminiService.Reply, stamp: string, now: int)
      returns (calls: seq<GeminiService.Request>)
      requires Valid() && selectedImage.Some?
      modifies this`quotaRemaining, this`loading, this`error, this`currentCaption, this`history, store
      ensures Valid() && !loading
      ensures
        var a := GeminiService.Orchestrate(apiKey, selectedImage.value, selectedMimeType, remote);
        calls == a.calls &&
        (a.result.Success? ==>
          var caption := a.result.value;
          currentCaption == Some(caption.text) && error.None? &&
          history == [HistoryItem(stamp, selectedImage.value, caption.text, caption.model, now)] + old(history) &&
          store.entries == (if plan == FREE then Incremented(old(store.entries), today) else old(store.entries)) &&
          quotaRemaining == (if plan == FREE then Status(store.entries, today).remaining else old(quotaRemaining))) &&
        (a.result.Failure? ==>
          currentCaption.None? &&
          error == Some(FailureText(GeminiService.ErrorMessage(a.result.error))) &&
          history == old(history) && store.entries == old(store.entries) &&
          quotaRemaining == old(quotaRemaining))
    {
      loading := true;
      error := None;
      currentCaption := None;
      var result;
      result, calls := GeminiService.GenerateCaption(apiKey, selectedImage.value, selectedMimeType, remote);
      Record(result, today, stamp, now);
    }

    /** What follows the request: the caption or the error is shown, history and quota are updated. */
    method Record(result: Result<CaptionResult, GeminiService.CaptionError>, today: string, stamp: string, now: int)
      requires Valid() && selectedImage.Some?
      modifies this`quotaRemaining, this`loading, this`error, this`currentCaption, this`history, store
      ensures Valid() && !loading
      ensures result.Success? ==>
        currentCaption == Some(result.value.text) && error == old(error) &&
        history == [HistoryItem(stamp, selectedImage.value, result.value.text, result.value.model, now)] + old(history) &&
        store.entries == (if plan == FREE then Incremented(old(store.entries), today) else old(store.entries)) &&
        quotaRemaining == (if plan == FREE then Status(store.entries, today).remaining else old(quotaRemaining))
      ensures result.Failure? ==>
        currentCaption == old(currentCaption) &&
        error == Some(FailureText(GeminiService.ErrorMessage(result.error))) &&
        history == old(history) && store.entries == old(store.entries) &&
        quotaRemaining == old(quotaRemaining)
    {
      if result.Success? {
        currentCaption := Some(result.value.text);
        CountUsage(today);
        var item := HistoryItem(stamp, selectedImage.value, result.value.text, result.value.model, now);
        history := [item] + history;
      } else {
        error := Some(FailureText(GeminiService.ErrorMessage(result.error)));
      }
      loading := false;
    }

    /** After a successful request: only the free plan counts usage, then the display is refreshed. */
    method CountUsage(today: string)
      requires Valid()
      modifies this`quotaRemaining, store
      ensures Valid()
      ensures plan == FREE ==>
        store.entries == Incremented(old(store.entries), today) &&
        quotaRemaining == Status(store.entries, today).remaining
      ensures plan == PAID ==> store.entries == old(store.entries) && quotaRemaining == old(quotaRemaining)
    {
      if plan == FREE {
        CheckAfterIncrement(store.entries, today);
        IncrementQuota(store, today);
        UpdateQuota(plan, today);
      }
    }
  }
}
