/** Plan and daily-quota bookkeeping over the key-value store (services/quotaService.ts). */
module QuotaService {
  import opened Types
  import opened KeyValueStore

  const QUOTA_KEY := "lenscraft_quota"
  const PLAN_KEY := "lenscraft_plan"
  const MAX_FREE_DAILY: nat := 5

  /** How many captions are left today; PAID has no bound. */
  datatype Remaining = Unbounded | Finite(n: nat)

  /** What checkQuota reports. */
  datatype QuotaStatus = QuotaStatus(allowed: bool, remaining: Remaining, reset: bool)

  /** The record a new day starts from. */
  function FreshQuota(today: string): UserQuota
  {
    UserQuota(0, today)
  }

  function Max(a: int, b: int): int
  {
    if a < b then b else a
  }

  /** The plan getStoredPlan reads. */
  function StoredPlan(m: map<string, Entry>): (p: PlanType)
    ensures PLAN_KEY !in m ==> p == FREE
    ensures PLAN_KEY in m && m[PLAN_KEY].PlanEntry? ==> p == m[PLAN_KEY].plan
  {
    match Lookup(m, PLAN_KEY)
    case Some(PlanEntry(stored)) => stored
    case _ => FREE
  }

  /** The quota record held under QUOTA_KEY, if any. */
  function StoredQuota(m: map<string, Entry>): Option<UserQuota>
  {
    match Lookup(m, QUOTA_KEY)
    case Some(QuotaEntry(q)) => Some(q)
    case _ => None
  }

  lemma KeysDiffer()
    ensures QUOTA_KEY != PLAN_KEY
  {
    assert QUOTA_KEY[10] != PLAN_KEY[10];
  }

  /** The record in force today once staleness is reconciled, and whether a stale record was dropped. */
  function Reconciled(m: map<string, Entry>, today: string): (r: (UserQuota, bool))
    ensures r.0.lastResetDate == today
    ensures r.1 <==> StoredQuota(m).Some? && StoredQuota(m).value.lastResetDate != today
    ensures r.0.count > 0 ==> StoredQuota(m) == Some(r.0)
    ensures StoredQuota(m).Some? && StoredQuota(m).value.lastResetDate == today ==> r.0 == StoredQuota(m).value
  {
    match StoredQuota(m)
    case None => (FreshQuota(today), false)
    case Some(q) => if q.lastResetDate != today then (FreshQuota(today), true) else (q, false)
  }

  /** The result of checkQuota on a store whose contents are m. */
  function Status(m: map<string, Entry>, today: string): (s: QuotaStatus)
    ensures StoredPlan(m) == PAID ==> s == QuotaStatus(true, Unbounded, false)
    ensures StoredPlan(m) == FREE ==> s.remaining.Finite? && s.remaining.n <= MAX_FREE_DAILY
    ensures StoredPlan(m) == FREE ==> (s.allowed <==> s.remaining.n > 0)
    ensures StoredPlan(m) == FREE ==> s.reset == Reconciled(m, today).1
  {
    if StoredPlan(m) == PAID then QuotaStatus(true, Unbounded, false)
    else
      var (q, reset) := Reconciled(m, today);
      QuotaStatus(q.count < MAX_FREE_DAILY, Finite(Max(0, MAX_FREE_DAILY - q.count)), reset)
  }

  /** The store contents after checkQuota: only a missing or stale record is written. */
  function Checked(m: map<string, Entry>, today: string): (m': map<string, Entry>)
    ensures StoredPlan(m) == PAID ==> m' == m
    ensures StoredPlan(m) == FREE ==> StoredQuota(m') == Some(Reconciled(m, today).0)
    ensures m' - {QUOTA_KEY} == m - {QUOTA_KEY}
    ensures StoredPlan(m') == StoredPlan(m)
  {
    KeysDiffer();
    if StoredPlan(m) == PAID then m
    else match StoredQuota(m)
      case Some(q) =>
        if q.lastResetDate != today then m[QUOTA_KEY := QuotaEntry(FreshQuota(today))] else m
      case None => m[QUOTA_KEY := QuotaEntry(FreshQuota(today))]
  }

  /** The store contents after incrementQuota: today's count (0 if stale or absent) plus one. */
  function Incremented(m: map<string, Entry>, today: string): (m': map<string, Entry>)
    ensures StoredPlan(m) == PAID ==> m' == m
    ensures StoredPlan(m) == FREE ==> StoredQuota(m') == Some(UserQuota(Reconciled(m, today).0.count + 1, today))
    ensures m' - {QUOTA_KEY} == m - {QUOTA_KEY}
    ensures StoredPlan(m') == StoredPlan(m)
  {
    KeysDiffer();
    if StoredPlan(m) == PAID then m
    else m[QUOTA_KEY := QuotaEntry(UserQuota(Reconciled(m, today).0.count + 1, today))]
  }

  /** k increments on the same day, one after another. */
  function IncrementTimes(m: map<string, Entry>, today: string, k: nat): map<string, Entry>
  {
    if k == 0 then m else Incremented(IncrementTimes(m, today, k - 1), today)
  }

  method SetStoredPlan(store: Store, plan: PlanType)
    modifies store
    ensures store.entries == old(store.entries)[PLAN_KEY := PlanEntry(plan)]
    ensures StoredPlan(store.entries) == plan
  {
    store.SetItem(PLAN_KEY, PlanEntry(plan));
  }

  method CheckQuota(store: Store, today: string) returns (status: QuotaStatus)
    modifies store
    ensures status == Status(old(store.entries), today)
    ensures store.entries == Checked(old(store.entries), today)
  {
    var plan := StoredPlan(store.entries);
    if plan == PAID {
      return QuotaStatus(true, Unbounded, false);
    }
    var stored := StoredQuota(store.entries);
    var quota := FreshQuota(today);
    var reset := false;
    if stored.Some? {
      if stored.value.lastResetDate != today {
        // a new day: start over
        quota := FreshQuota(today);
        reset := true;
        store.SetItem(QUOTA_KEY, QuotaEntry(quota));
      } else {
        quota := stored.value;
      }
    } else {
      // first use
      store.SetItem(QUOTA_KEY, QuotaEntry(quota));
    }
    var allowed := quota.count < MAX_FREE_DAILY;
    var remaining := Max(0, MAX_FREE_DAILY - quota.count);
    status := QuotaStatus(allowed, Finite(remaining), reset);
  }

  method IncrementQuota(store: Store, today: string)
    modifies store
    ensures store.entries == Incremented(old(store.entries), today)
  {
    var plan := StoredPlan(store.entries);
    if plan == PAID {
      return;
    }
    var checked := CheckQuota(store, today);
    // re-read what checkQuota may have rewritten
    var stored := StoredQuota(store.entries);
    var quota := if stored.Some? then stored.value else FreshQuota(today);
    if quota.lastResetDate != today {
      quota := FreshQuota(today);
    }
    quota := quota.(count := quota.count + 1);
    store.SetItem(QUOTA_KEY, QuotaEntry(quota));
  }

  /** setStoredPlan followed by getStoredPlan gives back the plan. */
  lemma PlanRoundTrip(m: map<string, Entry>, p: PlanType)
    ensures StoredPlan(m[PLAN_KEY := PlanEntry(p)]) == p
  {
  }

  /** Today's stored record is the one in force: allowed == (count < 5), remaining == max(0, 5 - count), nothing written. */
  lemma CurrentQuotaKept(m: map<string, Entry>, today: string, c: nat)
    requires StoredPlan(m) == FREE
    requires StoredQuota(m) == Some(UserQuota(c, today))
    ensures Status(m, today) == QuotaStatus(c < MAX_FREE_DAILY, Finite(Max(0, MAX_FREE_DAILY - c)), false)
    ensures Checked(m, today) == m
  {
  }

  /** A record from another day is replaced by a fresh one: a full day's allowance, reported as reset. */
  lemma StaleQuotaStartsOver(m: map<string, Entry>, today: string)
    requires StoredPlan(m) == FREE
    requires StoredQuota(m).Some? && StoredQuota(m).value.lastResetDate != today
    ensures Status(m, today) == QuotaStatus(true, Finite(MAX_FREE_DAILY), true)
    ensures StoredQuota(Checked(m, today)) == Some(UserQuota(0, today))
  {
  }

  /** A missing record is created at 0 for today, and that is not reported as a reset. */
  lemma AbsentQuotaInitialised(m: map<string, Entry>, today: string)
    requires StoredPlan(m) == FREE
    requires StoredQuota(m).None?
    ensures Status(m, today) == QuotaStatus(true, Finite(MAX_FREE_DAILY), false)
    ensures StoredQuota(Checked(m, today)) == Some(UserQuota(0, today))
  {
  }

  /** When checkQuota refuses, today's record is already current, so nothing is written. */
  lemma BlockedCheckWritesNothing(m: map<string, Entry>, today: string)
    requires !Status(m, today).allowed
    ensures Checked(m, today) == m
  {
  }

  /** Checking twice is checking once; the second check reports no reset. */
  lemma CheckIdempotent(m: map<string, Entry>, today: string)
    ensures Checked(Checked(m, today), today) == Checked(m, today)
    ensures Status(Checked(m, today), today) == Status(m, today).(reset := false)
  {
  }

  /** The reconciliation inside incrementQuota and the one before it agree. */
  lemma IncrementAfterCheck(m: map<string, Entry>, today: string)
    ensures Incremented(Checked(m, today), today) == Incremented(m, today)
  {
  }

  /** When the day changes between the gate's check and the increment, the increment starts the new
      day over: a count of 4 on day d becomes 1 on the next day, not 5. */
  lemma DayChangeDuringRequest(m: map<string, Entry>, day: string, nextDay: string)
    requires StoredPlan(m) == FREE
    requires StoredQuota(m) == Some(UserQuota(4, day))
    requires nextDay != day
    ensures StoredQuota(Incremented(Checked(m, day), nextDay)) == Some(UserQuota(1, nextDay))
  {
  }

  /** After an increment the record is current, so a following checkQuota writes nothing. */
  lemma CheckAfterIncrement(m: map<string, Entry>, today: string)
    ensures Checked(Incremented(m, today), today) == Incremented(m, today)
  {
  }

  /** On PAID, any number of increments leave the store as it was. */
  lemma {:induction false} PaidIncrementsChangeNothing(m: map<string, Entry>, today: string, k: nat)
    requires StoredPlan(m) == PAID
    ensures IncrementTimes(m, today, k) == m
  {
    if k > 0 {
      PaidIncrementsChangeNothing(m, today, k - 1);
    }
  }

  /** k same-day increments on FREE add exactly k to today's count; the cap is not checked. */
  lemma {:induction false} SameDayIncrements(m: map<string, Entry>, today: string, k: nat)
    requires StoredPlan(m) == FREE
    ensures StoredPlan(IncrementTimes(m, today, k)) == FREE
    ensures Reconciled(IncrementTimes(m, today, k), today).0 == UserQuota(Reconciled(m, today).0.count + k, today)
  {
    if k > 0 {
      SameDayIncrements(m, today, k - 1);
    }
  }

  /** From a day with no current record, after k increments remaining is max(0, 5 - k). */
  lemma FreshDayIncrements(m: map<string, Entry>, today: string, k: nat)
    requires StoredPlan(m) == FREE
    requires StoredQuota(m).None? || StoredQuota(m).value.lastResetDate != today
    ensures Status(IncrementTimes(m, today, k), today).remaining == Finite(Max(0, MAX_FREE_DAILY - k))
    ensures Status(IncrementTimes(m, today, k), today).allowed == (k < MAX_FREE_DAILY)
  {
    SameDayIncrements(m, today, k);
  }
}
