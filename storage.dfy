/**
 * The quota-aware guard around the browser's `localStorage`
 * (`StorageManager` in src/utils/storageManager.js).
 *
 * The host store is a finite map from key to value. Whatever the host does
 * that the guard cannot see is an argument of the operation that meets it:
 * the outcome of each host write (succeeds or throws a `HostError`), whether a
 * read or a removal throws, today's `Date.prototype.toDateString()`, and the
 * user's answer to the "storage is full" dialog together with the host's
 * behaviour during the emergency clear that may follow.
 */
module StorageGuard {
  import opened Js

  // STORAGE_KEYS
  const TokenKey := "token"
  const UserKey := "user"
  const ThemeKey := "theme"
  const DailyWordKey := "daily_word_data_v2"
  const DailyWordDateKey := "daily_word_date_v2"
  const DashboardSentenceKey := "dashboard_sentence"
  const ActiveInterviewKey := "activeInterviewSession"

  /** `Object.values(STORAGE_KEYS)`, in declaration order. */
  const KnownKeys: seq<string> :=
    [TokenKey, UserKey, ThemeKey, DailyWordKey, DailyWordDateKey, DashboardSentenceKey, ActiveInterviewKey]

  /** `PROTECTED_KEYS`: the keys an emergency clear preserves. */
  const ProtectedKeys: seq<string> := [TokenKey, UserKey, ThemeKey]

  type Store = map<string, string>

  /** A value thrown by `localStorage.setItem`. */
  datatype HostError = HostError(isDomException: bool, code: int, name: string, message: string)

  /**
   * `isQuotaExceededError`: a quota error is a DOMException that shows any one
   * of the known browser signals.
   */
  function IsQuotaExceededError(e: HostError): (r: bool)
    ensures r <==> e.isDomException
                   && (e.code == 22 || e.code == 1014
                       || e.name == "QuotaExceededError" || e.name == "NS_ERROR_DOM_QUOTA_REACHED"
                       || OccursIn(e.message, "quota") || OccursIn(e.message, "NO_SPACE"))
  {
    e.isDomException
    && (e.code == 22 || e.code == 1014
        || e.name == "QuotaExceededError" || e.name == "NS_ERROR_DOM_QUOTA_REACHED"
        || Includes(e.message, "quota") || Includes(e.message, "NO_SPACE"))
  }

  /** The classifier never sees a quota error in anything but a DOMException. */
  lemma NonDomErrorIsNeverQuota(e: HostError)
    requires !e.isDomException
    ensures !IsQuotaExceededError(e)
  {
  }

  /** Chrome's and Firefox's quota errors are recognised by their name alone. */
  lemma BrowserQuotaErrorsRecognised(code: int, message: string)
    ensures IsQuotaExceededError(HostError(true, code, "QuotaExceededError", message))
    ensures IsQuotaExceededError(HostError(true, code, "NS_ERROR_DOM_QUOTA_REACHED", message))
  {
  }

  /** A message that mentions the quota is enough, whatever the name and code. */
  lemma QuotaMessageRecognised(code: int, name: string, prefix: string, suffix: string)
    ensures IsQuotaExceededError(HostError(true, code, name, prefix + "quota" + suffix))
  {
    var s := prefix + "quota" + suffix;
    assert s[|prefix|..|prefix| + 5] == "quota";
    assert OccursAt(s, "quota", |prefix|);
  }

  /** A value read back through `getItem` is truthy: present and not the empty string. */
  predicate Truthy(v: Option<string>)
  {
    v.Some? && v.value != ""
  }

  /** The date stamp of the daily-word cache is set and is not today's. */
  predicate IsStale(m: Store, today: string)
  {
    DailyWordDateKey in m && m[DailyWordDateKey] != "" && m[DailyWordDateKey] != today
  }

  /** Step 1 of `cleanupOldData`: drop the dated daily-word cache unless it is today's. */
  function DropStaleDailyWord(m: Store, today: string): (r: Store)
    ensures !IsStale(r, today)
    ensures forall k :: k in r ==> k in m && r[k] == m[k]
    ensures forall k :: k in m && k != DailyWordKey && k != DailyWordDateKey ==> k in r
  {
    if IsStale(m, today) then m - {DailyWordKey, DailyWordDateKey} else m
  }

  /** Step 2 of `cleanupOldData`: drop the dashboard draft when it is truthy. */
  function DropDraft(m: Store): (r: Store)
    ensures DashboardSentenceKey in r ==> r[DashboardSentenceKey] == ""
    ensures forall k :: k in r ==> k in m && r[k] == m[k]
    ensures forall k :: k in m && k != DashboardSentenceKey ==> k in r
  {
    if DashboardSentenceKey in m && m[DashboardSentenceKey] != "" then m - {DashboardSentenceKey} else m
  }

  /** The orphan sweep keeps a key that is known or protected. */
  predicate IsRegistered(k: string)
  {
    k in KnownKeys || k in ProtectedKeys
  }

  /** Step 3 of `cleanupOldData`: drop every key that is neither known nor protected. */
  function DropOrphans(m: Store): (r: Store)
    ensures forall k :: k in r ==> IsRegistered(k)
    ensures forall k :: k in r ==> k in m && r[k] == m[k]
    ensures forall k :: k in m && IsRegistered(k) ==> k in r
  {
    map k | k in m && IsRegistered(k) :: m[k]
  }

  /** The store after `cleanupOldData`: its three steps in order. */
  function Cleaned(m: Store, today: string): (r: Store)
    ensures !IsStale(r, today)
    ensures DashboardSentenceKey in r ==> r[DashboardSentenceKey] == ""
    ensures forall k :: k in r ==> IsRegistered(k)
  {
    DropOrphans(DropDraft(DropStaleDailyWord(m, today)))
  }

  /**
   * Exactly which entries survive a cleanup: a registered key is kept, with its
   * value, unless it belongs to a stale daily-word cache or is a truthy draft.
   */
  lemma CleanupSurvivors(m: Store, today: string, k: string)
    ensures k in Cleaned(m, today) <==>
              && k in m
              && k in KnownKeys
              && !(IsStale(m, today) && (k == DailyWordKey || k == DailyWordDateKey))
              && !(k == DashboardSentenceKey && m[k] != "")
    ensures k in Cleaned(m, today) ==> Cleaned(m, today)[k] == m[k]
  {
    ProtectedAreKnown();
  }

  /** `PROTECTED_KEYS` is part of `Object.values(STORAGE_KEYS)`. */
  lemma ProtectedAreKnown()
    ensures forall k :: k in ProtectedKeys ==> k in KnownKeys
  {
  }

  /** The auth keys, the theme and the interview pointer come through a cleanup unchanged. */
  lemma CleanupKeepsSessionState(m: Store, today: string)
    ensures forall k :: k in [TokenKey, UserKey, ThemeKey, ActiveInterviewKey] ==>
              (k in Cleaned(m, today) <==> k in m) && (k in m ==> Cleaned(m, today)[k] == m[k])
  {
    forall k | k in [TokenKey, UserKey, ThemeKey, ActiveInterviewKey]
      ensures (k in Cleaned(m, today) <==> k in m) && (k in m ==> Cleaned(m, today)[k] == m[k])
    {
      CleanupSurvivors(m, today, k);
    }
  }

  /** Cleanup only removes, never adds or rewrites, and leaves no unknown key. */
  lemma CleanupOnlyRemoves(m: Store, today: string)
    ensures Cleaned(m, today).Keys <= m.Keys
    ensures forall k :: k in Cleaned(m, today) ==> k in KnownKeys && Cleaned(m, today)[k] == m[k]
  {
    forall k | k in Cleaned(m, today) ensures k in m && k in KnownKeys && Cleaned(m, today)[k] == m[k] {
      CleanupSurvivors(m, today, k);
    }
  }

  /** The daily-word pair goes iff its date stamp is stale; otherwise both stay as they were. */
  lemma CleanupDailyWord(m: Store, today: string)
    ensures IsStale(m, today) ==> DailyWordKey !in Cleaned(m, today) && DailyWordDateKey !in Cleaned(m, today)
    ensures !IsStale(m, today) ==>
              forall k :: k in [DailyWordKey, DailyWordDateKey] ==>
                (k in Cleaned(m, today) <==> k in m) && (k in m ==> Cleaned(m, today)[k] == m[k])
  {
    CleanupSurvivors(m, today, DailyWordKey);
    CleanupSurvivors(m, today, DailyWordDateKey);
  }

  /** The draft survives only when it holds the empty string, which `getItem` reports as falsy. */
  lemma CleanupDraft(m: Store, today: string)
    ensures DashboardSentenceKey in Cleaned(m, today) <==>
              DashboardSentenceKey in m && m[DashboardSentenceKey] == ""
  {
    CleanupSurvivors(m, today, DashboardSentenceKey);
  }

  /**
   * The dashboard caches its daily word under `daily_word_data` and
   * `daily_word_date`, names the guard does not know: any cleanup removes both,
   * whatever date they carry.
   */
  lemma CleanupDropsDashboardDailyWord(m: Store, today: string)
    ensures "daily_word_data" !in Cleaned(m, today) && "daily_word_date" !in Cleaned(m, today)
  {
    CleanupSurvivors(m, today, "daily_word_data");
    CleanupSurvivors(m, today, "daily_word_date");
  }

  /** A second cleanup on the same day changes nothing. */
  lemma CleanupIdempotent(m: Store, today: string)
    ensures Cleaned(Cleaned(m, today), today) == Cleaned(m, today)
  {
    var c := Cleaned(m, today);
    CleanupDailyWord(m, today);
    assert !IsStale(c, today) by {
      if DailyWordDateKey in c { CleanupSurvivors(m, today, DailyWordDateKey); }
    }
    forall k | true ensures (k in Cleaned(c, today) <==> k in c) && (k in c ==> Cleaned(c, today)[k] == c[k]) {
      CleanupSurvivors(m, today, k);
      CleanupSurvivors(c, today, k);
    }
  }

  /**
   * A store with the auth keys, the theme, a draft and a key some extension
   * left behind: cleanup keeps exactly the first three.
   */
  lemma CleanupExample(today: string)
    ensures Cleaned(map[TokenKey := "abc", UserKey := "{}", ThemeKey := "dark",
                        DashboardSentenceKey := "draft text", "random_extension_key" := "x"], today)
         == map[TokenKey := "abc", UserKey := "{}", ThemeKey := "dark"]
  {
    var m := map[TokenKey := "abc", UserKey := "{}", ThemeKey := "dark",
                 DashboardSentenceKey := "draft text", "random_extension_key" := "x"];
    var want := map[TokenKey := "abc", UserKey := "{}", ThemeKey := "dark"];
    forall k ensures (k in Cleaned(m, today) <==> k in want) && (k in want ==> Cleaned(m, today)[k] == want[k]) {
      CleanupSurvivors(m, today, k);
    }
  }

  /** The protected entries `emergencyClearCache` saves, in `PROTECTED_KEYS` order, built by its first loop. */
  function Snapshot(m: Store, keys: seq<string>): (r: seq<(string, string)>)
    ensures |r| <= |keys|
    ensures forall i :: 0 <= i < |r| ==> r[i].0 in keys && r[i].0 in m && m[r[i].0] == r[i].1 && r[i].1 != ""
  {
    if keys == [] then []
    else
      var k := keys[|keys| - 1];
      Snapshot(m, keys[..|keys| - 1]) + (if k in m && m[k] != "" then [(k, m[k])] else [])
  }

  /** The store after writing `entries` one after another into an empty store. */
  function Restored(entries: seq<(string, string)>): Store
  {
    if entries == [] then map[]
    else
      var e := entries[|entries| - 1];
      Restored(entries[..|entries| - 1])[e.0 := e.1]
  }

  /**
   * Every written key is present after a restore, and every restored entry is
   * one of the written entries: a restore invents no key and no value.
   */
  lemma {:induction false} RestoredFrom(entries: seq<(string, string)>)
    ensures forall i :: 0 <= i < |entries| ==> entries[i].0 in Restored(entries)
    ensures forall k :: k in Restored(entries) ==> exists i :: 0 <= i < |entries| && entries[i] == (k, Restored(entries)[k])
  {
    if entries != [] {
      var init, e := entries[..|entries| - 1], entries[|entries| - 1];
      RestoredFrom(init);
      assert forall i :: 0 <= i < |init| ==> init[i] == entries[i];
      forall k | k in Restored(entries)
        ensures exists i :: 0 <= i < |entries| && entries[i] == (k, Restored(entries)[k])
      {
        if k == e.0 {
          assert entries[|entries| - 1] == (k, Restored(entries)[k]);
        } else {
          var i :| 0 <= i < |init| && init[i] == (k, Restored(init)[k]);
          assert entries[i] == (k, Restored(entries)[k]);
        }
      }
    }
  }

  /** The protected entries whose values are truthy. */
  function SavedProtected(m: Store): (r: Store)
    ensures r.Keys <= m.Keys
  {
    map k | k in m && k in ProtectedKeys && m[k] != "" :: m[k]
  }

  /** Restoring a snapshot gives back exactly the truthy entries of the snapshotted keys. */
  lemma {:induction false} RestoredSnapshot(m: Store, keys: seq<string>)
    ensures Restored(Snapshot(m, keys)) == map k | k in m && k in keys && m[k] != "" :: m[k]
  {
    if keys != [] {
      var init := keys[..|keys| - 1];
      var k := keys[|keys| - 1];
      RestoredSnapshot(m, init);
      var s := Snapshot(m, init);
      if k in m && m[k] != "" {
        assert (s + [(k, m[k])])[..|s|] == s;
      } else {
        assert s + [] == s;
      }
      assert forall j :: j in keys <==> j in init || j == k;
    }
  }

  /**
   * After a successful emergency clear the store holds the protected keys
   * whose values were truthy, with those values; a protected key holding the
   * empty string is lost, and nothing else remains.
   */
  lemma EmergencyKeepsTruthyProtected(m: Store)
    ensures Restored(Snapshot(m, ProtectedKeys)) == SavedProtected(m)
    ensures forall k :: k in SavedProtected(m) <==> k in ProtectedKeys && k in m && m[k] != ""
    ensures forall k :: k in SavedProtected(m) ==> SavedProtected(m)[k] == m[k]
  {
    RestoredSnapshot(m, ProtectedKeys);
  }

  /**
   * The store after `emergencyClearCache`: unchanged when `clear()` throws;
   * otherwise the saved entries restored up to the first write that throws.
   */
  function AfterEmergency(m: Store, clearFails: bool, restoreFailsAt: Option<nat>): (r: Store)
    ensures clearFails ==> r == m
    ensures !clearFails ==> forall k :: k in r ==> k in ProtectedKeys && k in m && r[k] == m[k] && r[k] != ""
  {
    if clearFails then m
    else
      var saved := Snapshot(m, ProtectedKeys);
      var written := if restoreFailsAt.Some? && restoreFailsAt.value < |saved| then saved[..restoreFailsAt.value] else saved;
      RestoredFrom(written);
      assert forall i :: 0 <= i < |written| ==> written[i] == saved[i];
      Restored(written)
  }

  /** Whether the emergency clear of `m` gets through without a throw (and so asks for a reload). */
  function EmergencySucceeds(m: Store, clearFails: bool, restoreFailsAt: Option<nat>): bool
  {
    !clearFails && (restoreFailsAt.None? || restoreFailsAt.value >= |Snapshot(m, ProtectedKeys)|)
  }

  /** `AfterEmergency` when `clear()` succeeds, in terms of whether the restore gets through. */
  lemma EmergencyOutcome(m: Store, restoreFailsAt: Option<nat>)
    ensures var saved := Snapshot(m, ProtectedKeys);
            && (EmergencySucceeds(m, false, restoreFailsAt) <==> restoreFailsAt.None? || restoreFailsAt.value >= |saved|)
            && AfterEmergency(m, false, restoreFailsAt)
               == if EmergencySucceeds(m, false, restoreFailsAt) then Restored(saved) else Restored(saved[..restoreFailsAt.value])
  {
  }

  /** What the user and the host do after a write still fails following cleanup. */
  datatype Recovery =
    | AlertOnly                                                  // no `window.confirm`: an alert is shown
    | Declined                                                   // the user declines the emergency clear
    | Confirmed(clearFails: bool, restoreFailsAt: Option<nat>)   // emergency clear, with the host's failures

  /** The store after `handleQuotaError`. */
  function AfterQuotaError(m: Store, recovery: Recovery): Store
  {
    if recovery.Confirmed? then AfterEmergency(m, recovery.clearFails, recovery.restoreFailsAt) else m
  }

  /** Whether `handleQuotaError` ends in `window.location.reload()`: a confirmed emergency clear that succeeds. */
  function ReloadsAfterQuotaError(m: Store, recovery: Recovery): bool
  {
    recovery.Confirmed? && EmergencySucceeds(m, recovery.clearFails, recovery.restoreFailsAt)
  }

  /** The number of characters `getLocalStorageSize` charges for one entry. */
  function EntrySize(k: string, v: string): nat
  {
    |k| + |v|
  }

  /** The sum of `EntrySize` over all entries of `m`. */
  ghost function TotalSize(m: Store): nat
    decreases |m|
  {
    if m == map[] then 0
    else
      var k :| k in m;
      assert |m - {k}| < |m| by { assert (m - {k}).Keys == m.Keys - {k}; }
      EntrySize(k, m[k]) + TotalSize(m - {k})
  }

  /** `TotalSize` may be computed by taking out any entry first. */
  lemma {:induction false} TotalSizeRemove(m: Store, k: string)
    requires k in m
    ensures TotalSize(m) == EntrySize(k, m[k]) + TotalSize(m - {k})
    decreases |m|
  {
    var j :| j in m && TotalSize(m) == EntrySize(j, m[j]) + TotalSize(m - {j});
    if j != k {
      var mj, mk := m - {j}, m - {k};
      assert (mj - {k}).Keys == mj.Keys - {k};
      assert (mk - {j}).Keys == mk.Keys - {j};
      assert |mj| < |m| by { assert mj.Keys == m.Keys - {j}; }
      assert |mk| < |m| by { assert mk.Keys == m.Keys - {k}; }
      TotalSizeRemove(mj, k);
      TotalSizeRemove(mk, j);
      assert mj - {k} == mk - {j};
    }
  }

  /** No entry is larger than the total. */
  lemma EntryWithinTotal(m: Store, k: string)
    requires k in m
    ensures EntrySize(k, m[k]) <= TotalSize(m)
  {
    TotalSizeRemove(m, k);
  }

  /** The entries of `m` whose keys are in `keys`. */
  function Restrict(m: Store, keys: set<string>): Store
  {
    map k | k in keys && k in m :: m[k]
  }

  /** Restricting to all keys keeps the store; restricting to none empties it. */
  lemma RestrictBounds(m: Store)
    ensures Restrict(m, m.Keys) == m && Restrict(m, {}) == map[]
  {
  }

  /** One step of the size loops: taking `k` out of the pending keys moves its entry's size out of the rest. */
  lemma RestrictStep(m: Store, pending: set<string>, k: string)
    requires k in pending && k in m
    ensures TotalSize(Restrict(m, pending)) == EntrySize(k, m[k]) + TotalSize(Restrict(m, pending - {k}))
  {
    var rest := Restrict(m, pending);
    TotalSizeRemove(rest, k);
    assert rest - {k} == Restrict(m, pending - {k});
  }

  /** `getStorageReport()`, with sizes in characters instead of `formatBytes` strings. */
  datatype StorageReport = StorageReport(itemSizes: map<string, nat>, totalBytes: nat)

  /** The guard over one browser origin's `localStorage`. */
  class StorageManager {
    /** The host store's current entries. */
    var store: Store
    /** How many times `cleanupOldData` has run. */
    ghost var cleanups: nat
    /** How many second write attempts `setItem` has made. */
    ghost var retries: nat
    /** How many times `handleQuotaError` has run. */
    ghost var quotaPrompts: nat
    /** Set once a successful emergency clear asks for `window.location.reload()`. */
    ghost var reloadRequested: bool

    constructor(initial: Store)
      ensures store == initial
      ensures cleanups == 0 && retries == 0 && quotaPrompts == 0 && !reloadRequested
    {
      store := initial;
      cleanups, retries, quotaPrompts := 0, 0, 0;
      reloadRequested := false;
    }

    /** `getItem`: the stored value, or `null` when absent or when the host read throws. */
    method GetItem(key: string, hostThrows: bool) returns (v: Option<string>)
      ensures v.Some? <==> !hostThrows && key in store
      ensures v.Some? ==> v.value == store[key]
    {
      if hostThrows {
        v := None;
      } else if key in store {
        v := Some(store[key]);
      } else {
        v := None;
      }
    }

    /** `removeItem`: `true` after deleting the key, `false` (nothing changed) when the host throws. */
    method RemoveItem(key: string, hostThrows: bool) returns (ok: bool)
      modifies this`store
      ensures ok == !hostThrows
      ensures store == if ok then old(store) - {key} else old(store)
    {
      if hostThrows {
        ok := false;
      } else {
        store := store - {key};
        ok := true;
      }
    }

    /**
     * `setItem`: one direct write; on a quota error one cleanup and one retry,
     * and `handleQuotaError` if the retry still throws; any other error fails
     * at once and touches nothing.
     */
    method SetItem(key: string, value: string, today: string,
                   first: Option<HostError>, retry: Option<HostError>, recovery: Recovery)
      returns (ok: bool)
      modifies this
      ensures ok <==> first.None? || (IsQuotaExceededError(first.value) && retry.None?)
      ensures first.None? ==>
                && store == old(store)[key := value]
                && cleanups == old(cleanups) && retries == old(retries) && quotaPrompts == old(quotaPrompts)
      ensures first.Some? && !IsQuotaExceededError(first.value) ==>
                && store == old(store)
                && cleanups == old(cleanups) && retries == old(retries) && quotaPrompts == old(quotaPrompts)
      ensures first.Some? && IsQuotaExceededError(first.value) ==>
                && cleanups == old(cleanups) + 1 && retries == old(retries) + 1
                && quotaPrompts == old(quotaPrompts) + (if retry.Some? then 1 else 0)
                && store == if retry.None? then Cleaned(old(store), today)[key := value]
                            else AfterQuotaError(Cleaned(old(store), today), recovery)
      ensures reloadRequested ==
                (old(reloadRequested)
                 || (first.Some? && IsQuotaExceededError(first.value) && retry.Some?
                     && ReloadsAfterQuotaError(Cleaned(old(store), today), recovery)))
    {
      if first.None? {
        store := store[key := value];
        return true;
      }
      if IsQuotaExceededError(first.value) {
        CleanupOldData(today);
        retries := retries + 1;
        if retry.None? {
          store := store[key := value];
          return true;
        }
        HandleQuotaError(recovery);
        return false;
      }
      return false;
    }

    /** `cleanupOldData`: the three steps of `Cleaned`, each through the guard's own read and remove. */
    method CleanupOldData(today: string)
      modifies this
      ensures store == Cleaned(old(store), today)
      ensures cleanups == old(cleanups) + 1 && retries == old(retries)
      ensures quotaPrompts == old(quotaPrompts) && reloadRequested == old(reloadRequested)
    {
      cleanups := cleanups + 1;
      ghost var start := store;

      // 1. The daily-word cache, when its date stamp is not today's.
      var cachedDate := GetItem(DailyWordDateKey, false);
      if Truthy(cachedDate) && cachedDate.value != today {
        var _ := RemoveItem(DailyWordKey, false);
        var _ := RemoveItem(DailyWordDateKey, false);
      }
      assert store == DropStaleDailyWord(start, today);

      // 2. The dashboard draft, when truthy.
      var draft := GetItem(DashboardSentenceKey, false);
      if Truthy(draft) {
        var _ := RemoveItem(DashboardSentenceKey, false);
      }
      assert store == DropDraft(DropStaleDailyWord(start, today));

      // 3. Every key that is neither known nor protected.
      SweepOrphans();
    }

    /** Step 3 of `cleanupOldData`: the `forEach` over the keys present, removing the unregistered ones. */
    method SweepOrphans()
      modifies this`store
      ensures store == DropOrphans(old(store))
    {
      ghost var swept := store;
      var pending := store.Keys;
      while pending != {}
        invariant pending <= swept.Keys
        invariant store == map k | k in swept && (k in pending || IsRegistered(k)) :: swept[k]
        decreases pending
      {
        var key :| key in pending;
        ghost var before := store;
        if key !in KnownKeys && key !in ProtectedKeys {
          var _ := RemoveItem(key, false);
        }
        pending := pending - {key};
        assert store == map k | k in swept && (k in pending || IsRegistered(k)) :: swept[k] by {
          assert store.Keys == (before.Keys - if IsRegistered(key) then {} else {key});
        }
      }
    }

    /** `handleQuotaError`: the dialog, and the emergency clear when the user confirms it. */
    method HandleQuotaError(recovery: Recovery)
      modifies this
      ensures store == AfterQuotaError(old(store), recovery)
      ensures quotaPrompts == old(quotaPrompts) + 1
      ensures cleanups == old(cleanups) && retries == old(retries)
      ensures reloadRequested == (old(reloadRequested) || ReloadsAfterQuotaError(old(store), recovery))
    {
      quotaPrompts := quotaPrompts + 1;
      if recovery.Confirmed? {
        var _ := EmergencyClearCache(recovery.clearFails, recovery.restoreFailsAt);
      }
    }

    /**
     * `emergencyClearCache`: save the truthy protected entries, clear the
     * store, write them back. `clearFails` says `clear()` throws;
     * `restoreFailsAt` is the index of the first restoring write that throws.
     * `cleared` is false when anything threw: the source has one `catch` for
     * both failures.
     */
    method EmergencyClearCache(clearFails: bool, restoreFailsAt: Option<nat>) returns (cleared: bool)
      modifies this
      ensures store == AfterEmergency(old(store), clearFails, restoreFailsAt)
      ensures cleared <==> EmergencySucceeds(old(store), clearFails, restoreFailsAt)
      ensures cleared ==> store == SavedProtected(old(store))
      ensures reloadRequested == (old(reloadRequested) || cleared)
      ensures cleanups == old(cleanups) && retries == old(retries) && quotaPrompts == old(quotaPrompts)
    {
      var saved := SnapshotProtected();
      ghost var start := store;
      EmergencyKeepsTruthyProtected(start);
      if clearFails {
        return false;
      }
      store := map[];
      cleared := RestoreEntries(saved, restoreFailsAt);
      EmergencyOutcome(start, restoreFailsAt);
      assert cleared == EmergencySucceeds(start, clearFails, restoreFailsAt);
      if cleared {
        reloadRequested := true;
      }
    }

    /** The first loop of `emergencyClearCache`: the protected keys with truthy values, in order. */
    method SnapshotProtected() returns (saved: seq<(string, string)>)
      ensures saved == Snapshot(store, ProtectedKeys)
    {
      saved := [];
      var i := 0;
      while i < |ProtectedKeys|
        invariant 0 <= i <= |ProtectedKeys|
        invariant saved == Snapshot(store, ProtectedKeys[..i])
      {
        var key := ProtectedKeys[i];
        var value := GetItem(key, false);
        assert ProtectedKeys[..i + 1][..i] == ProtectedKeys[..i];
        if Truthy(value) {
          saved := saved + [(key, value.value)];
        }
        i := i + 1;
      }
      assert ProtectedKeys[..i] == ProtectedKeys;
    }

    /** The second loop of `emergencyClearCache`: write the saved entries back in order until a write throws. */
    method RestoreEntries(saved: seq<(string, string)>, restoreFailsAt: Option<nat>) returns (done: bool)
      requires store == map[]
      modifies this`store
      ensures done <==> restoreFailsAt.None? || restoreFailsAt.value >= |saved|
      ensures store == if done then Restored(saved) else Restored(saved[..restoreFailsAt.value])
    {
      var j := 0;
      while j < |saved|
        invariant 0 <= j <= |saved|
        invariant store == Restored(saved[..j])
        invariant restoreFailsAt.Some? ==> restoreFailsAt.value >= j
      {
        if restoreFailsAt == Some(j) {
          return false;
        }
        assert saved[..j + 1][..j] == saved[..j];
        store := store[saved[j].0 := saved[j].1];
        j := j + 1;
      }
      assert saved[..j] == saved;
      return true;
    }

    /** `getLocalStorageSize`: the characters of all keys and values. */
    method GetLocalStorageSize() returns (total: nat)
      ensures total == TotalSize(store)
    {
      total := 0;
      var pending := store.Keys;
      RestrictBounds(store);
      while pending != {}
        invariant pending <= store.Keys
        invariant total + TotalSize(Restrict(store, pending)) == TotalSize(store)
        decreases pending
      {
        var key :| key in pending;
        RestrictStep(store, pending, key);
        total := total + EntrySize(key, store[key]);
        pending := pending - {key};
      }
    }

    /** `getStorageReport` (sizes only): each entry's size and the same total as `getLocalStorageSize`. */
    method GetStorageReport() returns (report: StorageReport)
      ensures report.totalBytes == TotalSize(store)
      ensures report.itemSizes.Keys == store.Keys
      ensures forall k :: k in report.itemSizes ==> report.itemSizes[k] == EntrySize(k, store[k])
    {
      var items: map<string, nat> := map[];
      var total := 0;
      var pending := store.Keys;
      RestrictBounds(store);
      while pending != {}
        invariant pending <= store.Keys
        invariant items.Keys == store.Keys - pending
        invariant forall k :: k in items ==> items[k] == EntrySize(k, store[k])
        invariant total + TotalSize(Restrict(store, pending)) == TotalSize(store)
        decreases pending
      {
        var key :| key in pending;
        RestrictStep(store, pending, key);
        var size := EntrySize(key, store[key]);
        items := items[key := size];
        total := total + size;
        pending := pending - {key};
      }
      report := StorageReport(items, total);
    }
  }
}
