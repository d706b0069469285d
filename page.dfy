/**
 The state of the goals page and the handlers that change it: the auth listener,
 sign-in, sign-up and sign-out, date selection, rating and note edits, loading the
 selected date's entry and month statistics, and saving (which recomputes the month).

 Every call into the identity provider and the document store that can fail is
 given its outcome as a parameter: `AuthResult` for the identity provider, an
 `Option<string>` error message for each read or write. The clock is a parameter
 too (`today`, `now`).
 */
module Page {
  import opened Options
  import opened Goals
  import opened Dates
  import opened Entries
  import opened Documents
  import opened MonthAggregator
  import opened Store

  /** The status line under the form. */
  datatype Status =
    | Clear
    | Saved
    | LoadError(message: string)
    | SaveError(message: string)
    | SignInError(message: string)
    | SignUpError(message: string)
    | SignOutError(message: string)

  /** What the identity provider answers to a sign-in, sign-up or sign-out. */
  datatype AuthResult = AuthOk | AuthFailed(message: string)

  /** The month document a scan of all of `uid`'s entries yields for month `mk`. */
  ghost function StoredMonthSummary(store: DocumentStore, uid: Uid, mk: string): MonthDoc
    reads store`entries
  {
    MonthPayload(Percentages(MapTally(store.UserEntries(uid), mk)))
  }

  /** Every entry document of every user holds its own key as its date. */
  ghost predicate AllDated(entries: map<Uid, map<string, Doc>>) {
    forall uid, id :: uid in entries && id in entries[uid] ==> DateOf(entries[uid][id]) == Some(id)
  }

  /** Merging a payload dated `date` into the document of `date` keeps every document dated by its key. */
  lemma DatedWriteKeepsAllDated(entries: map<Uid, map<string, Doc>>, uid: Uid, date: string, payload: Doc)
    requires AllDated(entries)
    requires DateOf(payload) == Some(date)
    ensures AllDated(MergedAt(entries, uid, date, payload))
  {
    var written := MergedAt(entries, uid, date, payload);
    MergedAtKeepsOthers(entries, uid, date, payload);
    forall u, id | u in written && id in written[u] ensures DateOf(written[u][id]) == Some(id) {
      if u == uid && id == date {
        assert DateField in payload;
      } else {
        assert written[u][id] == entries[u][id];
      }
    }
  }

  class HomePage {
    const store: DocumentStore

    var ready: bool
    var user: Option<Uid>
    var email: string
    var password: string
    var date: string
    var entry: DailyEntry
    var saving: bool
    var status: Status
    var monthStats: Option<MonthDoc>

    /** Every stored entry document holds its own key as its date, as `save` writes it. */
    ghost predicate Valid()
      reads store`entries
    {
      AllDated(store.entries)
    }

    /** The page as first rendered: no user yet, today's date and its default draft. */
    constructor (today: string, store: DocumentStore)
      requires AllDated(store.entries)
      ensures Valid() && this.store == store
      ensures !ready && user == None && email == "" && password == ""
      ensures date == today && entry == DefaultEntry(today)
      ensures !saving && status == Clear && monthStats == None
    {
      this.store := store;
      ready, user := false, None;
      email, password := "", "";
      date := today;
      entry := DefaultEntry(today);
      saving, status, monthStats := false, Clear, None;
    }

    /** The `onAuthStateChanged` callback: record the reported user, and the page is ready. */
    method OnAuthStateChanged(u: Option<Uid>)
      modifies this`user, this`ready
      ensures user == u && ready
    {
      user := u;
      ready := true;
    }

    /** `handleSignIn`: the user itself arrives later through OnAuthStateChanged. */
    method SignIn(result: AuthResult)
      modifies this`status, this`email, this`password
      ensures result.AuthOk? ==> status == Clear && email == "" && password == ""
      ensures result.AuthFailed? ==>
                status == SignInError(result.message) && email == old(email) && password == old(password)
    {
      status := Clear;
      match result
      case AuthOk =>
        email := "";
        password := "";
      case AuthFailed(message) =>
        status := SignInError(message);
    }

    /** `handleSignUp` */
    method SignUp(result: AuthResult)
      modifies this`status, this`email, this`password
      ensures result.AuthOk? ==> status == Clear && email == "" && password == ""
      ensures result.AuthFailed? ==>
                status == SignUpError(result.message) && email == old(email) && password == old(password)
    {
      status := Clear;
      match result
      case AuthOk =>
        email := "";
        password := "";
      case AuthFailed(message) =>
        status := SignUpError(message);
    }

    /**
     `handleSignOut`: after a successful sign-out no statistics are held and the
     draft is today's default, so nothing of the previous user remains on the page.
     */
    method SignOut(today: string, result: AuthResult)
      modifies this`status, this`monthStats, this`date, this`entry
      ensures result.AuthOk? ==>
                status == Clear && monthStats == None && date == today && entry == DefaultEntry(today)
      ensures result.AuthFailed? ==>
                status == SignOutError(result.message)
                && monthStats == old(monthStats) && date == old(date) && entry == old(entry)
    {
      status := Clear;
      match result
      case AuthOk =>
        monthStats := None;
        date := today;
        entry := DefaultEntry(today);
      case AuthFailed(message) =>
        status := SignOutError(message);
    }

    /** The date picker's `setDate`. */
    method SelectDate(d: string)
      modifies this`date
      ensures date == d
    {
      date := d;
    }

    /** The rating selector of goal `g`. */
    method EditRating(g: GoalKey, n: int)
      modifies this`entry
      ensures entry == WithRating(old(entry), g, n)
    {
      entry := WithRating(entry, g, n);
    }

    /** The notes field of goal `g`. */
    method EditNote(g: GoalKey, text: string)
      modifies this`entry
      ensures entry == WithNote(old(entry), g, text)
    {
      entry := WithNote(entry, g, text);
    }

    /**
     The effect that loads the selected date's entry. The draft is reset to the
     default first, so a failed read leaves the default draft and an error status.
     */
    method LoadEntry(readError: Option<string>)
      modifies this`entry, this`status
      ensures user.None? ==> entry == old(entry) && status == old(status)
      ensures user.Some? && readError.Some? ==> entry == DefaultEntry(date) && status == LoadError(readError.value)
      ensures user.Some? && readError.None? ==>
                entry == LoadedDraft(date, store.EntryDoc(user.value, date)) && status == Clear
    {
      if user.None? {
        return;
      }
      var uid := user.value;
      status := Clear;
      entry := DefaultEntry(date);
      match readError
      case Some(message) =>
        status := LoadError(message);
      case None =>
        var stored := store.EntryDoc(uid, date);
        if stored.Some? {
          entry := LoadedDraft(date, stored);
        }
    }

    /**
     The effect that loads the selected month's statistics: the stored month
     document, or zeros when there is none. A failed read is only logged.
     */
    method LoadMonthStats(readError: Option<string>)
      modifies this`monthStats
      ensures user.None? || readError.Some? ==> monthStats == old(monthStats)
      ensures user.Some? && readError.None? ==>
                monthStats == Some(match store.MonthDocOf(user.value, MonthKey(date))
                                   case Some(m) => m
                                   case None => ZeroStats())
    {
      if user.None? || readError.Some? {
        return;
      }
      var stored := store.MonthDocOf(user.value, MonthKey(date));
      match stored
      case Some(m) =>
        monthStats := Some(m);
      case None =>
        monthStats := Some(ZeroStats());
    }

    /**
     `recomputeMonth`: scan all of the user's entries, summarise month `mk`, merge
     the summary into the month document and show it. Returns the error of the
     first failing store call, if any.
     */
    method RecomputeMonth(uid: Uid, mk: string, scanError: Option<string>, writeError: Option<string>)
      returns (error: Option<string>)
      requires Valid()
      modifies this`monthStats, store`months
      ensures Valid()
      ensures scanError.Some? ==> error == scanError
      ensures scanError.None? ==> error == writeError
      ensures error.Some? ==> monthStats == old(monthStats) && store.months == old(store.months)
      ensures error.None? ==>
                && monthStats == Some(StoredMonthSummary(store, uid, mk))
                && store.months == MergedAt(old(store.months), uid, mk, StoredMonthSummary(store, uid, mk))
    {
      if scanError.Some? {
        return scanError;
      }
      var ids, snaps := store.ScanEntries(uid);
      var summary := Aggregate(snaps, mk);
      match summary
      case None =>
        // every stored entry document holds a text date (Valid), so the scan never throws
        EveryScannedEntryDated(uid, ids, snaps);
        assert false;
      case Some(pct) =>
        ScanTally(store.UserEntries(uid), ids, snaps, mk);
        if writeError.Some? {
          return writeError;
        }
        var monthDoc := MonthPayload(pct);
        store.MergeMonth(uid, mk, monthDoc);
        monthStats := Some(monthDoc);
        error := None;
    }

    /** A scan of a valid store meets only dated documents. */
    lemma EveryScannedEntryDated(uid: Uid, ids: seq<string>, snaps: seq<Doc>)
      requires Valid() && Enumerates(store.UserEntries(uid), ids, snaps)
      ensures forall i :: 0 <= i < |snaps| ==> DateOf(snaps[i]).Some? && !UnreadableDate(snaps[i])
    {
      forall i | 0 <= i < |snaps| ensures DateOf(snaps[i]).Some? {
        assert ids[i] in store.UserEntries(uid);
        assert uid in store.entries;
        assert snaps[i] == store.entries[uid][ids[i]];
        assert DateOf(store.entries[uid][ids[i]]) == Some(ids[i]);
      }
    }

    /** The first step of `save`: merge the draft into its date's entry document of user `uid`. */
    method WriteEntry(uid: Uid, now: int)
      requires Valid()
      modifies store`entries
      ensures Valid()
      ensures store.entries == MergedAt(old(store.entries), uid, entry.date, EntryPayload(entry, now))
    {
      DatedWriteKeepsAllDated(store.entries, uid, entry.date, EntryPayload(entry, now));
      store.MergeEntry(uid, entry.date, EntryPayload(entry, now));
    }

    /**
     `save`: merge the draft into its date's entry document, then recompute the
     month of that date. `saving` is set for the duration of the call.
     */
    method Save(now: int, entryWriteError: Option<string>, scanError: Option<string>, monthWriteError: Option<string>)
      requires Valid()
      modifies this`saving, this`status, this`monthStats, store`entries, store`months
      ensures Valid()
      ensures old(user).None? ==>
                && saving == old(saving) && status == old(status) && monthStats == old(monthStats)
                && store.entries == old(store.entries) && store.months == old(store.months)
      ensures old(user).Some? ==> !saving
      ensures old(user).Some? && entryWriteError.Some? ==>
                && status == SaveError(entryWriteError.value) && monthStats == old(monthStats)
                && store.entries == old(store.entries) && store.months == old(store.months)
      ensures old(user).Some? && entryWriteError.None? ==>
                store.entries == MergedAt(old(store.entries), user.value, entry.date, EntryPayload(entry, now))
      ensures old(user).Some? && entryWriteError.None? && (scanError.Some? || monthWriteError.Some?) ==>
                && status == SaveError(if scanError.Some? then scanError.value else monthWriteError.value)
                && monthStats == old(monthStats) && store.months == old(store.months)
      ensures old(user).Some? && entryWriteError.None? && scanError.None? && monthWriteError.None? ==>
                var uid, mk := user.value, MonthKey(entry.date);
                && status == Saved
                && monthStats == Some(StoredMonthSummary(store, uid, mk))
                && store.months == MergedAt(old(store.months), uid, mk, StoredMonthSummary(store, uid, mk))
    {
      if user.None? {
        return;
      }
      var uid, mk := user.value, MonthKey(entry.date);
      saving, status := true, Clear;
      var outcome := Saved;
      if entryWriteError.Some? {
        outcome := SaveError(entryWriteError.value);
      } else {
        WriteEntry(uid, now);
        var error := RecomputeMonth(uid, mk, scanError, monthWriteError);
        if error.Some? {
          outcome := SaveError(error.value);
        }
      }
      saving, status := false, outcome;
    }
  }

  /**
   Saving a draft and then loading its date again, with no failure, shows the same
   draft, and the month document of its month holds the summary of the user's
   entries.
   */
  method SaveThenReload(page: HomePage, now: int)
    requires page.Valid() && page.user.Some? && page.date == page.entry.date
    modifies page`saving, page`status, page`monthStats, page`entry, page.store
    ensures page.entry == old(page.entry) && page.status == Clear
    ensures var uid, mk := page.user.value, MonthKey(page.entry.date);
            page.store.MonthDocOf(uid, mk) == Some(StoredMonthSummary(page.store, uid, mk))
  {
    var uid, draft := page.user.value, page.entry;
    var mk := MonthKey(draft.date);
    ghost var before := page.store.EntryDoc(uid, draft.date);
    ghost var monthBefore := DocOrEmpty(page.store.MonthDocOf(uid, mk));
    page.Save(now, None, None, None);
    assert page.store.EntryDoc(uid, draft.date) == Some(Merge(DocOrEmpty(before), EntryPayload(draft, now)));
    SaveThenLoad(before, draft, now);
    MonthPayloadOverwrites(monthBefore, Percentages(MapTally(page.store.UserEntries(uid), mk)));
    assert page.store.MonthDocOf(uid, mk) == Some(StoredMonthSummary(page.store, uid, mk));
    page.LoadEntry(None);
  }

  /**
   After a successful sign-out and a sign-in as another user, the page shows
   neither the previous user's draft nor their statistics before anything is loaded.
   */
  method SwitchUser(page: HomePage, today: string, other: Uid)
    modifies page`status, page`monthStats, page`date, page`entry, page`user, page`ready, page`email, page`password
    ensures page.user == Some(other) && page.ready
    ensures page.entry == DefaultEntry(today) && page.monthStats == None
    ensures forall g :: ShownPercent(page.monthStats, g) == 0
  {
    page.SignOut(today, AuthOk);
    page.OnAuthStateChanged(None);
    page.SignIn(AuthOk);
    page.OnAuthStateChanged(Some(other));
  }
}
