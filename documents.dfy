/**
 The documents the page stores: an entry document per date and a month document
 per month, both written with a merging upsert (`setDoc(..., { merge: true })`).

 A document is a map from field paths to leaf values. The entry document's nested
 `rating` and `notes` maps are flattened to one path per goal, so that the store's
 deep merge becomes plain map override: each leaf the payload names is replaced,
 every other leaf is kept.
 */
module Documents {
  import opened Options
  import opened Goals
  import opened Entries

  /** The leaf paths of an entry document: `date`, `rating.<goal>`, `notes.<goal>`, `updatedAt`. */
  datatype Field = DateField | RatingOf(goal: GoalKey) | NoteOf(goal: GoalKey) | UpdatedAt

  /** Leaf values: text, numbers and write timestamps. */
  datatype Value = Str(s: string) | Num(n: int) | Stamp(t: int)

  type Doc = map<Field, Value>

  /** A month document: one percentage per goal key it holds. */
  type MonthDoc = map<GoalKey, int>

  /** A merging write of `payload` over the stored `doc` (an absent document is the empty map). */
  function Merge<K, V>(doc: map<K, V>, payload: map<K, V>): (r: map<K, V>)
    ensures r.Keys == doc.Keys + payload.Keys
    ensures forall f :: f in payload ==> r[f] == payload[f]
    ensures forall f :: f in doc && f !in payload ==> r[f] == doc[f]
  {
    doc + payload
  }

  /** Writing the same payload a second time changes nothing. */
  lemma MergeIdempotent<K, V>(doc: map<K, V>, payload: map<K, V>)
    ensures Merge(Merge(doc, payload), payload) == Merge(doc, payload)
  {
  }

  /** The stored document, or the empty map when there is none. */
  function DocOrEmpty<K, V>(stored: Option<map<K, V>>): map<K, V> {
    match stored
    case None => map[]
    case Some(doc) => doc
  }

  /** Every leaf path of an entry document. */
  const ENTRY_FIELDS: set<Field> :=
    {DateField, RatingOf(Material), RatingOf(Ego), RatingOf(Running),
     NoteOf(Material), NoteOf(Ego), NoteOf(Running), UpdatedAt}

  /** The value `save` writes at path `f` for draft `e` at time `now`. */
  function SavedValue(e: DailyEntry, now: int, f: Field): Value {
    match f
    case DateField => Str(e.date)
    case RatingOf(g) => Num(e.rating.Get(g))
    case NoteOf(g) => Str(e.notes.Get(g))
    case UpdatedAt => Stamp(now)
  }

  /** The document `save` writes for a draft: its date, ratings and notes, and the write time. */
  function EntryPayload(e: DailyEntry, now: int): (p: Doc)
    ensures DateField in p && p[DateField] == Str(e.date)
    ensures UpdatedAt in p && p[UpdatedAt] == Stamp(now)
    ensures forall g :: RatingOf(g) in p && p[RatingOf(g)] == Num(e.rating.Get(g))
    ensures forall g :: NoteOf(g) in p && p[NoteOf(g)] == Str(e.notes.Get(g))
  {
    assert forall g :: RatingOf(g) in ENTRY_FIELDS && NoteOf(g) in ENTRY_FIELDS by {
      forall g ensures RatingOf(g) in ENTRY_FIELDS && NoteOf(g) in ENTRY_FIELDS {
        GoalCases(g);
      }
    }
    map f | f in ENTRY_FIELDS :: SavedValue(e, now, f)
  }

  /** The stored `date` field when it is text. */
  function DateOf(doc: Doc): Option<string> {
    if DateField in doc && doc[DateField].Str? then Some(doc[DateField].s) else None
  }

  /** The stored rating of goal `g` when it is a number. */
  function StoredRating(doc: Doc, g: GoalKey): Option<int> {
    if RatingOf(g) in doc && doc[RatingOf(g)].Num? then Some(doc[RatingOf(g)].n) else None
  }

  /** The stored note of goal `g` when it is text. */
  function StoredNote(doc: Doc, g: GoalKey): Option<string> {
    if NoteOf(g) in doc && doc[NoteOf(g)].Str? then Some(doc[NoteOf(g)].s) else None
  }

  /** A document holding a numeric rating and a text note for every goal. */
  predicate IsComplete(doc: Doc) {
    && StoredRating(doc, Material).Some? && StoredRating(doc, Ego).Some? && StoredRating(doc, Running).Some?
    && StoredNote(doc, Material).Some? && StoredNote(doc, Ego).Some? && StoredNote(doc, Running).Some?
  }

  /**
   The draft after loading `date`: the stored ratings and notes under the selected
   date when a complete document exists, the default draft otherwise.
   */
  function LoadedDraft(date: string, stored: Option<Doc>): (e: DailyEntry)
    ensures e.date == date
    ensures stored.None? ==> e == DefaultEntry(date)
    ensures stored.Some? && IsComplete(stored.value) ==>
              forall g :: Some(e.rating.Get(g)) == StoredRating(stored.value, g)
                       && Some(e.notes.Get(g)) == StoredNote(stored.value, g)
  {
    match stored
    case None => DefaultEntry(date)
    case Some(doc) =>
      if IsComplete(doc) then
        DailyEntry(date,
                   GoalRecord(StoredRating(doc, Material).value, StoredRating(doc, Ego).value, StoredRating(doc, Running).value),
                   GoalRecord(StoredNote(doc, Material).value, StoredNote(doc, Ego).value, StoredNote(doc, Running).value))
      else
        DefaultEntry(date)
  }

  /**
   Saving a draft and loading its date again gives back the same draft, whatever
   the document held before the write.
   */
  lemma SaveThenLoad(before: Option<Doc>, e: DailyEntry, now: int)
    ensures LoadedDraft(e.date, Some(Merge(DocOrEmpty(before), EntryPayload(e, now)))) == e
  {
    var doc := Merge(DocOrEmpty(before), EntryPayload(e, now));
    assert forall g :: StoredRating(doc, g) == Some(e.rating.Get(g)) && StoredNote(doc, g) == Some(e.notes.Get(g));
    assert IsComplete(doc);
    var l := LoadedDraft(e.date, Some(doc));
    RecordsEqual(l.rating, e.rating);
    RecordsEqual(l.notes, e.notes);
  }

  /**
   Loading a complete document, editing only a note and saving again leaves every
   stored rating as it was.
   */
  lemma NoteEditKeepsStoredRatings(doc: Doc, date: string, g: GoalKey, text: string, now: int)
    requires IsComplete(doc)
    ensures var saved := Merge(doc, EntryPayload(WithNote(LoadedDraft(date, Some(doc)), g, text), now));
            forall h :: StoredRating(saved, h) == StoredRating(doc, h)
  {
  }

  /** The month document `recomputeMonth` writes: one percentage per goal. */
  function MonthPayload(pct: GoalRecord<int>): (m: MonthDoc)
    ensures forall g :: g in m && m[g] == pct.Get(g)
  {
    var m := map[Material := pct.material, Ego := pct.ego, Running := pct.running];
    assert forall g :: g in m && m[g] == pct.Get(g) by {
      forall g ensures g in m && m[g] == pct.Get(g) {
        GoalCases(g);
      }
    }
    m
  }

  /** A month payload names every goal, so merging it over any month document yields the payload. */
  lemma MonthPayloadOverwrites(before: MonthDoc, pct: GoalRecord<int>)
    ensures Merge(before, MonthPayload(pct)) == MonthPayload(pct)
  {
    var p := MonthPayload(pct);
    assert forall g :: g in p;
    assert Merge(before, p).Keys == p.Keys;
  }

  /** The month statistics shown for a month without a stored document: 0 for every goal. */
  function ZeroStats(): (m: MonthDoc)
    ensures forall g :: g in m && m[g] == 0
  {
    MonthPayload(Uniform(0))
  }

  /** The percentage the page shows for goal `g`: the held statistic, 0 when there is none. */
  function ShownPercent(stats: Option<MonthDoc>, g: GoalKey): (p: int)
    ensures stats.None? ==> p == 0
    ensures stats.Some? && g in stats.value ==> p == stats.value[g]
    ensures stats.Some? && g !in stats.value ==> p == 0
  {
    match stats
    case None => 0
    case Some(m) => if g in m then m[g] else 0
  }
}
