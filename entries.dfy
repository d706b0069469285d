/**
 The daily entry the page edits as a draft: a date, one rating and one note per
 goal. Every edit the form applies is a functional update of one field.
 */
module Entries {
  import opened Goals

  /** A user's ratings (1..5 in the form) and notes for one date. */
  datatype DailyEntry = DailyEntry(date: string, rating: GoalRecord<int>, notes: GoalRecord<string>)

  /** The rating every goal starts from. */
  const DEFAULT_RATING: int := 3

  /** The draft shown for a date with nothing stored: rating 3 and an empty note for every goal. */
  function DefaultEntry(date: string): (e: DailyEntry)
    ensures e.date == date
    ensures forall g :: e.rating.Get(g) == DEFAULT_RATING && e.notes.Get(g) == ""
  {
    DailyEntry(date, Uniform(DEFAULT_RATING), Uniform(""))
  }

  /** The rating selector's update: a copy of the draft whose rating of goal `g` is `n`. */
  function WithRating(e: DailyEntry, g: GoalKey, n: int): (r: DailyEntry)
    ensures r.rating.Get(g) == n
    ensures forall h :: h != g ==> r.rating.Get(h) == e.rating.Get(h)
    ensures r.date == e.date && r.notes == e.notes
  {
    e.(rating := e.rating.With(g, n))
  }

  /** The notes field's update: a copy of the draft whose note of goal `g` is `text`. */
  function WithNote(e: DailyEntry, g: GoalKey, text: string): (r: DailyEntry)
    ensures r.notes.Get(g) == text
    ensures forall h :: h != g ==> r.notes.Get(h) == e.notes.Get(h)
    ensures r.date == e.date && r.rating == e.rating
  {
    e.(notes := e.notes.With(g, text))
  }

  /** Setting a rating to the value it already has gives back the same draft. */
  lemma RatingEditIdentity(e: DailyEntry, g: GoalKey)
    ensures WithRating(e, g, e.rating.Get(g)) == e
  {
    RecordsEqual(WithRating(e, g, e.rating.Get(g)).rating, e.rating);
  }

  /** Of two rating edits of the same goal only the last one is visible. */
  lemma LastRatingEditWins(e: DailyEntry, g: GoalKey, n1: int, n2: int)
    ensures WithRating(WithRating(e, g, n1), g, n2) == WithRating(e, g, n2)
  {
    RecordsEqual(WithRating(WithRating(e, g, n1), g, n2).rating, WithRating(e, g, n2).rating);
  }

  /** Rating edits of two different goals can be applied in either order. */
  lemma RatingEditsCommute(e: DailyEntry, g: GoalKey, h: GoalKey, m: int, n: int)
    requires g != h
    ensures WithRating(WithRating(e, g, m), h, n) == WithRating(WithRating(e, h, n), g, m)
  {
    RecordsEqual(WithRating(WithRating(e, g, m), h, n).rating, WithRating(WithRating(e, h, n), g, m).rating);
  }

  /** Note edits of two different goals can be applied in either order. */
  lemma NoteEditsCommute(e: DailyEntry, g: GoalKey, h: GoalKey, s: string, t: string)
    requires g != h
    ensures WithNote(WithNote(e, g, s), h, t) == WithNote(WithNote(e, h, t), g, s)
  {
    RecordsEqual(WithNote(WithNote(e, g, s), h, t).notes, WithNote(WithNote(e, h, t), g, s).notes);
  }

  /** A rating edit and a note edit never interfere, whatever their goals. */
  lemma RatingAndNoteEditsCommute(e: DailyEntry, g: GoalKey, h: GoalKey, n: int, t: string)
    ensures WithNote(WithRating(e, g, n), h, t) == WithRating(WithNote(e, h, t), g, n)
  {
  }
}
