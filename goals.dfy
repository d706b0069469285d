/**
 The three fixed goals of the tracker and the three-key records (one value per goal)
 that the page keeps for ratings, notes and monthly sums.
 */
module Goals {

  /** The goal keys "material", "ego" and "running". */
  datatype GoalKey = Material | Ego | Running

  /** Every goal key is one of the three. */
  lemma GoalCases(g: GoalKey)
    ensures g == Material || g == Ego || g == Running
  {
  }

  /** A record with exactly one field per goal. */
  datatype GoalRecord<T> = GoalRecord(material: T, ego: T, running: T) {

    /** The field of goal `k`. */
    function Get(k: GoalKey): T {
      match k
      case Material => material
      case Ego => ego
      case Running => running
    }

    /** The spread-copy with one key replaced: `{ ...this, [k]: v }`. */
    function With(k: GoalKey, v: T): (r: GoalRecord<T>)
      ensures r.Get(k) == v
      ensures forall j :: j != k ==> r.Get(j) == Get(j)
    {
      match k
      case Material => this.(material := v)
      case Ego => this.(ego := v)
      case Running => this.(running := v)
    }
  }

  /** The record holding `v` for every goal. */
  function Uniform<T>(v: T): (r: GoalRecord<T>)
    ensures forall k :: r.Get(k) == v
  {
    GoalRecord(v, v, v)
  }

  /** Two records are equal exactly when they agree on every goal. */
  lemma RecordsEqual<T>(a: GoalRecord<T>, b: GoalRecord<T>)
    requires forall k :: a.Get(k) == b.Get(k)
    ensures a == b
  {
    assert a.Get(Material) == b.Get(Material);
    assert a.Get(Ego) == b.Get(Ego);
    assert a.Get(Running) == b.Get(Running);
  }
}
