/**
 * The score table of the dashboard: one row per catalogue sound, filled from
 * the stored scores, best score first and, on equal best scores, the sound
 * with more attempts first.
 */
module Dashboard {
  import opened Wrappers
  import opened Sorting
  import Catalogue
  import Scores

  /** One table row: the sound, its best score, its last score (if any) and its attempt count. */
  datatype Row = Row(sound: Catalogue.Sound, best: int, last: Option<int>, attempts: int)

  /** The row of one sound; a sound with no record shows 0, no last score and 0 attempts. */
  function RowFor(scores: Scores.ScoreMap, s: Catalogue.Sound): (r: Row)
    ensures r.sound == s
    ensures s.id in scores <==> r.last.Some?
    ensures s.id in scores ==> r.best == scores[s.id].best && r.last.value == scores[s.id].last
                               && r.attempts == scores[s.id].attempts
    ensures s.id !in scores ==> r.best == 0 && r.attempts == 0
  {
    if s.id in scores then
      var sc := scores[s.id];
      Row(s, sc.best, Some(sc.last), sc.attempts)
    else
      Row(s, 0, None, 0)
  }

  /** `SOUNDS.map(...)`: the rows in catalogue order. */
  function RowsOf(scores: Scores.ScoreMap, ss: seq<Catalogue.Sound>): (r: seq<Row>)
    ensures |r| == |ss|
    ensures forall i :: 0 <= i < |ss| ==> r[i] == RowFor(scores, ss[i])
    decreases |ss|
  {
    if ss == [] then [] else [RowFor(scores, ss[0])] + RowsOf(scores, ss[1..])
  }

  /**
   * The comparator `(b.best - a.best) || (b.attempts - a.attempts)` is at
   * most zero exactly when `a` has the higher best score, or the same best
   * score and at least as many attempts.
   */
  predicate ShownFirst(a: Row, b: Row) {
    a.best > b.best || (a.best == b.best && a.attempts >= b.attempts)
  }

  /** The rows of the table, top to bottom. */
  function Table(scores: Scores.ScoreMap): (t: seq<Row>)
    ensures |t| == |Catalogue.Sounds|
    ensures multiset(t) == multiset(RowsOf(scores, Catalogue.Sounds))
  {
    SortBy(RowsOf(scores, Catalogue.Sounds), ShownFirst)
  }

  lemma ShownFirstTotal()
    ensures TotalPreorder(ShownFirst)
  {
  }

  /**
   * The table holds exactly the catalogue's rows, each filled from the
   * stored scores, ordered by best score then attempts.
   */
  lemma TableShape(scores: Scores.ScoreMap)
    ensures var t := Table(scores);
            && |t| == |Catalogue.Sounds|
            && multiset(t) == multiset(RowsOf(scores, Catalogue.Sounds))
            && Sorted(t, ShownFirst)
            && (forall i :: 0 <= i < |t| ==> t[i].sound in Catalogue.Sounds && t[i] == RowFor(scores, t[i].sound))
            && (forall s :: s in Catalogue.Sounds ==> RowFor(scores, s) in t)
  {
    var rows := RowsOf(scores, Catalogue.Sounds);
    var t := Table(scores);
    ShownFirstTotal();
    SortBySorted(rows, ShownFirst);
    forall i | 0 <= i < |t|
      ensures t[i].sound in Catalogue.Sounds && t[i] == RowFor(scores, t[i].sound)
    {
      assert t[i] in multiset(rows);
      var k :| 0 <= k < |rows| && rows[k] == t[i];
      assert rows[k] == RowFor(scores, Catalogue.Sounds[k]);
    }
    forall s | s in Catalogue.Sounds
      ensures RowFor(scores, s) in t
    {
      var k :| 0 <= k < |Catalogue.Sounds| && Catalogue.Sounds[k] == s;
      assert rows[k] == RowFor(scores, s);
      assert RowFor(scores, s) in multiset(t);
    }
  }

  /**
   * A row with a higher best score, or the same best score and more
   * attempts, is always shown above the other.
   */
  lemma TableOrder(scores: Scores.ScoreMap)
    ensures var t := Table(scores);
            forall i, j :: 0 <= i < |t| && 0 <= j < |t| &&
                           (t[i].best > t[j].best || (t[i].best == t[j].best && t[i].attempts > t[j].attempts))
                           ==> i < j
  {
    ShownFirstTotal();
    SortBySorted(RowsOf(scores, Catalogue.Sounds), ShownFirst);
  }

  /** Rows with the same best score and the same attempt count keep catalogue order. */
  lemma TableTiesInCatalogueOrder(scores: Scores.ScoreMap, best: int, attempts: int)
    ensures var tied := (r: Row) => r.best == best && r.attempts == attempts;
            Filter(Table(scores), tied) == Filter(RowsOf(scores, Catalogue.Sounds), tied)
  {
    var tied := (r: Row) => r.best == best && r.attempts == attempts;
    SortByStable(RowsOf(scores, Catalogue.Sounds), ShownFirst, tied);
  }

  /** Rows of sounds with no stored score are all tied, so sorting leaves them in order. */
  lemma UnscoredRowsKeepOrder(ss: seq<Catalogue.Sound>)
    ensures SortBy(RowsOf(map[], ss), ShownFirst) == RowsOf(map[], ss)
    ensures forall i :: 0 <= i < |ss| ==> RowsOf(map[], ss)[i].last == None
  {
    var rows := RowsOf(map[], ss);
    var tied := (r: Row) => r.best == 0 && r.attempts == 0;
    SortByStable(rows, ShownFirst, tied);
    FilterAll(rows, tied);
    var t := SortBy(rows, ShownFirst);
    forall i | 0 <= i < |t| ensures tied(t[i]) {
      assert t[i] in multiset(rows);
    }
    FilterAll(t, tied);
  }

  /** With no scores stored (also right after a reset), the table lists the sounds in catalogue order. */
  lemma EmptyTableInCatalogueOrder()
    ensures Table(map[]) == RowsOf(map[], Catalogue.Sounds)
    ensures forall i :: 0 <= i < |Table(map[])| ==> Table(map[])[i].last == None
  {
    var ss := Catalogue.Sounds;
    UnscoredRowsKeepOrder(ss);
  }
}
