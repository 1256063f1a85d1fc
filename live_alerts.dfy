/**
 * The live-alerts list: every INSERT on the alerts feed of the selected grid
 * region is prepended, without a cap and without de-duplication.
 */
module LiveAlerts {
  import opened Common

  datatype LiveAlert = LiveAlert(
    id: string,
    sessionId: Option<string>,
    gridRegion: string,
    severity: string,
    title: string,
    description: string,
    alertType: string,
    createdAt: string)

  /** The list after each of `rows` was prepended in arrival order. */
  function PrependEach(prev: seq<LiveAlert>, rows: seq<LiveAlert>): seq<LiveAlert>
    decreases |rows|
  {
    if rows == [] then prev else PrependEach([rows[0]] + prev, rows[1..])
  }

  /** `rows` in reverse order, defined independently of prepending. */
  function Reversed(rows: seq<LiveAlert>): (r: seq<LiveAlert>)
    ensures |r| == |rows|
  {
    if rows == [] then [] else Reversed(rows[1..]) + [rows[0]]
  }

  lemma {:induction false} PrependEachFrom(prev: seq<LiveAlert>, rows: seq<LiveAlert>)
    ensures PrependEach(prev, rows) == Reversed(rows) + prev
    decreases |rows|
  {
    if rows != [] {
      PrependEachFrom([rows[0]] + prev, rows[1..]);
      assert Reversed(rows) == Reversed(rows[1..]) + [rows[0]];
      assert Reversed(rows[1..]) + ([rows[0]] + prev) == (Reversed(rows[1..]) + [rows[0]]) + prev;
    }
  }

  /** From an empty list, inserts r1..rn leave [rn, ..., r1]: most recent first, nothing dropped. */
  lemma InsertsFromEmpty(rows: seq<LiveAlert>)
    ensures PrependEach([], rows) == Reversed(rows)
    ensures |PrependEach([], rows)| == |rows|
  {
    PrependEachFrom([], rows);
    assert Reversed(rows) + [] == Reversed(rows);
  }

  class AlertsFeed {
    var liveAlerts: seq<LiveAlert>
    var gridRegion: string

    constructor (region: string)
      ensures liveAlerts == [] && gridRegion == region
    {
      liveAlerts := [];
      gridRegion := region;
    }

    /** An INSERT notification: `[row, ...prev]`; the length grows by exactly one. */
    method OnInsert(row: LiveAlert)
      modifies this
      ensures liveAlerts == [row] + old(liveAlerts)
      ensures |liveAlerts| == |old(liveAlerts)| + 1
      ensures gridRegion == old(gridRegion)
    {
      liveAlerts := [row] + liveAlerts;
    }

    method ClearAlerts()
      modifies this
      ensures liveAlerts == [] && gridRegion == old(gridRegion)
    {
      liveAlerts := [];
    }

    /** Re-subscribing for another region keeps the held list as it is. */
    method SetGridRegion(region: string)
      modifies this
      ensures liveAlerts == old(liveAlerts) && gridRegion == region
    {
      gridRegion := region;
    }
  }
}
