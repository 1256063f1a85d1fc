/**
 * The session tracker: a mirror of the single simulation-session row pushed
 * by the database change feed. Each INSERT or UPDATE notification replaces
 * the held row wholesale (last write wins) and recomputes `isActive`.
 */
module SessionMirror {
  import opened Common

  /** The row of the `simulation_sessions` table; nullable columns are `Option`s. */
  datatype SimulationSession = SimulationSession(
    id: string,
    scenario: string,
    gridRegion: string,
    status: string,
    forecastHour: int,
    totalFailedNodes: Option<int>,
    cascadeDepth: Option<int>,
    totalLoadShedMw: Option<real>,
    failedNodeIds: Option<seq<string>>,
    peakPriceMwh: Option<real>,
    avgPriceMwh: Option<real>,
    crewsDispatched: Option<int>,
    avgEtaMinutes: Option<real>,
    alertsGenerated: Option<int>,
    createdAt: string,
    completedAt: Option<string>)

  /** A session is active until its status reads "completed". */
  predicate IsLive(row: SimulationSession) {
    row.status != "completed"
  }

  class Tracker {
    var session: Option<SimulationSession>
    var isActive: bool

    /** `isActive` is exactly "a session is held and it is not completed"; so it implies a session. */
    ghost predicate Valid()
      reads this
    {
      isActive == (session.Some? && IsLive(session.value))
    }

    constructor ()
      ensures Valid()
      ensures session.None? && !isActive
    {
      session := None;
      isActive := false;
    }

    /** An INSERT notification: the new row replaces whatever was held. */
    method OnInsert(row: SimulationSession)
      modifies this
      ensures Valid()
      ensures session == Some(row) && isActive == IsLive(row)
    {
      session := Some(row);
      isActive := IsLive(row);
    }

    /** An UPDATE notification: the same effect as an INSERT carrying the same row. */
    method OnUpdate(row: SimulationSession)
      modifies this
      ensures Valid()
      ensures session == Some(row) && isActive == IsLive(row)
    {
      session := Some(row);
      isActive := IsLive(row);
    }

    /** Forget the session, whatever the prior state. */
    method ClearSession()
      modifies this
      ensures Valid()
      ensures session.None? && !isActive
    {
      session := None;
      isActive := false;
    }
  }

  /**
   * Last write wins: after any prior state and two notifications, the held
   * state is determined by the second row alone.
   */
  method LastWriteWins(t: Tracker, r1: SimulationSession, r2: SimulationSession, firstIsUpdate: bool, secondIsUpdate: bool)
    modifies t
    ensures t.Valid()
    ensures t.session == Some(r2) && t.isActive == IsLive(r2)
  {
    if firstIsUpdate {
      t.OnUpdate(r1);
    } else {
      t.OnInsert(r1);
    }
    if secondIsUpdate {
      t.OnUpdate(r2);
    } else {
      t.OnInsert(r2);
    }
  }
}
