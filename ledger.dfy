/**
 * The persisted STATE of the actor: one record per processed connection URL
 * and the run statistics, with the daily reset of the per-day counter and the
 * invariant that ties the all-time counters to the records.
 */
module Ledger {
  import opened Wrappers

  /** A URL of a connection's profile page; the key of the record map. */
  type Url = string

  /** The record kept for a connection once it has been evaluated. */
  datatype ConnectionRecord = ConnectionRecord(
    name: string,
    headline: string,
    company: string,
    evaluated: bool,
    isDecisionMaker: bool,
    category: string,
    confidence: real,
    messageSent: bool,
    message: Option<string>)

  /** The counters kept beside the records; `lastResetDate` is a calendar day (YYYY-MM-DD). */
  datatype Stats = Stats(
    totalEvaluated: nat,
    totalDecisionMakers: nat,
    totalMessagesSent: nat,
    todayCount: nat,
    lastResetDate: string)

  /** The statistics of a state that has never been saved. */
  function InitialStats(today: string): (s: Stats)
    ensures s.totalEvaluated == s.totalDecisionMakers == s.totalMessagesSent == s.todayCount == 0
    ensures s.lastResetDate == today
  {
    Stats(0, 0, 0, 0, today)
  }

  /** The statistics after the start-of-run check for a new day. */
  function ResetDay(stats: Stats, today: string): (s: Stats)
    ensures s.lastResetDate == today
    ensures s.todayCount == if stats.lastResetDate == today then stats.todayCount else 0
    ensures s.totalEvaluated == stats.totalEvaluated
    ensures s.totalDecisionMakers == stats.totalDecisionMakers
    ensures s.totalMessagesSent == stats.totalMessagesSent
  {
    if stats.lastResetDate != today then stats.(todayCount := 0, lastResetDate := today)
    else stats
  }

  /** Resetting twice on the same day is the same as resetting once. */
  lemma ResetDayIdempotent(stats: Stats, today: string)
    ensures ResetDay(ResetDay(stats, today), today) == ResetDay(stats, today)
  {
  }

  /** The connections classified as decision makers. */
  function DecisionMakers(connections: map<Url, ConnectionRecord>): set<Url> {
    set url | url in connections && connections[url].isDecisionMaker
  }

  /** The connections that were sent a message. */
  function Messaged(connections: map<Url, ConnectionRecord>): set<Url> {
    set url | url in connections && connections[url].messageSent
  }

  /**
   * The all-time counters agree with the records: one evaluation per record,
   * one decision maker per record so classified, one message per record marked
   * sent, and a message is only ever sent to a decision maker.
   */
  ghost predicate Consistent(connections: map<Url, ConnectionRecord>, stats: Stats) {
    && (forall url | url in connections ::
          connections[url].evaluated && (connections[url].messageSent ==> connections[url].isDecisionMaker))
    && stats.totalEvaluated == |connections|
    && stats.totalDecisionMakers == |DecisionMakers(connections)|
    && stats.totalMessagesSent == |Messaged(connections)|
  }

  /** A never-saved state is consistent. */
  lemma InitialConsistent(today: string)
    ensures Consistent(map[], InitialStats(today))
  {
  }

  /** Consistent counters are ordered: sent <= decision makers <= evaluated. */
  lemma ConsistentBounds(connections: map<Url, ConnectionRecord>, stats: Stats)
    requires Consistent(connections, stats)
    ensures stats.totalMessagesSent <= stats.totalDecisionMakers <= stats.totalEvaluated
  {
    assert Messaged(connections) <= DecisionMakers(connections);
    assert DecisionMakers(connections) <= connections.Keys;
    SubsetCardinality(Messaged(connections), DecisionMakers(connections));
    SubsetCardinality(DecisionMakers(connections), connections.Keys);
  }

  lemma {:induction false} SubsetCardinality(a: set<Url>, b: set<Url>)
    requires a <= b
    ensures |a| <= |b|
    decreases |b|
  {
    if a != {} {
      var x :| x in a;
      SubsetCardinality(a - {x}, b - {x});
    }
  }

  /** The daily reset does not touch what the counters invariant is about. */
  lemma ResetDayKeepsConsistent(connections: map<Url, ConnectionRecord>, stats: Stats, today: string)
    requires Consistent(connections, stats)
    ensures Consistent(connections, ResetDay(stats, today))
  {
  }

  /** Adding a record for a new URL moves each count by what that record says. */
  lemma InsertRecordCounts(connections: map<Url, ConnectionRecord>, url: Url, record: ConnectionRecord)
    requires url !in connections
    ensures |connections[url := record]| == |connections| + 1
    ensures |DecisionMakers(connections[url := record])| ==
            |DecisionMakers(connections)| + (if record.isDecisionMaker then 1 else 0)
    ensures |Messaged(connections[url := record])| ==
            |Messaged(connections)| + (if record.messageSent then 1 else 0)
  {
    InsertRecordKeys(connections, url, record);
    InsertRecordDecisionMakers(connections, url, record);
    InsertRecordMessaged(connections, url, record);
  }

  lemma InsertRecordKeys(connections: map<Url, ConnectionRecord>, url: Url, record: ConnectionRecord)
    requires url !in connections
    ensures |connections[url := record]| == |connections| + 1
  {
  }

  lemma InsertRecordDecisionMakers(connections: map<Url, ConnectionRecord>, url: Url, record: ConnectionRecord)
    requires url !in connections
    ensures DecisionMakers(connections[url := record]) ==
            DecisionMakers(connections) + (if record.isDecisionMaker then {url} else {})
    ensures url !in DecisionMakers(connections)
  {
  }

  lemma InsertRecordMessaged(connections: map<Url, ConnectionRecord>, url: Url, record: ConnectionRecord)
    requires url !in connections
    ensures Messaged(connections[url := record]) ==
            Messaged(connections) + (if record.messageSent then {url} else {})
    ensures url !in Messaged(connections)
  {
  }
}
