/**
 * The per-run processing of connection URLs as a specification on values:
 * `Visit` is one turn of the loop for a URL once the quota checks have let it
 * through, `Run` is the whole loop. The lemmas state what the loop promises:
 * records are never overwritten, the quotas hold, the counters move in step
 * with the records, and a failed send consumes its URL for good.
 */
module Processing {
  import opened Wrappers
  import opened Profiles
  import opened Ledger

  /** The actor's input options that the loop depends on. */
  datatype Config = Config(messagesPerRun: int, maxMessagesPerDay: int, demoUrl: string)

  /**
   * What the external collaborators answer for one URL, should it be processed:
   * the scraped page (`None` when scraping threw), the model's verdict (`None`
   * when the call or its parsing failed), the model's message text (`None` when
   * composing threw) and whether the browser managed to send the message.
   */
  datatype Outcome = Outcome(
    scraped: Option<ProfileData>,
    verdict: Option<Evaluation>,
    composed: Option<string>,
    sent: bool)

  /** The persisted records and counters, plus the messages sent in this run. */
  datatype RunState = RunState(connections: map<Url, ConnectionRecord>, stats: Stats, sentThisRun: nat)

  /** The loop stops once the per-run or the per-day quota is met. */
  predicate QuotaReached(cfg: Config, st: RunState) {
    st.sentThisRun >= cfg.messagesPerRun || st.stats.todayCount >= cfg.maxMessagesPerDay
  }

  /** The record saved right after evaluation, before any send. */
  function EvaluatedRecord(profile: ProfileData, evaluation: Evaluation): (r: ConnectionRecord)
    ensures r.evaluated && !r.messageSent && r.message.None?
    ensures r.name == profile.name && r.headline == profile.headline && r.company == profile.company
    ensures r.isDecisionMaker == evaluation.isDecisionMaker
    ensures r.category == evaluation.category && r.confidence == evaluation.confidence
  {
    ConnectionRecord(profile.name, profile.headline, profile.company, true,
                     evaluation.isDecisionMaker, evaluation.category, evaluation.confidence,
                     false, None)
  }

  /** `m2` keeps every record of `m1` unchanged. */
  ghost predicate Extends(m1: map<Url, ConnectionRecord>, m2: map<Url, ConnectionRecord>) {
    forall url | url in m1 :: url in m2 && m2[url] == m1[url]
  }

  /** One turn of the loop for `url`, given that no quota has been met. */
  function Visit(cfg: Config, st: RunState, url: Url, o: Outcome): (r: RunState)
    // already processed: skipped, nothing changes
    ensures url in st.connections ==> r == st
    // extraction failed: skipped, nothing recorded, so the URL stays eligible
    ensures ExtractProfileInfo(o.scraped).None? ==> r == st
    // otherwise exactly one new record, and the counters follow it
    ensures url !in st.connections && ExtractProfileInfo(o.scraped).Some? ==> url in r.connections
    ensures url !in st.connections && ExtractProfileInfo(o.scraped).Some? ==>
      var profile := ExtractProfileInfo(o.scraped).value;
      var record := r.connections[url];
      && r.connections == st.connections[url := record]
      && record.evaluated
      && record.name == profile.name && record.headline == profile.headline && record.company == profile.company
      && record.isDecisionMaker == EvaluateWithAI(o.verdict).isDecisionMaker
      && record.category == EvaluateWithAI(o.verdict).category
      && record.confidence == EvaluateWithAI(o.verdict).confidence
      && (record.messageSent <==> record.isDecisionMaker && o.sent)
      && record.message == (if record.messageSent then Some(GenerateMessage(o.composed, profile, cfg.demoUrl)) else None)
      && r.stats.totalEvaluated == st.stats.totalEvaluated + 1
      && r.stats.totalDecisionMakers == st.stats.totalDecisionMakers + (if record.isDecisionMaker then 1 else 0)
      && r.stats.totalMessagesSent == st.stats.totalMessagesSent + (if record.messageSent then 1 else 0)
      && r.stats.todayCount == st.stats.todayCount + (if record.messageSent then 1 else 0)
      && r.sentThisRun == st.sentThisRun + (if record.messageSent then 1 else 0)
      && r.stats.lastResetDate == st.stats.lastResetDate
  {
    if url in st.connections then st
    else
      match ExtractProfileInfo(o.scraped)
      case None => st
      case Some(profile) =>
        var evaluation := EvaluateWithAI(o.verdict);
        var evaluated := RunState(
          st.connections[url := EvaluatedRecord(profile, evaluation)],
          st.stats.(totalEvaluated := st.stats.totalEvaluated + 1),
          st.sentThisRun);
        if !evaluation.isDecisionMaker then evaluated
        else
          var flagged := evaluated.(stats := evaluated.stats.(totalDecisionMakers := evaluated.stats.totalDecisionMakers + 1));
          if !o.sent then flagged
          else RecordSend(flagged, url, GenerateMessage(o.composed, profile, cfg.demoUrl))
  }

  /**
   * The bookkeeping of a successful send to `url`: only that record changes,
   * and only in being marked sent with its message; the three send counters
   * go up by one and the other statistics stay.
   */
  function RecordSend(st: RunState, url: Url, message: string): (r: RunState)
    requires url in st.connections
    ensures r.connections.Keys == st.connections.Keys
    ensures forall other | other in st.connections && other != url :: r.connections[other] == st.connections[other]
    ensures var before, after := st.connections[url], r.connections[url];
      && after.messageSent && after.message == Some(message)
      && after.name == before.name && after.headline == before.headline && after.company == before.company
      && after.evaluated == before.evaluated && after.isDecisionMaker == before.isDecisionMaker
      && after.category == before.category && after.confidence == before.confidence
    ensures r.stats.totalMessagesSent == st.stats.totalMessagesSent + 1
    ensures r.stats.todayCount == st.stats.todayCount + 1
    ensures r.sentThisRun == st.sentThisRun + 1
    ensures r.stats.totalEvaluated == st.stats.totalEvaluated
    ensures r.stats.totalDecisionMakers == st.stats.totalDecisionMakers
    ensures r.stats.lastResetDate == st.stats.lastResetDate
  {
    RunState(
      st.connections[url := st.connections[url].(messageSent := true, message := Some(message))],
      st.stats.(totalMessagesSent := st.stats.totalMessagesSent + 1, todayCount := st.stats.todayCount + 1),
      st.sentThisRun + 1)
  }

  /** The whole loop over `urls`; `outs[i]` is what the collaborators answer for `urls[i]`. */
  function Run(cfg: Config, st: RunState, urls: seq<Url>, outs: seq<Outcome>): (r: RunState)
    requires |outs| == |urls|
    // at most one record and one message per URL of the list
    ensures |r.connections| <= |st.connections| + |urls|
    ensures st.sentThisRun <= r.sentThisRun <= st.sentThisRun + |urls|
    decreases |urls|
  {
    if urls == [] || QuotaReached(cfg, st) then st
    else Run(cfg, Visit(cfg, st, urls[0], outs[0]), urls[1..], outs[1..])
  }

  /** Once a quota is met the loop does nothing more: no record, no counter, no send. */
  lemma RunStopsAtQuota(cfg: Config, st: RunState, urls: seq<Url>, outs: seq<Outcome>)
    requires |outs| == |urls|
    requires QuotaReached(cfg, st)
    ensures Run(cfg, st, urls, outs) == st
  {
  }

  /**
   * Three decision makers A, B, C whose sends all succeed, with a per-run
   * quota of two: A and B are messaged and the run stops before C.
   */
  lemma QuotaScenario(a: Url, b: Url, c: Url, profile: ProfileData, verdict: Evaluation, stats: Stats)
    requires a != b && b != c && a != c
    requires |profile.name| >= 2 && verdict.isDecisionMaker
    requires stats.todayCount == 0
    ensures var o := Outcome(Some(profile), Some(verdict), None, true);
      var r := Run(Config(2, 30, "demo"), RunState(map[], stats, 0), [a, b, c], [o, o, o]);
      r.connections.Keys == {a, b} && r.sentThisRun == 2 && r.stats.todayCount == 2
  {
    var o := Outcome(Some(profile), Some(verdict), None, true);
    var cfg := Config(2, 30, "demo");
    var s1 := Visit(cfg, RunState(map[], stats, 0), a, o);
    var s2 := Visit(cfg, s1, b, o);
    assert [a, b, c][1..] == [b, c] && [b, c][1..] == [c];
    assert [o, o, o][1..] == [o, o] && [o, o][1..] == [o];
    assert s1.connections.Keys == {a} && s1.sentThisRun == 1;
    assert s2.connections.Keys == {a, b} && s2.sentThisRun == 2 && s2.stats.todayCount == 2;
    assert Run(cfg, RunState(map[], stats, 0), [a, b, c], [o, o, o]) == Run(cfg, s1, [b, c], [o, o]);
    assert Run(cfg, s1, [b, c], [o, o]) == Run(cfg, s2, [c], [o]);
    assert Run(cfg, s2, [c], [o]) == s2;
  }

  /** A run over a concatenation is the run over the first part followed by the run over the rest. */
  lemma {:induction false} RunAppend(cfg: Config, st: RunState, urls1: seq<Url>, outs1: seq<Outcome>, urls2: seq<Url>, outs2: seq<Outcome>)
    requires |outs1| == |urls1| && |outs2| == |urls2|
    ensures Run(cfg, st, urls1 + urls2, outs1 + outs2) == Run(cfg, Run(cfg, st, urls1, outs1), urls2, outs2)
    decreases |urls1|
  {
    if urls1 == [] {
      assert urls1 + urls2 == urls2 && outs1 + outs2 == outs2;
    } else if QuotaReached(cfg, st) {
      RunStopsAtQuota(cfg, st, urls2, outs2);
    } else {
      assert (urls1 + urls2)[1..] == urls1[1..] + urls2;
      assert (outs1 + outs2)[1..] == outs1[1..] + outs2;
      RunAppend(cfg, Visit(cfg, st, urls1[0], outs1[0]), urls1[1..], outs1[1..], urls2, outs2);
    }
  }

  /** When a quota is met after some prefix of the list, the URLs after it are never looked at. */
  lemma NothingAfterQuota(cfg: Config, st: RunState, urls1: seq<Url>, outs1: seq<Outcome>, urls2: seq<Url>, outs2: seq<Outcome>)
    requires |outs1| == |urls1| && |outs2| == |urls2|
    requires QuotaReached(cfg, Run(cfg, st, urls1, outs1))
    ensures Run(cfg, st, urls1 + urls2, outs1 + outs2) == Run(cfg, st, urls1, outs1)
  {
    RunAppend(cfg, st, urls1, outs1, urls2, outs2);
    RunStopsAtQuota(cfg, Run(cfg, st, urls1, outs1), urls2, outs2);
  }

  /** A run never overwrites nor removes a record, and only adds records for URLs of its list. */
  lemma {:induction false} RunKeepsRecords(cfg: Config, st: RunState, urls: seq<Url>, outs: seq<Outcome>)
    requires |outs| == |urls|
    ensures Extends(st.connections, Run(cfg, st, urls, outs).connections)
    ensures forall url | url in Run(cfg, st, urls, outs).connections :: url in st.connections || url in urls
    decreases |urls|
  {
    if urls != [] && !QuotaReached(cfg, st) {
      var next := Visit(cfg, st, urls[0], outs[0]);
      RunKeepsRecords(cfg, next, urls[1..], outs[1..]);
    }
  }

  /**
   * The quotas hold at the end of a run: the per-run count only exceeds its
   * starting value while staying within `messagesPerRun`, and likewise the
   * per-day count within `maxMessagesPerDay`.
   */
  lemma {:induction false} RunRespectsQuotas(cfg: Config, st: RunState, urls: seq<Url>, outs: seq<Outcome>)
    requires |outs| == |urls|
    ensures var r := Run(cfg, st, urls, outs);
      && st.sentThisRun <= r.sentThisRun
      && (r.sentThisRun == st.sentThisRun || r.sentThisRun <= cfg.messagesPerRun)
      && st.stats.todayCount <= r.stats.todayCount
      && (r.stats.todayCount == st.stats.todayCount || r.stats.todayCount <= cfg.maxMessagesPerDay)
    decreases |urls|
  {
    if urls != [] && !QuotaReached(cfg, st) {
      var next := Visit(cfg, st, urls[0], outs[0]);
      RunRespectsQuotas(cfg, next, urls[1..], outs[1..]);
    }
  }

  /**
   * The three send counters move in lock step during a run, and the date of
   * the last reset is left alone.
   */
  lemma {:induction false} RunSendCountersInStep(cfg: Config, st: RunState, urls: seq<Url>, outs: seq<Outcome>)
    requires |outs| == |urls|
    ensures var r := Run(cfg, st, urls, outs);
      && r.stats.todayCount - st.stats.todayCount == r.sentThisRun - st.sentThisRun
      && r.stats.totalMessagesSent - st.stats.totalMessagesSent == r.sentThisRun - st.sentThisRun
      && r.stats.lastResetDate == st.stats.lastResetDate
    decreases |urls|
  {
    if urls != [] && !QuotaReached(cfg, st) {
      var next := Visit(cfg, st, urls[0], outs[0]);
      RunSendCountersInStep(cfg, next, urls[1..], outs[1..]);
    }
  }

  /** One turn keeps the counters consistent with the records. */
  lemma VisitKeepsConsistent(cfg: Config, st: RunState, url: Url, o: Outcome)
    requires Consistent(st.connections, st.stats)
    ensures var r := Visit(cfg, st, url, o); Consistent(r.connections, r.stats)
  {
    if url !in st.connections && ExtractProfileInfo(o.scraped).Some? {
      var r := Visit(cfg, st, url, o);
      InsertRecordCounts(st.connections, url, r.connections[url]);
    }
  }

  /** A whole run keeps the counters consistent with the records. */
  lemma {:induction false} RunKeepsConsistent(cfg: Config, st: RunState, urls: seq<Url>, outs: seq<Outcome>)
    requires |outs| == |urls|
    requires Consistent(st.connections, st.stats)
    ensures var r := Run(cfg, st, urls, outs); Consistent(r.connections, r.stats)
    decreases |urls|
  {
    if urls != [] && !QuotaReached(cfg, st) {
      VisitKeepsConsistent(cfg, st, urls[0], outs[0]);
      RunKeepsConsistent(cfg, Visit(cfg, st, urls[0], outs[0]), urls[1..], outs[1..]);
    }
  }

  /**
   * A decision maker whose message failed to send keeps a record marked
   * unsent, and no later run touches that record again: the URL is consumed.
   * `resumed` is any later state whose records extend those right after the
   * failed send (the rest of that run and any runs in between may add more).
   */
  lemma FailedSendIsFinal(cfg: Config, st: RunState, url: Url, o: Outcome,
                          later: Config, resumed: RunState, urls: seq<Url>, outs: seq<Outcome>)
    requires url !in st.connections
    requires ExtractProfileInfo(o.scraped).Some? && EvaluateWithAI(o.verdict).isDecisionMaker && !o.sent
    requires Extends(Visit(cfg, st, url, o).connections, resumed.connections)
    requires |outs| == |urls|
    ensures var record := Visit(cfg, st, url, o).connections[url];
      && record.isDecisionMaker && !record.messageSent
      && url in Run(later, resumed, urls, outs).connections
      && Run(later, resumed, urls, outs).connections[url] == record
  {
    RunKeepsRecords(later, resumed, urls, outs);
  }
}
