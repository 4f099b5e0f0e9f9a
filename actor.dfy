/**
 * The actor's entry point as imperative code over its persisted STATE object:
 * the record map and the statistics are fields that the daily reset and the
 * processing loop update in place.
 */
module Actor {
  import opened Wrappers
  import opened ConnectionList
  import opened Ledger
  import opened Processing

  /** How a run ends. */
  datatype RunExit = DailyLimitReached | Completed(messagesSentThisRun: nat)

  class ActorState {
    var connections: map<Url, ConnectionRecord>
    var stats: Stats

    /** The state used when none has been saved yet. */
    constructor (today: string)
      ensures connections == map[] && stats == InitialStats(today)
      ensures Consistent(connections, stats)
    {
      connections := map[];
      stats := InitialStats(today);
      InitialConsistent(today);
    }

    /** On a new day the per-day counter starts again from zero. */
    method ResetDailyCounter(today: string)
      modifies this
      ensures connections == old(connections)
      ensures stats == ResetDay(old(stats), today)
    {
      if stats.lastResetDate != today {
        stats := stats.(todayCount := 0, lastResetDate := today);
      }
    }

    /**
     * The loop over the prepared URLs. `outs[i]` is what the browser and the
     * model answer for `urls[i]` should it be processed. Returns the number of
     * messages sent in this run.
     */
    method ProcessConnections(cfg: Config, urls: seq<Url>, outs: seq<Outcome>) returns (sentThisRun: nat)
      requires |outs| == |urls|
      modifies this
      ensures RunState(connections, stats, sentThisRun) == Run(cfg, RunState(old(connections), old(stats), 0), urls, outs)
      ensures Extends(old(connections), connections)
      ensures 0 <= cfg.messagesPerRun ==> sentThisRun <= cfg.messagesPerRun
      ensures old(stats.todayCount) <= cfg.maxMessagesPerDay ==> stats.todayCount <= cfg.maxMessagesPerDay
      ensures stats.todayCount == old(stats.todayCount) + sentThisRun
      ensures stats.totalMessagesSent == old(stats.totalMessagesSent) + sentThisRun
      ensures stats.lastResetDate == old(stats.lastResetDate)
      ensures Consistent(old(connections), old(stats)) ==> Consistent(connections, stats)
    {
      ghost var start := RunState(connections, stats, 0);
      sentThisRun := 0;
      var i := 0;
      while i < |urls|
        invariant 0 <= i <= |urls|
        invariant Run(cfg, RunState(connections, stats, sentThisRun), urls[i..], outs[i..]) == Run(cfg, start, urls, outs)
      {
        if sentThisRun >= cfg.messagesPerRun {
          break;
        }
        if stats.todayCount >= cfg.maxMessagesPerDay {
          break;
        }
        var url := urls[i];
        assert urls[i..][1..] == urls[i + 1..] && outs[i..][1..] == outs[i + 1..];
        if url in connections {
          i := i + 1;
          continue;
        }
        var profile := Profiles.ExtractProfileInfo(outs[i].scraped);
        if profile.None? {
          i := i + 1;
          continue;
        }
        sentThisRun := EvaluateAndSend(cfg, url, profile.value, outs[i], sentThisRun);
        i := i + 1;
      }
      RunKeepsRecords(cfg, start, urls, outs);
      RunRespectsQuotas(cfg, start, urls, outs);
      RunSendCountersInStep(cfg, start, urls, outs);
      if Consistent(start.connections, start.stats) {
        RunKeepsConsistent(cfg, start, urls, outs);
      }
    }

    /**
     * The part of one turn of the loop after a new URL's profile was
     * extracted: record the evaluation and, for a decision maker, compose and
     * try to send the message. Takes and returns the run's sent count.
     */
    method EvaluateAndSend(cfg: Config, url: Url, profile: Profiles.ProfileData, o: Outcome, sentBefore: nat)
      returns (sentThisRun: nat)
      requires url !in connections && Profiles.ExtractProfileInfo(o.scraped) == Some(profile)
      modifies this
      ensures RunState(connections, stats, sentThisRun) ==
              Visit(cfg, RunState(old(connections), old(stats), sentBefore), url, o)
    {
      sentThisRun := sentBefore;
      var evaluation := Profiles.EvaluateWithAI(o.verdict);
      connections := connections[url := EvaluatedRecord(profile, evaluation)];
      stats := stats.(totalEvaluated := stats.totalEvaluated + 1);
      if evaluation.isDecisionMaker {
        stats := stats.(totalDecisionMakers := stats.totalDecisionMakers + 1);
        var message := Profiles.GenerateMessage(o.composed, profile, cfg.demoUrl);
        if o.sent {
          connections := connections[url := connections[url].(messageSent := true, message := Some(message))];
          stats := stats.(totalMessagesSent := stats.totalMessagesSent + 1, todayCount := stats.todayCount + 1);
          sentThisRun := sentThisRun + 1;
        }
      }
    }

    /**
     * One execution of the actor: reset the per-day counter on a new day, stop
     * at once when the daily limit is already met, otherwise work through the
     * prepared list of scraped `links`.
     */
    method Execute(cfg: Config, today: string, links: seq<string>, outs: seq<Outcome>) returns (exit: RunExit)
      requires |outs| == |PrepareUrls(links)|
      modifies this
      ensures stats.lastResetDate == today
      ensures ResetDay(old(stats), today).todayCount >= cfg.maxMessagesPerDay ==>
        exit == DailyLimitReached && connections == old(connections) && stats == ResetDay(old(stats), today)
      ensures ResetDay(old(stats), today).todayCount < cfg.maxMessagesPerDay ==>
        exit.Completed? &&
        RunState(connections, stats, exit.messagesSentThisRun) ==
          Run(cfg, RunState(old(connections), ResetDay(old(stats), today), 0), PrepareUrls(links), outs)
      ensures exit.Completed? ==> stats.todayCount <= cfg.maxMessagesPerDay
      ensures Extends(old(connections), connections)
      ensures Consistent(old(connections), old(stats)) ==> Consistent(connections, stats)
    {
      ghost var consistent := Consistent(connections, stats);
      ResetDailyCounter(today);
      if consistent {
        ResetDayKeepsConsistent(old(connections), old(stats), today);
      }
      if stats.todayCount >= cfg.maxMessagesPerDay {
        return DailyLimitReached;
      }
      var urls := PrepareUrls(links);
      var sent := ProcessConnections(cfg, urls, outs);
      exit := Completed(sent);
    }
  }
}
