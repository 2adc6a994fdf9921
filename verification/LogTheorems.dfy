/** When log lines are sent: once attached, and no oftener than the platform allows (src/agent.rs). */
module LogTheorems {
  import opened Common
  import opened Protocol
  import opened SessionTheorems
  import opened Endings
  import opened ChannelTheorems
  import Heartbeats

  predicate IsLogs(e: Event) { e.Sent? && e.content.Logs? }

  /** How far apart, for so many lines: it takes a batch to send more than one. */
  function Interval(lines: nat): nat { if lines > 1 then 1000 else 250 }

  /** While the log has its turn, it is due; and no more is given to it than may go at once. */
  predicate LoggingFits(c: Config, h: History) {
    h.logging.NoneDue?
    || ((if h.duty.Downloading? then LogsDue(c, h.link, h.duty.tick, h.duty.log)
         else h.duty.Idle? && h.timed && LogsDue(c, h.link, h.turn, h.loop.lastLog))
        && (h.logging.Given? ==> 1 <= h.logging.lines <= MostLines(h.link)))
  }

  lemma LoggingFitsStep(c: Config, h: History, e: Event)
    requires Sane(h) && LoggingFits(c, h) && Allowed(c, h, e)
    ensures LoggingFits(c, Next(c, h, e))
  {
    hide Next, Allowed, Plain, LogsDue, Confirmation;
    if e.Sent? {
      LoggingFitsWhenSending(c, h, e);
    } else if e.Clock? {
      LoggingFitsWhenReading(c, h, e);
    } else if IsArrival(e) {
      LoggingFitsWhenArriving(c, h, e);
    } else {
      LoggingFitsOtherwise(c, h, e);
    }
  }

  lemma BeatingKeepsLogsDue(c: Config, link: Channels, now: nat, from: nat)
    ensures LogsDue(c, AfterSend(link, Heartbeat), now, from) == LogsDue(c, link, now, from)
    ensures MostLines(AfterSend(link, Heartbeat)) == MostLines(link)
  {}

  lemma LoggingFitsWhenSending(c: Config, h: History, e: Event)
    requires Sane(h) && LoggingFits(c, h) && Allowed(c, h, e) && e.Sent?
    ensures LoggingFits(c, Next(c, h, e))
  {
    hide Next, Allowed, AfterSend, NextRef, Label, Plain, LogsDue, MostLines;
    SentMeans(c, h, e);
    if h.duty.Downloading? {
      BeatingKeepsLogsDue(c, h.link, h.duty.tick, h.duty.log);
    } else {
      BeatingKeepsLogsDue(c, h.link, h.turn, h.loop.lastLog);
    }
  }

  lemma LoggingFitsWhenReading(c: Config, h: History, e: Event)
    requires Allowed(c, h, e) && e.Clock?
    ensures LoggingFits(c, Next(c, h, e))
  {
    hide Next, Allowed, LogsDue, MostLines;
    ReadMeans(c, h, e);
  }

  lemma LoggingFitsWhenArriving(c: Config, h: History, e: Event)
    requires Allowed(c, h, e) && IsArrival(e)
    ensures Next(c, h, e).logging.NoneDue?
  {
    hide Calls, Heard, ReaderAfter, LimitReached, Lingered, StillWaiting;
  }

  lemma LoggingFitsOtherwise(c: Config, h: History, e: Event)
    requires Sane(h) && LoggingFits(c, h) && Allowed(c, h, e) && !e.Sent? && !e.Clock? && !IsArrival(e)
    ensures LoggingFits(c, Next(c, h, e))
  {
    hide Plain, LogsDue, MostLines, LogsCount, Lingered, SendAll, ToAnswer, OnSent, OnClock, MaySend, MayRead;
  }

  lemma {:induction false} LoggingAlwaysFits(c: Config, run: seq<Event>)
    requires Lawful(c, run)
    ensures LoggingFits(c, Fold(c, run))
    decreases |run|
  {
    hide Next, Allowed, Sane;
    if run != [] {
      var n := |run| - 1;
      LoggingAlwaysFits(c, run[..n]);
      SaneAlways(c, run[..n]);
      LoggingFitsStep(c, Fold(c, run[..n]), run[n]);
    }
  }

  lemma LoggingMeans(c: Config, h: History, e: Event)
    requires Sane(h) && LoggingFits(c, h) && Allowed(c, h, e) && IsLogs(e)
    ensures h.duty.Downloading? || h.duty.Idle?
    ensures
      var now, from :=
        if h.duty.Downloading? then h.duty.tick else h.turn, if h.duty.Downloading? then h.duty.log else h.loop.lastLog;
      && c.logs && Attached(h.link, "logging") && 1 <= e.content.lines <= 100
      && Since(now, from) >= Interval(e.content.lines)
  {
    hide NextRef, Label, Orderly;
    SentMeans(c, h, e);
  }

  /** Wherever logs are sent, the platform had attached logging, and there is a batch of them at most. */
  lemma LogsNeedAttaching(c: Config, run: seq<Event>, j: nat)
    requires Lawful(c, run) && j < |run| && IsLogs(run[j])
    ensures c.logs && 1 <= run[j].content.lines <= 100
    ensures exists k: nat :: k < j && Attaches(run, k, "logging")
  {
    hide Next, Allowed, Sane, Lawful, Fold, ExtensionsRef;
    StepAt(c, run, j);
    var h := Fold(c, run[..j]);
    SaneAlways(c, run[..j]);
    LoggingAlwaysFits(c, run[..j]);
    LoggingMeans(c, h, run[j]);
    AttachmentIsKnown(c, run[..j], "logging");
    var k :| Attaches(run[..j], k, "logging");
    AttachesStill(run, j, k, "logging");
  }

  // ---------- In the loop ----------

  /** Outside a download, with nothing logged since `at`. */
  predicate Quieted(h: History, at: nat) {
    && Sane(h) && !h.duty.Opening? && h.duty != Timing(LogsFrom) && !Heartbeats.InDownload(h.duty)
    && h.loop.lastLog == at
  }

  lemma QuietedStep(c: Config, h: History, e: Event, at: nat)
    requires Quieted(h, at) && Allowed(c, h, e) && !IsLogs(e) && !e.Began?
    ensures Quieted(Next(c, h, e), at)
  {
    hide Next, Allowed, Sane;
    SaneStep(c, h, e);
    if e.Sent? {
      QuietedWhenSending(c, h, e);
    } else if e.Clock? {
      QuietedWhenReading(c, h, e);
    } else if IsArrival(e) {
      QuietedWhenArriving(c, h, e);
    } else {
      QuietedOtherwise(c, h, e);
    }
  }

  /** As much of it as one event may undo. */
  predicate QuietsOn(h: History, h': History) {
    && !h'.duty.Opening? && h'.duty != Timing(LogsFrom) && !Heartbeats.InDownload(h'.duty)
    && h'.loop.lastLog == h.loop.lastLog
  }

  lemma QuietedWhenSending(c: Config, h: History, e: Event)
    requires Quieted(h, h.loop.lastLog) && Allowed(c, h, e) && !IsLogs(e) && e.Sent?
    ensures QuietsOn(h, Next(c, h, e))
  {
    hide Next, Allowed, AfterSend, NextRef, Label, Orderly;
    SentMeans(c, h, e);
  }

  lemma QuietedWhenReading(c: Config, h: History, e: Event)
    requires Quieted(h, h.loop.lastLog) && Allowed(c, h, e) && e.Clock?
    ensures QuietsOn(h, Next(c, h, e))
  {
    hide Next, Allowed, Sane, JoinsExtensions, JoinsConsole;
    ReadMeans(c, h, e);
  }

  lemma QuietedWhenArriving(c: Config, h: History, e: Event)
    requires IsArrival(e) && Quieted(h, h.loop.lastLog)
    ensures QuietsOn(h, Next(c, h, e))
  {
    hide Calls, Heard, ReaderAfter, Sane, AsksHealth;
    if e.Received? {
      CallsArePlain(c, h.link, h.reader, e.message);
    }
  }

  lemma QuietedOtherwise(c: Config, h: History, e: Event)
    requires Quieted(h, h.loop.lastLog) && Allowed(c, h, e)
    requires !e.Sent? && !e.Clock? && !IsArrival(e) && !e.Began?
    ensures QuietsOn(h, Next(c, h, e))
  {
    hide Sane, MayReceive, LogsCount, Lingered, OnSent, OnClock, MaySend, MayRead;
  }

  /** What the loop counts its interval from: its first reading, or logs sent. */
  predicate LoopLogsFrom(run: seq<Event>, i: nat)
    requires i < |run|
  {
    (run[i].Clock? && run[i].why.LogsFrom?) || (IsLogs(run[i]) && run[i].ok && !Heartbeats.Installing(run[..i]))
  }

  function LoopLogTime(run: seq<Event>, i: nat): nat
    requires i < |run|
  {
    if run[i].Clock? then run[i].now else Reading(run[..i], Turn)
  }

  lemma StartsQuiet(c: Config, h: History, e: Event)
    requires Allowed(c, h, e) && Sane(Next(c, h, e))
    requires (e.Clock? && e.why.LogsFrom?) || (IsLogs(e) && e.ok && h.duty.Idle?)
    ensures Quieted(Next(c, h, e), if e.Clock? then e.now else h.turn)
  {
    hide AfterSend, Sane, NextRef, Label;
  }

  lemma {:induction false} StaysQuieted(c: Config, run: seq<Event>, i: nat)
    requires Lawful(c, run) && i < |run| && LoopLogsFrom(run, i)
    requires forall m :: i < m < |run| ==> !IsLogs(run[m]) && !run[m].Began?
    ensures Quieted(Fold(c, run), LoopLogTime(run, i))
    decreases |run|
  {
    hide Next, Allowed, Sane, Quieted, Heartbeats.Installing;
    var n := |run| - 1;
    var h := Fold(c, run[..n]);
    SaneAlways(c, run[..n]);
    if i == n {
      if IsLogs(run[n]) {
        NotInDownload(c, run[..n]);
        LoggingAlwaysFits(c, run[..n]);
        LoggingMeans(c, h, run[n]);
        TimesAreReadings(c, run[..n]);
      }
      SaneAlways(c, run);
      StartsQuiet(c, h, run[n]);
    } else {
      assert run[..n][i] == run[i] && run[..n][..i] == run[..i];
      StaysQuieted(c, run[..n], i);
      QuietedStep(c, h, run[n], LoopLogTime(run, i));
    }
  }

  lemma NotInDownload(c: Config, run: seq<Event>)
    requires Lawful(c, run) && !Heartbeats.Installing(run)
    ensures !Fold(c, run).duty.Downloading?
  {
    hide Next, Allowed, Fold, Lawful, Heartbeats.Installing;
    if Heartbeats.InDownload(Fold(c, run).duty) {
      Heartbeats.DownloadsAreSeen(c, run);
    }
  }

  /**
   Outside a download, logs are a quarter second at least from the logs before them -- in
   batches, a second -- or from the session's first reading for them.
   */
  lemma LogsArePaced(c: Config, run: seq<Event>, i: nat, j: nat)
    requires Lawful(c, run) && i < j < |run| && LoopLogsFrom(run, i) && IsLogs(run[j])
    requires !Heartbeats.Installing(run[..j])
    requires forall m :: i < m < j ==> !IsLogs(run[m]) && !run[m].Began?
    ensures Since(Reading(run[..j], Turn), LoopLogTime(run, i)) >= Interval(run[j].content.lines)
  {
    hide Next, Allowed, Sane, Lawful, Fold, Heartbeats.Installing;
    StepAt(c, run, j);
    var before := run[..j];
    var h := Fold(c, before);
    SaneAlways(c, before);
    NotInDownload(c, before);
    LoggingAlwaysFits(c, run[..j]);
    LoggingMeans(c, h, run[j]);
    TimesAreReadings(c, before);
    assert before[..i] == run[..i] && before[i] == run[i];
    StaysQuieted(c, before, i);
  }

  // ---------- In a download ----------

  /** The pump's last reading: its first, or a tick's. */
  function PumpReading(run: seq<Event>): nat {
    if run == [] then 0
    else if run[|run| - 1].Clock? && (run[|run| - 1].why.PumpFrom? || run[|run| - 1].why.Tick?) then run[|run| - 1].now
    else PumpReading(run[..|run| - 1])
  }

  /** Within a download, what one event does to its times. */
  lemma PumpTimes(c: Config, h: History, e: Event)
    requires Allowed(c, h, e) && Next(c, h, e).duty.Downloading?
    requires h.duty.Downloading? || (e.Clock? && e.why.PumpFrom?)
    ensures
      var duty := Next(c, h, e).duty;
      if e.Clock? && e.why.PumpFrom? then duty.tick == e.now && duty.log == e.now
      else
        && duty.tick == (if e.Clock? && e.why.Tick? then e.now else h.duty.tick)
        && duty.log == (if IsLogs(e) && e.ok then h.duty.tick else h.duty.log)
  {
    hide AfterSend, NextRef, Label, Calls, Heard, ReaderAfter, LimitReached, Lingered, StillWaiting, LogsCount;
  }

  lemma PumpOnlyFromItsStart(c: Config, h: History, e: Event)
    requires Sane(h) && Allowed(c, h, e) && Next(c, h, e).duty.Downloading? && !h.duty.Downloading?
    ensures e.Clock? && e.why.PumpFrom?
  {
    hide Sane, Allowed, Next;
    if e.Sent? || e.Clock? {
      PumpStartsSending(c, h, e);
    } else {
      Heartbeats.DownloadOtherwise(c, h, e);
      PumpStartsOtherwise(c, h, e);
    }
  }

  lemma PumpStartsSending(c: Config, h: History, e: Event)
    requires Sane(h) && Allowed(c, h, e) && (e.Sent? || e.Clock?)
    requires Next(c, h, e).duty.Downloading? && !h.duty.Downloading?
    ensures e.Clock? && e.why.PumpFrom?
  {
    hide Next, Allowed, AfterSend, NextRef, Label, Orderly;
    if e.Sent? {
      SentMeans(c, h, e);
    } else {
      ReadMeans(c, h, e);
    }
  }

  lemma PumpStartsOtherwise(c: Config, h: History, e: Event)
    requires Allowed(c, h, e) && !e.Sent? && !e.Clock?
    ensures h.duty.Begun? ==> !Next(c, h, e).duty.Downloading?
    ensures e == Began(true) ==> !Next(c, h, e).duty.Downloading?
  {}

  lemma {:induction false} TickIsRead(c: Config, run: seq<Event>)
    requires Lawful(c, run) && Fold(c, run).duty.Downloading?
    ensures Fold(c, run).duty.tick == PumpReading(run)
    decreases |run|
  {
    hide Next, Allowed, Sane;
    if run != [] {
      var n := |run| - 1;
      var h := Fold(c, run[..n]);
      SaneAlways(c, run[..n]);
      if h.duty.Downloading? {
        TickIsRead(c, run[..n]);
      } else {
        PumpOnlyFromItsStart(c, h, run[n]);
      }
      PumpTimes(c, h, run[n]);
    }
  }

  /** What a download counts its interval from: its beginning, or logs sent in it. */
  predicate PumpLogsFrom(run: seq<Event>, i: nat)
    requires i < |run|
  {
    (run[i].Clock? && run[i].why.PumpFrom?) || (IsLogs(run[i]) && run[i].ok && Heartbeats.Installing(run[..i]))
  }

  function PumpLogTime(run: seq<Event>, i: nat): nat
    requires i < |run|
  {
    if run[i].Clock? then run[i].now else PumpReading(run[..i])
  }

  lemma DownloadGoesOn(c: Config, h: History, e: Event)
    requires Allowed(c, h, e)
    ensures h.duty.Downloading? && !e.Installed? ==> Next(c, h, e).duty.Downloading?
    ensures e.Clock? && e.why.PumpFrom? ==> Next(c, h, e).duty.Downloading?
    ensures h.duty.Begun? ==> e.Clock? && e.why.PumpFrom?
  {
    hide AfterSend, NextRef, Label, Calls, Heard, ReaderAfter;
  }

  lemma BeganMeans(c: Config, h: History)
    ensures Next(c, h, Began(true)).duty.Begun?
  {}

  /** Between its beginning and its end, the duty is the download's. */
  lemma {:induction false} InstallingMeans(c: Config, run: seq<Event>)
    requires Lawful(c, run) && Heartbeats.Installing(run)
    ensures Heartbeats.InDownload(Fold(c, run).duty)
    decreases |run|
  {
    hide Next, Allowed;
    var n := |run| - 1;
    var h := Fold(c, run[..n]);
    if run[n] == Began(true) {
      BeganMeans(c, h);
    } else {
      InstallingMeans(c, run[..n]);
      DownloadGoesOn(c, h, run[n]);
    }
  }

  lemma {:induction false} LogTimeStays(c: Config, run: seq<Event>, i: nat)
    requires Lawful(c, run) && i < |run| && PumpLogsFrom(run, i)
    requires forall m :: i < m < |run| ==> !IsLogs(run[m]) && !run[m].Installed?
    ensures Fold(c, run).duty.Downloading? && Fold(c, run).duty.log == PumpLogTime(run, i)
    decreases |run|
  {
    hide Next, Allowed, Heartbeats.Installing;
    var n := |run| - 1;
    var h := Fold(c, run[..n]);
    if i == n {
      if IsLogs(run[n]) {
        InstallingMeans(c, run[..n]);
        DownloadGoesOn(c, h, run[n]);
        TickIsRead(c, run[..n]);
      }
    } else {
      assert run[..n][i] == run[i] && run[..n][..i] == run[..i];
      LogTimeStays(c, run[..n], i);
      NoSecondStart(c, h, run[n]);
    }
    DownloadGoesOn(c, h, run[n]);
    PumpTimes(c, h, run[n]);
  }

  lemma NoSecondStart(c: Config, h: History, e: Event)
    requires h.duty.Downloading? && Allowed(c, h, e)
    ensures !(e.Clock? && e.why.PumpFrom?)
  {}

  /** And in a download they are as far from the logs before them, or from the download's beginning. */
  lemma DownloadLogsArePaced(c: Config, run: seq<Event>, i: nat, j: nat)
    requires Lawful(c, run) && i < j < |run| && PumpLogsFrom(run, i) && IsLogs(run[j])
    requires forall m :: i < m < j ==> !IsLogs(run[m]) && !run[m].Installed?
    ensures Since(PumpReading(run[..j]), PumpLogTime(run, i)) >= Interval(run[j].content.lines)
  {
    hide Next, Allowed, Sane, Lawful, Fold, Heartbeats.Installing;
    StepAt(c, run, j);
    var before := run[..j];
    var h := Fold(c, before);
    SaneAlways(c, before);
    assert before[..i] == run[..i] && before[i] == run[i];
    LogTimeStays(c, before, i);
    TickIsRead(c, before);
    LoggingAlwaysFits(c, run[..j]);
    LoggingMeans(c, h, run[j]);
  }
}
