/** What is sent on which channel, and when it may be (src/agent.rs, src/link.rs, src/extensions.rs). */
module ChannelTheorems {
  import opened Common
  import opened Protocol
  import opened SessionTheorems
  import opened Endings
  import Heartbeats

  // ---------- The join ----------

  /** Before the join there are only the two things it is to say. */
  predicate Preamble(run: seq<Event>, pending: Option<bool>, reverted: Option<bool>) {
    match (pending, reverted)
    case (None, None) => run == []
    case (Some(p), None) => run == [Pending(p)]
    case (None, Some(r)) => run == [Reverted(r)]
    case (Some(p), Some(r)) => run == [Pending(p), Reverted(r)] || run == [Reverted(r), Pending(p)]
  }

  lemma OpeningStep(c: Config, h: History, e: Event)
    requires Sane(h) && Allowed(c, h, e) && Next(c, h, e).duty.Opening?
    ensures h.duty.Opening?
    ensures match e
            case Pending(p) => h.duty.pending == None && Next(c, h, e).duty == h.duty.(pending := Some(p))
            case Reverted(r) => h.duty.reverted == None && Next(c, h, e).duty == h.duty.(reverted := Some(r))
            case _ => false
  {
    hide Next, Allowed, Sane;
    if e.Sent? || e.Clock? {
      OpeningWhenSending(c, h, e);
    } else {
      OpeningOtherwise(c, h, e);
    }
  }

  lemma OpeningWhenSending(c: Config, h: History, e: Event)
    requires Sane(h) && Allowed(c, h, e) && (e.Sent? || e.Clock?)
    ensures !Next(c, h, e).duty.Opening?
  {
    hide Next, Allowed, AfterSend, NextRef, Label;
    if e.Sent? {
      SentMeans(c, h, e);
    } else {
      ReadMeans(c, h, e);
    }
  }

  lemma OpeningOtherwise(c: Config, h: History, e: Event)
    requires Sane(h) && Allowed(c, h, e) && !e.Sent? && !e.Clock? && Next(c, h, e).duty.Opening?
    ensures h.duty.Opening?
    ensures match e
            case Pending(p) => h.duty.pending == None && Next(c, h, e).duty == h.duty.(pending := Some(p))
            case Reverted(r) => h.duty.reverted == None && Next(c, h, e).duty == h.duty.(reverted := Some(r))
            case _ => false
  {
    hide Calls, Heard, ReaderAfter, Plain, LimitReached, Lingered, StillWaiting, LogsCount;
    hide OnSent, OnClock, MaySend, MayRead;
    if e.Received? {
      CallsArePlain(c, h.link, h.reader, e.message);
    }
  }

  lemma {:induction false} OpeningIsKnown(c: Config, run: seq<Event>)
    requires Lawful(c, run) && Fold(c, run).duty.Opening?
    ensures var duty := Fold(c, run).duty; Preamble(run, duty.pending, duty.reverted)
    decreases |run|
  {
    hide Next, Allowed, Sane;
    if run != [] {
      var n := |run| - 1;
      SaneAlways(c, run[..n]);
      OpeningStep(c, Fold(c, run[..n]), run[n]);
      OpeningIsKnown(c, run[..n]);
      assert run == run[..n] + [run[n]];
    }
  }

  lemma JoiningMeans(c: Config, h: History, e: Event)
    requires Sane(h) && Allowed(c, h, e) && IsJoin(e)
    ensures h.duty.Opening? && h.duty.pending.Some? && h.duty.reverted.Some?
    ensures e.content == Join(!h.duty.pending.value, h.duty.reverted.value, None)
  {
    hide NextRef, Label;
  }

  /**
   The join is the third thing to happen, and says what the bootloader said: whether the image
   is confirmed, and whether it was reverted to. It never names a download in progress.
   */
  lemma JoinSpeaksForTheBoot(c: Config, run: seq<Event>, i: nat)
    requires Lawful(c, run) && i < |run| && IsJoin(run[i])
    ensures i == 2
    ensures exists p, r :: (run[..2] == [Pending(p), Reverted(r)] || run[..2] == [Reverted(r), Pending(p)])
                           && run[i].content == Join(!p, r, None)
  {
    hide Next, Allowed, Sane, Lawful, Fold;
    StepAt(c, run, i);
    SaneAlways(c, run[..i]);
    var duty := Fold(c, run[..i]).duty;
    JoiningMeans(c, Fold(c, run[..i]), run[i]);
    OpeningIsKnown(c, run[..i]);
    assert Preamble(run[..i], Some(duty.pending.value), Some(duty.reverted.value));
  }

  // ---------- The extensions channel ----------

  predicate IsInvitation(e: Event) {
    e.Received? && e.message.topic.Device? && e.message.body.Invite?
  }

  ghost predicate WasInvited(run: seq<Event>) {
    exists k :: 0 <= k < |run| && IsInvitation(run[k])
  }

  /** Waited for: the last look at the clock for it was so long after the join was accepted. */
  predicate WasOverdue(run: seq<Event>) {
    Since(Reading(run, Invitation), Reading(run, JoinedAt)) >= 5000
  }

  predicate OverdueKnown(run: seq<Event>, h: History) {
    h.overdue ==> h.loop.joinedAt.Some? && WasOverdue(run)
  }

  lemma OverdueStep(c: Config, h: History, e: Event)
    requires Sane(h) && Allowed(c, h, e) && (h.overdue ==> h.loop.joinedAt.Some?) && Next(c, h, e).overdue
    ensures Next(c, h, e).loop.joinedAt.Some? && !(e.Clock? && e.why.JoinedAt?)
    ensures if e.Clock? && e.why.Invitation?
            then h.loop.joinedAt.Some? && Since(e.now, h.loop.joinedAt.value) >= 5000
            else h.overdue
  {
    hide Next, Allowed, Calls, Heard, ReaderAfter, AfterSend, MayReceive, MaySend, Plain;
    hide DutyAfterSaying, OwedAfter, JoinsExtensions, JoinsConsole;
    if e.Sent? {
      SentMeans(c, h, e);
    } else if e.Clock? {
      ReadMeans(c, h, e);
    } else if IsArrival(e) {
      ArrivedMeans(c, h, e);
    } else {
      OthersMean(c, h, e);
    }
  }

  lemma {:induction false} OverdueIsKnown(c: Config, run: seq<Event>)
    requires Lawful(c, run)
    ensures OverdueKnown(run, Fold(c, run))
    decreases |run|
  {
    hide Next, Allowed, Sane;
    if run != [] {
      var n := |run| - 1;
      OverdueIsKnown(c, run[..n]);
      SaneAlways(c, run[..n]);
      TimesAreReadings(c, run[..n]);
      if Fold(c, run).overdue {
        OverdueStep(c, Fold(c, run[..n]), run[n]);
      }
    }
  }

  lemma {:induction false} InvitationIsKnown(c: Config, run: seq<Event>)
    requires Fold(c, run).link.invited
    ensures WasInvited(run)
    decreases |run|
  {
    hide Next, NextRef;
    if run != [] {
      var n := |run| - 1;
      ChannelsStep(c, Fold(c, run[..n]), run[n]);
      if Fold(c, run[..n]).link.invited {
        InvitationIsKnown(c, run[..n]);
        var k :| 0 <= k < n && IsInvitation(run[..n][k]);
        assert IsInvitation(run[k]);
      } else {
        assert IsInvitation(run[n]);
      }
    }
  }

  lemma JoiningExtensionsMeans(c: Config, h: History, e: Event)
    requires Sane(h) && Allowed(c, h, e) && e.Sent? && e.content.ExtensionsJoin?
    ensures h.link.joined && h.loop.confirmed && c.extensions && (h.link.invited || h.overdue)
  {
    hide Next, Allowed, NextRef, Label;
    SentMeans(c, h, e);
  }

  /**
   The extensions channel is joined only once this session's join has been accepted and the
   platform told the image is good; and then on the platform's invitation, or five seconds
   after looking for one began.
   */
  lemma ExtensionsAreJoinedInTurn(c: Config, run: seq<Event>, i: nat)
    requires Lawful(c, run) && i < |run| && run[i].Sent? && run[i].content.ExtensionsJoin?
    ensures Accepted(run[..i]) && ToldValidated(run[..i])
    ensures WasInvited(run[..i]) || WasOverdue(run[..i])
  {
    hide Next, Allowed, Sane, Lawful, Fold, Accepted, ToldValidated, JoinedAs, WasInvited, WasOverdue;
    StepAt(c, run, i);
    var before := run[..i];
    var h := Fold(c, before);
    SaneAlways(c, before);
    JoiningExtensionsMeans(c, h, run[i]);
    JoinIsKnown(c, before);
    ConfirmedMeansTold(c, before);
    OverdueIsKnown(c, before);
    if h.link.invited {
      InvitationIsKnown(c, before);
    }
  }

  // ---------- What is attached ----------

  predicate IsExtensionsJoin(e: Event) { e.Sent? && e.content.ExtensionsJoin? }

  predicate Lists(e: Event, key: string) {
    && e.Received? && e.message.topic.Extensions? && e.message.body.Reply?
    && e.message.body.response.Some? && key in e.message.body.response.value.attached
  }

  /** The ref of the extensions join, if one has been sent. */
  ghost predicate ExtensionsRef(run: seq<Event>, ref: Option<string>) {
    if ref.None? then forall j :: 0 <= j < |run| ==> !IsExtensionsJoin(run[j])
    else exists j :: 0 <= j < |run| && IsExtensionsJoin(run[j]) && run[j].ref == ref.value
  }

  /**
   A reply that lists it, to this session's own join of the channel -- or, while there has been
   none, a reply to nothing.
   */
  ghost predicate Attaches(run: seq<Event>, k: nat, key: string) {
    k < |run| && Lists(run[k], key) && ExtensionsRef(run[..k], run[k].message.ref)
  }

  lemma {:induction false} ExtensionsRefIsKnown(c: Config, run: seq<Event>)
    requires Lawful(c, run)
    ensures ExtensionsRef(run, Fold(c, run).link.extensionsRef)
    decreases |run|
  {
    hide Next, Allowed, MaySend, NextRef, ExtensionsRef, Heard;
    if run == [] {
      NoExtensionsRef(c);
    } else {
      var n := |run| - 1;
      var h := Fold(c, run[..n]);
      ExtensionsRefIsKnown(c, run[..n]);
      ChannelsStep(c, h, run[n]);
      if run[n].Sent? {
        SentMeans(c, h, run[n]);
      } else if run[n].Received? {
        HeardKeepsRefs(h.link, run[n].message);
      }
      ExtensionsRefStep(run[..n], run[n], h.link.extensionsRef);
      assert run[..n] + [run[n]] == run;
    }
  }

  lemma NoExtensionsRef(c: Config)
    ensures ExtensionsRef([], Start(c).link.extensionsRef)
  {}

  lemma ExtensionsRefStep(run: seq<Event>, e: Event, ref: Option<string>)
    requires ExtensionsRef(run, ref)
    ensures ExtensionsRef(run + [e], if IsExtensionsJoin(e) then Some(e.ref) else ref)
  {
    var all := run + [e];
    if IsExtensionsJoin(e) {
      assert all[|run|] == e;
    } else if ref.Some? {
      var j :| 0 <= j < |run| && IsExtensionsJoin(run[j]) && run[j].ref == ref.value;
      assert all[j] == run[j];
    }
  }

  /** An extension is attached only by a reply that lists it, and that is the right one. */
  lemma {:induction false} AttachmentIsKnown(c: Config, run: seq<Event>, key: string)
    requires Lawful(c, run) && Attached(Fold(c, run).link, key)
    ensures exists k :: Attaches(run, k, key)
    decreases |run|
  {
    hide Next, NextRef, Allowed, ExtensionsRef;
    if run != [] {
      var n := |run| - 1;
      var h := Fold(c, run[..n]);
      ChannelsStep(c, h, run[n]);
      if Attached(h.link, key) {
        AttachmentIsKnown(c, run[..n], key);
        var k :| Attaches(run[..n], k, key);
        AttachesStill(run, n, k, key);
      } else {
        ExtensionsRefIsKnown(c, run[..n]);
        assert Attaches(run, n, key);
      }
    }
  }

  lemma AttachesStill(run: seq<Event>, n: nat, k: nat, key: string)
    requires n <= |run| && Attaches(run[..n], k, key)
    ensures Attaches(run, k, key)
  {
    assert run[..n][..k] == run[..k];
  }
}
