/**
 * GoalNotificationService: the daily goal check of one user. Each goal with a
 * positive target whose progress sits in a milestone bucket gets a milestone
 * e-mail, at most `milestonesPerDay` a day and not twice within 30 days for
 * the same title; each goal left untouched for `inactivityDays` gets a nudge,
 * not twice within that period.
 *
 * The e-mail audit log is an input: the user's audit rows, each with its type,
 * subject and time in seconds. Every e-mail sent during the run is audited at
 * the run's time `now`. The model assumes that the audit query returns these
 * rows to later goals of the same run; the query itself (EmailAuditService)
 * is not part of this model.
 */
module GoalNotifications {
  import opened Wrappers
  import opened Numbers
  import opened Text
  import opened Goals

  const MilestoneType := "GOAL_MILESTONE"
  const NudgeType := "GOAL_NUDGE"
  const Day := 86400
  /** `app.mail.rate.goal-milestones-per-day` when it is not configured. */
  const DefaultMilestonesPerDay := 3
  /** `app.mail.goal.inactivity-days` when it is not configured. */
  const DefaultInactivityDays := 14

  /** An EmailAudit row of the user. */
  datatype Audit = Audit(kind: Option<string>, subject: Option<string>, at: int)

  /** An e-mail sent, with the type it is audited under. */
  datatype Email = Email(subject: string, kind: string)

  function AuditOf(e: Email, now: int): Audit {
    Audit(Some(e.kind), Some(e.subject), now)
  }

  /** `prefEnabled`: a missing preference counts as enabled. */
  function Enabled(prefs: map<string, bool>, kind: string): bool {
    if kind in prefs then prefs[kind] else true
  }

  /** Progress in whole percent, truncated toward zero (`divide(…, 0, DOWN)`). */
  function Pct(g: Goal): int
    requires HasTarget(g)
  {
    Trunc(g.current * 100.0 / g.target.value)
  }

  /** The milestone a percentage falls in: 25, 50 and 75 for the five points from there, and exactly 100. */
  function Bucket(pct: int): (b: Option<int>)
    ensures b.Some? ==> b.value in {25, 50, 75, 100} && b.value <= pct < b.value + 5
    ensures b.Some? && b.value == 100 ==> pct == 100
    ensures b.None? <==> !(25 <= pct <= 29 || 50 <= pct <= 54 || 75 <= pct <= 79 || pct == 100)
  {
    if 25 <= pct <= 29 then Some(25)
    else if 50 <= pct <= 54 then Some(50)
    else if 75 <= pct <= 79 then Some(75)
    else if pct == 100 then Some(100)
    else None
  }

  function MilestoneSubject(title: string, bucket: int): string {
    "Goal milestone: " + title + " reached " + IntToString(bucket) + "%"
  }

  function NudgeSubject(title: string): string {
    "Goal inactivity: " + title
  }

  /** The audit rows from `since` on (`recent(user, since)`). */
  predicate InWindow(a: Audit, since: int) {
    a.at >= since
  }

  /** Milestone e-mails audited in the last 24 hours. */
  function TodayCount(log: seq<Audit>, now: int): nat {
    if log == [] then 0
    else
      var a := log[|log| - 1];
      TodayCount(log[..|log| - 1], now) + (if InWindow(a, now - Day) && a.kind == Some(MilestoneType) then 1 else 0)
  }

  /** Whether an e-mail of this type about this title was audited since `since`. */
  predicate SentAbout(log: seq<Audit>, kind: string, title: string, since: int) {
    exists i :: 0 <= i < |log| && InWindow(log[i], since) && log[i].kind == Some(kind)
      && log[i].subject.Some? && Contains(log[i].subject.value, title)
  }

  /** `maybeMilestone` with the milestone preference enabled. */
  function Milestone(g: Goal, log: seq<Audit>, now: int, perDay: int): (e: Option<Email>)
    ensures e.Some? ==> HasTarget(g) && Bucket(Pct(g)).Some?
    ensures e.Some? ==> e.value == Email(MilestoneSubject(g.title, Bucket(Pct(g)).value), MilestoneType)
    ensures e.Some? ==> TodayCount(log, now) < perDay && !SentAbout(log, MilestoneType, g.title, now - 30 * Day)
    ensures e.None? && HasTarget(g) && Bucket(Pct(g)).Some? ==>
      TodayCount(log, now) >= perDay || SentAbout(log, MilestoneType, g.title, now - 30 * Day)
  {
    if !HasTarget(g) then None
    else
      var bucket := Bucket(Pct(g));
      if bucket.None? then None
      else if TodayCount(log, now) >= perDay then None
      else if SentAbout(log, MilestoneType, g.title, now - 30 * Day) then None
      else Some(Email(MilestoneSubject(g.title, bucket.value), MilestoneType))
  }

  /** The goal's last activity: its update time, else its creation time. */
  function LastActivity(g: Goal): Option<int> {
    if g.updatedAt.Some? then g.updatedAt else g.createdAt
  }

  /** `maybeInactivity` with the nudge preference enabled. */
  function Nudge(g: Goal, log: seq<Audit>, now: int, days: int): (e: Option<Email>)
    ensures e.Some? <==> LastActivity(g).Some? && LastActivity(g).value <= now - days * Day
                         && !SentAbout(log, NudgeType, g.title, now - days * Day)
    ensures e.Some? ==> e.value == Email(NudgeSubject(g.title), NudgeType)
  {
    var last := LastActivity(g);
    if last.None? then None
    else if last.value > now - days * Day then None
    else if SentAbout(log, NudgeType, g.title, now - days * Day) then None
    else Some(Email(NudgeSubject(g.title), NudgeType))
  }

  /** Milestone e-mails of one run over the goals, each audited before the next goal is looked at. */
  function MilestoneRun(gs: seq<Goal>, log: seq<Audit>, now: int, perDay: int): seq<Email> {
    if gs == [] then []
    else
      match Milestone(gs[0], log, now, perDay)
      case None => MilestoneRun(gs[1..], log, now, perDay)
      case Some(e) => [e] + MilestoneRun(gs[1..], log + [AuditOf(e, now)], now, perDay)
  }

  function NudgeRun(gs: seq<Goal>, log: seq<Audit>, now: int, days: int): seq<Email> {
    if gs == [] then []
    else
      match Nudge(gs[0], log, now, days)
      case None => NudgeRun(gs[1..], log, now, days)
      case Some(e) => [e] + NudgeRun(gs[1..], log + [AuditOf(e, now)], now, days)
  }

  function AuditsOf(es: seq<Email>, now: int): (r: seq<Audit>)
    ensures |r| == |es|
  {
    if es == [] then [] else [AuditOf(es[0], now)] + AuditsOf(es[1..], now)
  }

  /** `processUser`: milestones first, then nudges, each pass only when its preference is enabled. */
  function Process(prefs: map<string, bool>, gs: seq<Goal>, log: seq<Audit>, now: int, perDay: int, days: int): seq<Email> {
    if !Enabled(prefs, MilestoneType) && !Enabled(prefs, NudgeType) then []
    else
      var ms := if Enabled(prefs, MilestoneType) then MilestoneRun(gs, log, now, perDay) else [];
      ms + (if Enabled(prefs, NudgeType) then NudgeRun(gs, log + AuditsOf(ms, now), now, days) else [])
  }

  // ------------------------------------------------------------ properties

  /** A goal without a positive target never gets a milestone. */
  lemma NoTargetNoMilestone(g: Goal, log: seq<Audit>, now: int, perDay: int)
    requires !HasTarget(g)
    ensures Milestone(g, log, now, perDay).None?
  {
  }

  /** A goal exactly at a positive target is in the 100% bucket. */
  lemma AtTargetIsHundred(g: Goal)
    requires HasTarget(g) && g.current == g.target.value
    ensures Bucket(Pct(g)) == Some(100)
  {
    assert g.current * 100.0 / g.target.value == 100.0;
  }

  /** Every milestone subject names its goal's title. */
  lemma SubjectNamesTitle(title: string, bucket: int)
    ensures Contains(MilestoneSubject(title, bucket), title)
  {
    var s := MilestoneSubject(title, bucket);
    assert s[16..16 + |title|] == title;
    assert OccursAt(s, title, 16);
  }

  lemma TodayCountAppend(log: seq<Audit>, a: Audit, now: int)
    ensures TodayCount(log + [a], now) ==
      TodayCount(log, now) + (if InWindow(a, now - Day) && a.kind == Some(MilestoneType) then 1 else 0)
  {
    assert (log + [a])[..|log|] == log;
  }

  /**
   * A run never sends more milestones than the day still allows: at most
   * `perDay` minus those already audited in the last 24 hours.
   */
  lemma {:induction false} RunRespectsDailyLimit(gs: seq<Goal>, log: seq<Audit>, now: int, perDay: int)
    ensures |MilestoneRun(gs, log, now, perDay)| <= Max(0, perDay - TodayCount(log, now))
  {
    if gs != [] {
      match Milestone(gs[0], log, now, perDay)
      case None =>
        RunRespectsDailyLimit(gs[1..], log, now, perDay);
      case Some(e) =>
        TodayCountAppend(log, AuditOf(e, now), now);
        RunRespectsDailyLimit(gs[1..], log + [AuditOf(e, now)], now, perDay);
    }
  }

  /**
   * Once a milestone e-mail about a goal is audited, no goal with that title
   * gets another one for 30 days.
   */
  lemma SentSuppresses(g: Goal, h: Goal, log: seq<Audit>, now: int, later: int, perDay: int)
    requires Milestone(g, log, now, perDay).Some?
    requires h.title == g.title
    requires now <= later <= now + 30 * Day
    ensures Milestone(h, log + [AuditOf(Milestone(g, log, now, perDay).value, now)], later, perDay).None?
  {
    var e := Milestone(g, log, now, perDay).value;
    var log' := log + [AuditOf(e, now)];
    SubjectNamesTitle(g.title, Bucket(Pct(g)).value);
    assert log'[|log|] == AuditOf(e, now);
    assert SentAbout(log', MilestoneType, h.title, later - 30 * Day);
  }

  /** Within one run, two goals with the same title never both get a milestone. */
  lemma {:induction false} NoTitleTwiceInRun(gs: seq<Goal>, log: seq<Audit>, now: int, perDay: int, i: nat, j: nat)
    requires i < j < |gs| && gs[i].title == gs[j].title
    ensures |MilestoneRun(gs, log, now, perDay)| <= |gs| - 1
  {
    RunAtMostGoals(gs, log, now, perDay);
    RunSkipsSecond(gs, log, now, perDay, i, j);
  }

  lemma {:induction false} RunAtMostGoals(gs: seq<Goal>, log: seq<Audit>, now: int, perDay: int)
    ensures |MilestoneRun(gs, log, now, perDay)| <= |gs|
  {
    if gs != [] {
      match Milestone(gs[0], log, now, perDay)
      case None => RunAtMostGoals(gs[1..], log, now, perDay);
      case Some(e) => RunAtMostGoals(gs[1..], log + [AuditOf(e, now)], now, perDay);
    }
  }

  /** A milestone mail just logged counts as sent about its goal's title. */
  lemma JustSent(g: Goal, log: seq<Audit>, now: int, perDay: int, e: Email)
    requires Milestone(g, log, now, perDay) == Some(e)
    ensures SentAbout(log + [AuditOf(e, now)], MilestoneType, g.title, now - 30 * Day)
  {
    var log' := log + [AuditOf(e, now)];
    SubjectNamesTitle(g.title, Bucket(Pct(g)).value);
    assert log'[|log|] == AuditOf(e, now);
  }

  /** Audits only grow during a run, so a title already mailed stays suppressed. */
  lemma {:induction false} RunSkipsSecond(gs: seq<Goal>, log: seq<Audit>, now: int, perDay: int, i: nat, j: nat)
    requires i < j < |gs| && gs[i].title == gs[j].title
    ensures |MilestoneRun(gs, log, now, perDay)| <= |gs| - 1
  {
    if i == 0 {
      FirstRepeated(gs, log, now, perDay, j);
    } else {
      var rest := gs[1..];
      assert rest[i - 1] == gs[i] && rest[j - 1] == gs[j];
      match Milestone(gs[0], log, now, perDay)
      case None =>
        RunAtMostGoals(rest, log, now, perDay);
      case Some(e) =>
        RunSkipsSecond(rest, log + [AuditOf(e, now)], now, perDay, i - 1, j - 1);
    }
  }

  /** A later goal with the first goal's title is never mailed about in the same run. */
  lemma FirstRepeated(gs: seq<Goal>, log: seq<Audit>, now: int, perDay: int, j: nat)
    requires 0 < j < |gs| && gs[0].title == gs[j].title
    ensures |MilestoneRun(gs, log, now, perDay)| <= |gs| - 1
  {
    var rest := gs[1..];
    assert rest[j - 1] == gs[j];
    match Milestone(gs[0], log, now, perDay)
    case None =>
      RunAtMostGoals(rest, log, now, perDay);
    case Some(e) =>
      JustSent(gs[0], log, now, perDay, e);
      SkipsGoal(rest, log + [AuditOf(e, now)], now, perDay, j - 1, gs[0].title);
  }

  /** A goal whose title is already mailed today is skipped, and later mails keep it suppressed. */
  lemma {:induction false} SkipsGoal(gs: seq<Goal>, log: seq<Audit>, now: int, perDay: int, j: nat, title: string)
    requires j < |gs| && gs[j].title == title
    requires SentAbout(log, MilestoneType, title, now - 30 * Day)
    ensures |MilestoneRun(gs, log, now, perDay)| <= |gs| - 1
  {
    var rest := gs[1..];
    if j == 0 {
      assert Milestone(gs[0], log, now, perDay).None?;
      RunAtMostGoals(rest, log, now, perDay);
    } else {
      match Milestone(gs[0], log, now, perDay)
      case None =>
        SkipsGoal(rest, log, now, perDay, j - 1, title);
      case Some(e) =>
        var log' := log + [AuditOf(e, now)];
        SentAboutGrows(log, AuditOf(e, now), MilestoneType, title, now - 30 * Day);
        SkipsGoal(rest, log', now, perDay, j - 1, title);
    }
  }

  /** A mail already in the audit log stays there when more is logged. */
  lemma SentAboutGrows(log: seq<Audit>, a: Audit, kind: string, title: string, since: int)
    requires SentAbout(log, kind, title, since)
    ensures SentAbout(log + [a], kind, title, since)
  {
    var k :| 0 <= k < |log| && InWindow(log[k], since) && log[k].kind == Some(kind)
      && log[k].subject.Some? && Contains(log[k].subject.value, title);
    assert (log + [a])[k] == log[k];
  }

  /** With both goal e-mail preferences switched off, nothing is sent. */
  lemma BothDisabledSendsNothing(prefs: map<string, bool>, gs: seq<Goal>, log: seq<Audit>, now: int, perDay: int, days: int)
    requires MilestoneType in prefs && !prefs[MilestoneType]
    requires NudgeType in prefs && !prefs[NudgeType]
    ensures Process(prefs, gs, log, now, perDay, days) == []
  {
  }

  /** A goal touched within the inactivity period is never nudged. */
  lemma RecentGoalNotNudged(g: Goal, log: seq<Audit>, now: int, days: int)
    requires LastActivity(g).Some? && LastActivity(g).value > now - days * Day
    ensures Nudge(g, log, now, days).None?
  {
  }

  // ------------------------------------------------------------------ run

  /** One goal of a milestone pass: what it adds to the e-mails sent and to the log. */
  lemma RunStep(gs: seq<Goal>, i: nat, sent: seq<Email>, log: seq<Audit>, now: int, perDay: int)
    requires i < |gs|
    ensures var e := Milestone(gs[i], log, now, perDay);
      var sent' := if e.Some? then sent + [e.value] else sent;
      var log' := if e.Some? then log + [AuditOf(e.value, now)] else log;
      sent + MilestoneRun(gs[i..], log, now, perDay) == sent' + MilestoneRun(gs[i + 1..], log', now, perDay)
  {
    assert gs[i..][0] == gs[i];
    assert gs[i..][1..] == gs[i + 1..];
    var e := Milestone(gs[i], log, now, perDay);
    if e.Some? {
      var rest := MilestoneRun(gs[i + 1..], log + [AuditOf(e.value, now)], now, perDay);
      assert sent + ([e.value] + rest) == (sent + [e.value]) + rest;
    }
  }

  /** One goal of a nudge pass. */
  lemma NudgeStep(gs: seq<Goal>, i: nat, sent: seq<Email>, log: seq<Audit>, now: int, days: int)
    requires i < |gs|
    ensures var e := Nudge(gs[i], log, now, days);
      var sent' := if e.Some? then sent + [e.value] else sent;
      var log' := if e.Some? then log + [AuditOf(e.value, now)] else log;
      sent + NudgeRun(gs[i..], log, now, days) == sent' + NudgeRun(gs[i + 1..], log', now, days)
  {
    assert gs[i..][0] == gs[i];
    assert gs[i..][1..] == gs[i + 1..];
    var e := Nudge(gs[i], log, now, days);
    if e.Some? {
      var rest := NudgeRun(gs[i + 1..], log + [AuditOf(e.value, now)], now, days);
      assert sent + ([e.value] + rest) == (sent + [e.value]) + rest;
    }
  }

  lemma AuditsOfAppend(a: seq<Email>, b: seq<Email>, now: int)
    ensures AuditsOf(a + b, now) == AuditsOf(a, now) + AuditsOf(b, now)
  {
    if a == [] {
      assert a + b == b;
    } else {
      assert (a + b)[0] == a[0];
      assert (a + b)[1..] == a[1..] + b;
      AuditsOfAppend(a[1..], b, now);
    }
  }

  /** `processUser`: goes over the goals for milestones, then again for nudges, auditing every e-mail it sends. */
  method ProcessUser(prefs: map<string, bool>, gs: seq<Goal>, audits: seq<Audit>, now: int, perDay: int, days: int)
    returns (sent: seq<Email>, log: seq<Audit>)
    ensures sent == Process(prefs, gs, audits, now, perDay, days)
    ensures log == audits + AuditsOf(sent, now)
  {
    sent, log := [], audits;
    var milestones := Enabled(prefs, MilestoneType);
    var nudges := Enabled(prefs, NudgeType);
    if !milestones && !nudges {
      return;
    }
    if milestones {
      sent, log := MilestonePass(gs, audits, now, perDay);
    } else {
      assert log == audits + AuditsOf([], now);
    }
    if nudges {
      var nudged, log' := NudgePass(gs, log, now, days);
      AuditsOfAppend(sent, nudged, now);
      sent, log := sent + nudged, log';
    } else {
      assert sent + [] == sent;
    }
  }

  /** `goals.forEach(g -> maybeMilestone(u, g))`. */
  method MilestonePass(gs: seq<Goal>, audits: seq<Audit>, now: int, perDay: int) returns (sent: seq<Email>, log: seq<Audit>)
    ensures sent == MilestoneRun(gs, audits, now, perDay)
    ensures log == audits + AuditsOf(sent, now)
  {
    sent, log := [], audits;
    var i := 0;
    while i < |gs|
      invariant 0 <= i <= |gs|
      invariant log == audits + AuditsOf(sent, now)
      invariant sent + MilestoneRun(gs[i..], log, now, perDay) == MilestoneRun(gs, audits, now, perDay)
    {
      RunStep(gs, i, sent, log, now, perDay);
      var e := Milestone(gs[i], log, now, perDay);
      if e.Some? {
        AuditsOfAppend(sent, [e.value], now);
        sent := sent + [e.value];
        log := log + [AuditOf(e.value, now)];
      }
      i := i + 1;
    }
    assert sent + [] == sent;
  }

  /** `goals.forEach(g -> maybeInactivity(u, g))`. */
  method NudgePass(gs: seq<Goal>, audits: seq<Audit>, now: int, days: int) returns (sent: seq<Email>, log: seq<Audit>)
    ensures sent == NudgeRun(gs, audits, now, days)
    ensures log == audits + AuditsOf(sent, now)
  {
    sent, log := [], audits;
    var i := 0;
    while i < |gs|
      invariant 0 <= i <= |gs|
      invariant log == audits + AuditsOf(sent, now)
      invariant sent + NudgeRun(gs[i..], log, now, days) == NudgeRun(gs, audits, now, days)
    {
      NudgeStep(gs, i, sent, log, now, days);
      var e := Nudge(gs[i], log, now, days);
      if e.Some? {
        AuditsOfAppend(sent, [e.value], now);
        sent := sent + [e.value];
        log := log + [AuditOf(e.value, now)];
      }
      i := i + 1;
    }
    assert sent + [] == sent;
  }
}
