/**
  What a recovery job promises whoever reads its state: when it ends and as what, what its
  figures count, and how long it waits after a failure.  The conditions are said on the
  entries of the page, not on the functions that read it.
 */
module RecoveryLaws {
  import opened Wrappers
  import opened Recovery

  // ---------------------------------------------------------------- what one page does

  predicate Inside(job: Job, r: Raw) {
    r.Entry? && r.time.Some? && job.start <= r.time.value <= job.end
  }

  /** How many entries lie in the job's window and can, or cannot, be verified. */
  function Count(job: Job, rows: seq<Raw>, verifiable: bool): nat {
    if rows == [] then 0
    else
      var last := rows[|rows| - 1];
      Count(job, rows[..|rows| - 1], verifiable) + if Inside(job, last) && last.verifiable == verifiable then 1 else 0
  }

  lemma {:induction false} CapturesAreCounted(job: Job, rows: seq<Raw>)
    requires Timed(rows)
    ensures |Captures(job, rows)| == Count(job, rows, true)
  {
    if rows != [] {
      CapturesAreCounted(job, rows[..|rows| - 1]);
    }
  }

  lemma {:induction false} RejectionsAreCounted(job: Job, rows: seq<Raw>)
    requires Timed(rows)
    ensures Rejections(job, rows) == Count(job, rows, false)
  {
    if rows != [] {
      RejectionsAreCounted(job, rows[..|rows| - 1]);
    }
  }

  /** Nothing reaches the outbox that did not lie in the window and verify. */
  lemma {:induction false} OnlyTheWindowIsCaptured(job: Job, rows: seq<Raw>, item: Item)
    requires Timed(rows) && item in Captures(job, rows)
    ensures item.Captured? && job.start <= item.message.time <= job.end
    ensures Entry(item.message.id, Some(item.message.time), true) in rows
  {
    var n := |rows| - 1;
    var earlier := Captures(job, rows[..n]);
    if item in earlier {
      OnlyTheWindowIsCaptured(job, rows[..n], item);
      var i :| 0 <= i < n && rows[..n][i] == Entry(item.message.id, Some(item.message.time), true);
      assert rows[i] == rows[..n][i];
    } else {
      assert rows[n] == Entry(rows[n].id, Some(rows[n].time.value), true);
    }
  }

  /**
    What a taken page makes of a job.  It ends scanned exactly if it reaches the start of the
    window and the job has no reason against it and never met a message it could not verify;
    it goes on exactly while the start is ahead and pages are left.
   */
  lemma PageDecides(job: Job, rows: seq<Raw>, cursor: string, oldest: Time, maxPages: int)
    requires Timed(rows)
    ensures var after := Turned(job, rows, cursor, oldest, maxPages);
            var spotless := job.rejected == 0 && Count(job, rows, false) == 0;
            && (after.state.Scanned? <==> oldest <= job.start && job.reason.None? && spotless)
            && (after.state.Running? <==> job.start < oldest && job.pages + 1 < maxPages)
            && (after.state.Partial? <==> !after.state.Scanned? && !after.state.Running?)
            && (job.start < oldest && maxPages <= job.pages + 1 ==> after.reason == Some("page_limit"))
            && (oldest <= job.start && !spotless ==> after.reason == Some("unverifiable_messages"))
            && ((oldest <= job.start && spotless) || after.state.Running? ==> after.reason == job.reason)
  {
    RejectionsAreCounted(job, rows);
  }

  /** What a taken page adds to the figures of a job, and what it leaves alone. */
  lemma PageCounts(job: Job, rows: seq<Raw>, cursor: string, oldest: Time, maxPages: int)
    requires Timed(rows)
    ensures var after := Turned(job, rows, cursor, oldest, maxPages);
            && after.captured == job.captured + Count(job, rows, true)
            && after.rejected == job.rejected + Count(job, rows, false)
            && after.pages == job.pages + 1 && after.attempts == job.attempts
            && after.cursor == Some(cursor) && after.oldest == Some(oldest) && after.seen == job.seen + [cursor]
            && after.start == job.start && after.end == job.end && after.retryAt == job.retryAt
  {
    CapturesAreCounted(job, rows);
    RejectionsAreCounted(job, rows);
  }

  /** An entry the job could have verified, in the window, is in no count of rejections, and the other way round. */
  lemma {:induction false} CountIsZero(job: Job, rows: seq<Raw>, verifiable: bool)
    ensures Count(job, rows, verifiable) == 0
            <==> forall i :: 0 <= i < |rows| && Inside(job, rows[i]) ==> rows[i].verifiable != verifiable
  {
    if rows != [] {
      var n := |rows| - 1;
      CountIsZero(job, rows[..n], verifiable);
      assert forall i :: 0 <= i < n ==> rows[..n][i] == rows[i];
    }
  }

  /** Whether a page is taken, and if not, why not. */
  lemma PageIsJudged(job: Job, rows: seq<Raw>, pageSize: nat)
    ensures var j := Judge(job, Rows(rows), pageSize);
            var timed := forall i :: 0 <= i < |rows| ==>
                           rows[i].Entry? && rows[i].time.Some? && rows[i].time.value > 0.0;
            && (j == Refuse("invalid_history_page") <==> pageSize < |rows|)
            && (j == Stop("history_exhausted") <==> rows == [])
            && (j == Refuse("missing_page_time") <==> rows != [] && |rows| <= pageSize && !timed)
            && (j.Take? || j == Stop("pagination_stalled") || j == Stop("pagination_direction") <==>
                  rows != [] && |rows| <= pageSize && timed)
  {
  }

  lemma EligiblePageIsJudged(job: Job, rows: seq<Raw>, pageSize: nat)
    requires rows != [] && |rows| <= pageSize && Timed(rows)
    ensures var j, row := Judge(job, Rows(rows), pageSize), rows[OldestAt(rows)];
            && (j == Stop("pagination_stalled") <==> row.id in job.seen + ["", "0"])
            && (j == Stop("pagination_direction") <==>
                  row.id !in job.seen + ["", "0"] && job.oldest.Some? && job.oldest.value < row.time.value)
            && (j.Take? ==> j.cursor == row.id && j.oldest == row.time.value)
  {
  }

  // ---------------------------------------------------------------- reasons

  /** A job without a reason ends as scanned or gets one; a job created with one keeps it while it runs. */
  predicate ReasonKept(job: Job, reason: Option<string>) {
    && (Active(job) ==> job.reason == reason)
    && (job.state.Scanned? ==> job.reason.None? && reason.None? && job.rejected == 0)
    && (job.state.Partial? ==> job.reason.Some?)
  }

  lemma WorkKeepsReason(
    job: Job, reason: Option<string>, reply: Reply, pageSize: nat, maxPages: int, room: nat, now: Time)
    requires Active(job) && ReasonKept(job, reason)
    ensures ReasonKept(Worked(job, reply, pageSize, maxPages, room, now), reason)
  {
    if Fits(job, reply, pageSize, room) {
      var taken := Judge(job, reply, pageSize);
      PageDecides(job, reply.rows, taken.cursor, taken.oldest, maxPages);
    }
  }

  lemma TurnKeepsReason(job: Job, reason: Option<string>, r: Round, pageSize: nat, maxPages: int)
    requires ReasonKept(job, reason)
    ensures ReasonKept(TurnOf(job, r.reply, pageSize, maxPages, r.room, r.now, r.first, r.survives, r.last), reason)
  {
    var ready := Sent(job, r.first);
    if Active(ready) {
      WorkKeepsReason(ready, reason, r.reply, pageSize, maxPages, r.room, r.now);
    }
  }

  lemma {:induction false} RunKeepsReason(
    jobs: seq<Job>, rounds: seq<Round>, pageSize: nat, maxPages: int, reason: Option<string>, n: nat)
    requires Rounds(jobs, rounds, pageSize, maxPages) && n <= |rounds|
    requires ReasonKept(jobs[0], reason)
    ensures ReasonKept(jobs[n], reason)
  {
    if n > 0 {
      RunKeepsReason(jobs, rounds, pageSize, maxPages, reason, n - 1);
      assert RoundAt(jobs, rounds, n - 1, pageSize, maxPages);
      TurnKeepsReason(jobs[n - 1], reason, rounds[n - 1], pageSize, maxPages);
    }
  }

  /**
    Over every run of turns: a scanned job has no reason against it and rejected nothing, a
    partial one says why, and a job created with a reason, as every first connection makes,
    never ends scanned.
   */
  lemma ScannedHasNoReason(
    jobs: seq<Job>, rounds: seq<Round>, pageSize: nat, maxPages: int, start: Time, end: Time, reason: Option<string>,
    n: nat)
    requires Rounds(jobs, rounds, pageSize, maxPages) && n <= |rounds|
    requires jobs[0] == Created(start, end, reason)
    ensures jobs[n].state.Scanned? ==> jobs[n].reason.None? && jobs[n].rejected == 0
    ensures jobs[n].state.Partial? ==> jobs[n].reason.Some?
    ensures reason.Some? ==> !jobs[n].state.Scanned?
  {
    RunKeepsReason(jobs, rounds, pageSize, maxPages, reason, n);
  }

  // ---------------------------------------------------------------- failures and waiting

  /** The page could not be had, or the outbox had no room for what was on it. */
  predicate Fails(job: Job, r: Round, pageSize: nat) {
    match Judge(job, r.reply, pageSize)
    case Refuse(_) => true
    case Stop(_) => false
    case Take(_, _) => r.room < Count(job, r.reply.rows, true)
  }

  function After(job: Job, r: Round, pageSize: nat, maxPages: int): Job {
    TurnOf(job, r.reply, pageSize, maxPages, r.room, r.now, r.first, r.survives, r.last)
  }

  /** A new job is due at once, for the very window it was created for. */
  lemma NewJobIsDue(start: Time, end: Time, reason: Option<string>, r: Round)
    requires 0.0 <= r.now && r.survives
    ensures var job := Created(start, end, reason);
            && Effective(job, r) && job.start == start && job.end == end && job.reason == reason
            && job.captured == 0 && job.rejected == 0 && job.pages == 0 && job.attempts == 0
  {
  }

  /** The third failure ends a job; the first two only make it wait, and take nothing else from it. */
  lemma ThirdFailureEnds(job: Job, r: Round, pageSize: nat, maxPages: int)
    requires Effective(job, r) && Fails(job, r, pageSize) && job.attempts < 3
    ensures var after := After(job, r, pageSize, maxPages);
            && after.attempts == job.attempts + 1
            && after.retryAt == r.now + 60.0
            && (after.state.Partial? <==> job.attempts == 2)
            && (job.attempts < 2 ==> after.state == job.state && after.reason == job.reason)
            && after.cursor == job.cursor && after.pages == job.pages && after.captured == job.captured
            && after.rejected == job.rejected && after.seen == job.seen
  {
    var ready := Sent(job, r.first);
    assert Judge(ready, r.reply, pageSize) == Judge(job, r.reply, pageSize);
    if Judge(ready, r.reply, pageSize).Take? {
      CapturesAreCounted(ready, r.reply.rows);
      SameCount(ready, job, r.reply.rows, true);
    }
  }

  lemma {:induction false} SameCount(a: Job, b: Job, rows: seq<Raw>, verifiable: bool)
    requires a.start == b.start && a.end == b.end
    ensures Count(a, rows, verifiable) == Count(b, rows, verifiable)
  {
    if rows != [] {
      SameCount(a, b, rows[..|rows| - 1], verifiable);
    }
  }

  /** After a failure a job waits a minute and is then tried again. */
  lemma FailureWaitsAMinute(job: Job, r: Round, next: Round, pageSize: nat, maxPages: int)
    requires Effective(job, r) && Fails(job, r, pageSize) && job.attempts < 2
    requires next.survives && next.first.Accepted?
    ensures Effective(After(job, r, pageSize, maxPages), next) <==> r.now + 60.0 <= next.now
  {
    ThirdFailureEnds(job, r, pageSize, maxPages);
  }

  // ---------------------------------------------------------------- reports

  /** A report carries the figures the job had when it was checkpointed. */
  lemma ReportTellsTheJob(job: Job)
    ensures var p := Checkpointed(job).report.value;
            && p.revision == job.revision + 1 == Checkpointed(job).revision
            && p.state == job.state && p.pages == job.pages && p.captured == job.captured
            && p.rejected == job.rejected && p.attempts == job.attempts
            && p.reason == job.reason && p.cursor == job.cursor
    ensures Checkpointed(job).(revision := job.revision, report := job.report) == job
  {
  }

  // ---------------------------------------------------------------- cursors

  /** A walk never uses a cursor twice, has as many as pages, and stands at the last. */
  lemma CursorsAreUsedOnce(
    jobs: seq<Job>, rounds: seq<Round>, pageSize: nat, maxPages: int, start: Time, end: Time, reason: Option<string>,
    n: nat, i: nat, j: nat)
    requires Rounds(jobs, rounds, pageSize, maxPages) && n <= |rounds| && jobs[0] == Created(start, end, reason)
    requires i < j < |jobs[n].seen|
    ensures jobs[n].seen[i] != jobs[n].seen[j]
    ensures |jobs[n].seen| == jobs[n].pages && jobs[n].cursor == Some(jobs[n].seen[jobs[n].pages - 1])
    ensures maxPages >= 1 ==> jobs[n].pages <= maxPages
    ensures jobs[n].attempts <= 3
  {
    EveryJobStops(jobs, rounds, pageSize, maxPages, n);
  }
}
