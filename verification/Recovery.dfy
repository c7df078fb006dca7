/**
  Bounded history recovery: a stored job walks a peer's message history backwards, page by
  page, and hands what it finds in its window to the outbox.  One job is modelled together
  with its stored row, the dictionary in memory and what reached the outbox, so that a
  process that dies anywhere continues from the stored row.
 */
module Recovery {
  import opened Wrappers

  type Time = real

  // ---------------------------------------------------------------- what the platform sends

  datatype Message = Message(id: string, time: Time)

  /** One entry of a page; `verifiable` is whether `history_message` accepts it. */
  datatype Raw = NotADict | Entry(id: string, time: Option<Time>, verifiable: bool)

  datatype Reply = Raises(error: string) | NotAPage | Rows(rows: seq<Raw>)

  // ---------------------------------------------------------------- the job

  datatype JobState = Pending | Running | Scanned | Partial

  datatype Progress = Progress(
    revision: nat, state: JobState, pages: nat, captured: nat, rejected: nat, attempts: nat,
    reason: Option<string>, cursor: Option<string>)

  datatype Job = Job(
    start: Time, end: Time, state: JobState, pages: nat, captured: nat, rejected: nat, attempts: nat,
    cursor: Option<string>, oldest: Option<Time>, seen: seq<string>, reason: Option<string>,
    revision: nat, report: Option<Progress>, retryAt: Time)

  datatype Item = Captured(message: Message) | Reported(progress: Progress)

  predicate Active(job: Job) {
    job.state.Pending? || job.state.Running?
  }

  function Created(start: Time, end: Time, reason: Option<string>): Job {
    Job(start, end, Pending, 0, 0, 0, 0, None, None, [], reason, 0, None, 0.0)
  }

  function ProgressOf(job: Job): Progress {
    Progress(job.revision, job.state, job.pages, job.captured, job.rejected, job.attempts, job.reason, job.cursor)
  }

  // ---------------------------------------------------------------- reading a page

  predicate Timed(rows: seq<Raw>) {
    forall i :: 0 <= i < |rows| ==> rows[i].Entry? && rows[i].time.Some? && rows[i].time.value > 0.0
  }

  /** Index of the first of the oldest entries. */
  function OldestAt(rows: seq<Raw>): (k: nat)
    requires rows != [] && Timed(rows)
    ensures k < |rows|
    ensures forall i :: 0 <= i < |rows| ==> rows[k].time.value <= rows[i].time.value
    ensures forall i :: 0 <= i < k ==> rows[k].time.value < rows[i].time.value
  {
    OldestOfFirst(rows, |rows|)
  }

  function OldestOfFirst(rows: seq<Raw>, n: nat): (k: nat)
    requires 1 <= n <= |rows| && Timed(rows)
    ensures k < n
    ensures forall i :: 0 <= i < n ==> rows[k].time.value <= rows[i].time.value
    ensures forall i :: 0 <= i < k ==> rows[k].time.value < rows[i].time.value
  {
    if n == 1 then 0
    else
      var earlier := OldestOfFirst(rows, n - 1);
      if rows[n - 1].time.value < rows[earlier].time.value then n - 1 else earlier
  }

  datatype Judgement = Refuse(error: string) | Stop(why: string) | Take(cursor: string, oldest: Time)

  /** What the page says before anything of it is captured. */
  function Judge(job: Job, reply: Reply, pageSize: nat): (j: Judgement)
    ensures j.Take? ==> reply.Rows? && Timed(reply.rows)
  {
    match reply
    case Raises(error) => Refuse(error)
    case NotAPage => Refuse("invalid_history_page")
    case Rows(rows) =>
      if |rows| > pageSize then Refuse("invalid_history_page")
      else if rows == [] then Stop("history_exhausted")
      else if !Timed(rows) then Refuse("missing_page_time")
      else
        var row := rows[OldestAt(rows)];
        if row.id == "" || row.id == "0" || row.id in job.seen then Stop("pagination_stalled")
        else if job.oldest.Some? && row.time.value > job.oldest.value then Stop("pagination_direction")
        else Take(row.id, row.time.value)
  }

  ghost predicate OldestOf(rows: seq<Raw>, cursor: string, oldest: Time)
    requires Timed(rows)
  {
    && (exists i :: 0 <= i < |rows| && rows[i].id == cursor && rows[i].time == Some(oldest))
    && (forall i :: 0 <= i < |rows| ==> oldest <= rows[i].time.value)
  }

  /** A page is taken only if its oldest entry is a new cursor and no younger than the last. */
  lemma TakenPage(job: Job, reply: Reply, pageSize: nat, cursor: string, oldest: Time)
    requires Judge(job, reply, pageSize) == Take(cursor, oldest)
    ensures OldestOf(reply.rows, cursor, oldest)
    ensures cursor !in job.seen && (job.oldest.Some? ==> oldest <= job.oldest.value)
  {
    var k := OldestAt(reply.rows);
    assert reply.rows[k].id == cursor;
  }

  predicate InWindow(job: Job, time: Time) {
    job.start <= time <= job.end
  }

  /** What a page adds to the outbox, in the order it was listed. */
  function Captures(job: Job, rows: seq<Raw>): (items: seq<Item>)
    requires Timed(rows)
  {
    if rows == [] then []
    else
      var last := rows[|rows| - 1];
      var earlier := Captures(job, rows[..|rows| - 1]);
      if InWindow(job, last.time.value) && last.verifiable
      then earlier + [Captured(Message(last.id, last.time.value))]
      else earlier
  }

  lemma {:induction false} CapturesAreMessages(job: Job, rows: seq<Raw>)
    requires Timed(rows)
    ensures forall item :: item in Captures(job, rows) ==> item.Captured?
  {
    if rows != [] {
      CapturesAreMessages(job, rows[..|rows| - 1]);
    }
  }

  lemma {:induction false} CaptureOf(job: Job, rows: seq<Raw>, i: nat)
    requires Timed(rows) && i < |rows| && InWindow(job, rows[i].time.value) && rows[i].verifiable
    ensures Captured(Message(rows[i].id, rows[i].time.value)) in Captures(job, rows)
  {
    if i < |rows| - 1 {
      CaptureOf(job, rows[..|rows| - 1], i);
    }
  }

  function Rejections(job: Job, rows: seq<Raw>): (n: nat)
    requires Timed(rows)
    ensures n == 0 <==> forall i :: 0 <= i < |rows| && InWindow(job, rows[i].time.value) ==> rows[i].verifiable
  {
    if rows == [] then 0
    else
      var last := rows[|rows| - 1];
      assert forall i :: 0 <= i < |rows| - 1 ==> rows[..|rows| - 1][i] == rows[i];
      Rejections(job, rows[..|rows| - 1]) + if InWindow(job, last.time.value) && !last.verifiable then 1 else 0
  }

  function Wanted(job: Job, rows: seq<Raw>): nat
    requires Timed(rows)
  {
    if rows == [] then 0
    else Wanted(job, rows[..|rows| - 1]) + if InWindow(job, rows[|rows| - 1].time.value) then 1 else 0
  }

  /** Every message of a page inside the window is counted once: captured or rejected. */
  lemma {:induction false} EveryMessageIsCounted(job: Job, rows: seq<Raw>)
    requires Timed(rows)
    ensures |Captures(job, rows)| + Rejections(job, rows) == Wanted(job, rows)
  {
    if rows != [] {
      EveryMessageIsCounted(job, rows[..|rows| - 1]);
    }
  }

  /** The job after a page has been captured in full. */
  function Turned(job: Job, rows: seq<Raw>, cursor: string, oldest: Time, maxPages: int): Job
    requires Timed(rows)
  {
    var rejected := job.rejected + Rejections(job, rows);
    var pages := job.pages + 1;
    var next := job.(captured := job.captured + |Captures(job, rows)|, rejected := rejected, pages := pages,
                     cursor := Some(cursor), oldest := Some(oldest), seen := job.seen + [cursor]);
    if oldest <= job.start then
      next.(state := if job.reason.Some? || rejected > 0 then Partial else Scanned,
            reason := if rejected > 0 then Some("unverifiable_messages") else job.reason)
    else if pages >= maxPages then next.(state := Partial, reason := Some("page_limit"))
    else next.(state := Running)
  }

  /** The job after one turn of the worker that got as far as its checkpoint. */
  function Worked(job: Job, reply: Reply, pageSize: nat, maxPages: int, room: nat, now: Time): Job {
    match Judge(job, reply, pageSize)
    case Refuse(error) => Failed(job, error, now)
    case Stop(why) => job.(state := Partial, reason := Some(why))
    case Take(cursor, oldest) =>
      if room < |Captures(job, reply.rows)| then Failed(job, "spool_unavailable", now)
      else Turned(job, reply.rows, cursor, oldest, maxPages)
  }

  function Failed(job: Job, error: string, now: Time): Job {
    var next := job.(attempts := job.attempts + 1, retryAt := now + 60.0);
    if next.attempts >= 3 then next.(state := Partial, reason := Some("api_or_capture_" + error)) else next
  }

  function Checkpointed(job: Job): Job {
    var next := job.(revision := job.revision + 1);
    next.(report := Some(ProgressOf(next)))
  }

  // ---------------------------------------------------------------- the measure

  function Cap(maxPages: int): nat {
    if maxPages < 1 then 1 else maxPages
  }

  predicate Unrepeated(seen: seq<string>) {
    forall i, j :: 0 <= i < j < |seen| ==> seen[i] != seen[j]
  }

  /** The walk never repeats a cursor, and what it has left to do is bounded. */
  predicate Measured(job: Job, maxPages: int) {
    && Unrepeated(job.seen) && |job.seen| == job.pages
    && job.cursor == (if job.seen == [] then None else Some(job.seen[|job.seen| - 1]))
    && (job.oldest.Some? <==> job.pages > 0)
    && job.pages <= Cap(maxPages) && job.attempts <= 3
    && job.revision <= Cap(maxPages) + 2
    && (Active(job) ==>
          && job.pages < Cap(maxPages) && job.attempts < 3
          && job.revision == job.pages + job.attempts)
    && (job.state.Scanned? ==> job.pages > 0 && job.oldest.value <= job.start && job.rejected == 0)
  }

  predicate Advances(before: Job, after: Job) {
    && after.start == before.start && after.end == before.end
    && before.seen <= after.seen
    && before.revision <= after.revision
    && (before.oldest.Some? ==> after.oldest.Some? && after.oldest.value <= before.oldest.value)
    && (!Active(before) ==> after == before.(report := after.report))
  }

  lemma FailureKeepsMeasure(job: Job, error: string, maxPages: int, now: Time)
    requires Measured(job, maxPages) && Active(job)
    ensures var after := Checkpointed(Failed(job, error, now)); Measured(after, maxPages) && Advances(job, after)
  {
  }

  lemma StopKeepsMeasure(job: Job, why: string, maxPages: int)
    requires Measured(job, maxPages) && Active(job)
    ensures var after := Checkpointed(job.(state := Partial, reason := Some(why)));
            Measured(after, maxPages) && Advances(job, after)
  {
  }

  lemma PageKeepsMeasure(job: Job, rows: seq<Raw>, cursor: string, oldest: Time, maxPages: int)
    requires Measured(job, maxPages) && Active(job)
    requires Timed(rows) && cursor !in job.seen && (job.oldest.Some? ==> oldest <= job.oldest.value)
    ensures var after := Checkpointed(Turned(job, rows, cursor, oldest, maxPages));
            Measured(after, maxPages) && Advances(job, after)
  {
    assert Unrepeated(job.seen + [cursor]);
  }

  lemma WorkKeepsMeasure(job: Job, reply: Reply, pageSize: nat, maxPages: int, room: nat, now: Time)
    requires Measured(job, maxPages) && Active(job)
    ensures var after := Checkpointed(Worked(job, reply, pageSize, maxPages, room, now));
            Measured(after, maxPages) && Advances(job, after)
  {
    match Judge(job, reply, pageSize)
    case Refuse(error) => FailureKeepsMeasure(job, error, maxPages, now);
    case Stop(why) => StopKeepsMeasure(job, why, maxPages);
    case Take(cursor, oldest) =>
      if room < |Captures(job, reply.rows)| {
        FailureKeepsMeasure(job, "spool_unavailable", maxPages, now);
      } else {
        TakenPage(job, reply, pageSize, cursor, oldest);
        PageKeepsMeasure(job, reply.rows, cursor, oldest, maxPages);
      }
  }

  // ---------------------------------------------------------------- coverage

  /** A peer's history, oldest first. */
  ghost predicate Chronological(history: seq<Message>) {
    && (forall i, j :: 0 <= i < j < |history| ==> history[i].time <= history[j].time)
    && (forall i, j :: 0 <= i < j < |history| ==> history[i].id != history[j].id)
  }

  predicate Shown(message: Message, rows: seq<Raw>) {
    exists r :: r in rows && r.Entry? && r.id == message.id && r.time == Some(message.time)
  }

  /** The entry stands for a message of history[lo..hi]. */
  predicate Placed(history: seq<Message>, lo: int, hi: int, r: Raw)
    requires 0 <= lo <= hi <= |history| && r.Entry? && r.time.Some?
  {
    exists k :: lo <= k < hi && history[k] == Message(r.id, r.time.value)
  }

  /** The page lists history[lo..hi], in any order. */
  ghost predicate Lists(history: seq<Message>, lo: int, hi: int, rows: seq<Raw>) {
    && 0 <= lo <= hi <= |history|
    && (forall k {:trigger Shown(history[k], rows)} :: lo <= k < hi ==> Shown(history[k], rows))
    && (forall r {:trigger Placed(history, lo, hi, r)} ::
          r in rows && r.Entry? && r.time.Some? ==> Placed(history, lo, hi, r))
  }

  function Back(hi: int, pageSize: nat): int {
    if hi < pageSize then 0 else hi - pageSize
  }

  /** The platform's side: a page is the newest `pageSize` messages at or before the cursor. */
  ghost predicate HonestPage(history: seq<Message>, cursor: Option<string>, pageSize: nat, reply: Reply) {
    reply.Rows? ==>
      match cursor
      case None => Lists(history, Back(|history|, pageSize), |history|, reply.rows)
      case Some(id) =>
        forall c :: 0 <= c < |history| && history[c].id == id ==>
          Lists(history, Back(c + 1, pageSize), c + 1, reply.rows)
  }

  /** The part of the history a job has been through. */
  datatype Window = Window(lo: nat, hi: nat)

  ghost predicate Holds(job: Job, outbox: seq<Item>, history: seq<Message>, w: Window) {
    && w.lo <= w.hi <= |history|
    && (job.rejected == 0 ==>
          forall k :: w.lo <= k < w.hi && InWindow(job, history[k].time) ==> Captured(history[k]) in outbox)
  }

  /** The newest message a job answers for is the last one there was when its first page was taken. */
  function Reach(before: Job, after: Job, w: Window, history: seq<Message>): nat {
    if before.pages == 0 < after.pages then |history| else w.hi
  }

  /** Where the cursor stands: inside the window, on a message as old as any that has been read. */
  ghost predicate Stands(job: Job, history: seq<Message>, w: Window) {
    && job.cursor.Some? && job.oldest.Some?
    && (exists c :: w.lo <= c < w.hi <= |history| && history[c] == Message(job.cursor.value, job.oldest.value))
    && (forall k :: 0 <= k < w.lo <= |history| ==> history[k].time <= job.oldest.value)
  }

  ghost predicate Covered(job: Job, outbox: seq<Item>, history: seq<Message>, w: Window) {
    job.pages > 0 ==> Holds(job, outbox, history, w) && Stands(job, history, w)
  }

  /** All of a page that lies in the window is captured, if nothing of it was rejected. */
  lemma PageIsCaptured(job: Job, rows: seq<Raw>, history: seq<Message>, lo: int, hi: int, k: int)
    requires Timed(rows) && Lists(history, lo, hi, rows) && lo <= k < hi
    requires Rejections(job, rows) == 0 && InWindow(job, history[k].time)
    ensures Captured(history[k]) in Captures(job, rows)
  {
    assert Shown(history[k], rows);
    var r :| r in rows && r.Entry? && r.id == history[k].id && r.time == Some(history[k].time);
    var i :| 0 <= i < |rows| && rows[i] == r;
    CaptureOf(job, rows, i);
  }

  /** What an honest page shows is a message of the history, before the page's end. */
  lemma ShownOnPage(history: seq<Message>, lo: int, hi: int, rows: seq<Raw>, i: nat) returns (k: int)
    requires Timed(rows) && Lists(history, lo, hi, rows) && i < |rows|
    ensures lo <= k < hi && history[k] == Message(rows[i].id, rows[i].time.value)
  {
    var r := rows[i];
    assert r in rows && Placed(history, lo, hi, r);
    k :| lo <= k < hi && history[k] == Message(r.id, r.time.value);
  }

  /** The oldest entry of an honest page is as old as the page's first message, and no younger than any before it. */
  lemma OldestIsLowest(history: seq<Message>, lo: int, hi: int, rows: seq<Raw>, cursor: string, oldest: Time)
    returns (c: int)
    requires Chronological(history) && Timed(rows) && Lists(history, lo, hi, rows)
    requires OldestOf(rows, cursor, oldest)
    ensures lo <= c < hi && history[c] == Message(cursor, oldest)
    ensures forall k :: 0 <= k <= lo ==> history[k].time <= oldest
  {
    var i :| 0 <= i < |rows| && rows[i].id == cursor && rows[i].time == Some(oldest);
    c := ShownOnPage(history, lo, hi, rows, i);
  }

  /** What was held and what the page captured, together. */
  lemma PageKeepsHolding(
    job: Job, after: Job, rows: seq<Raw>, outbox: seq<Item>, history: seq<Message>, w: Window,
    lo: int, hi: int, w': Window)
    requires Timed(rows) && Lists(history, lo, hi, rows) && Holds(job, outbox, history, w)
    requires after.start == job.start && after.end == job.end
    requires after.rejected == job.rejected + Rejections(job, rows)
    requires w'.lo <= w'.hi <= |history|
    requires w' == Window(lo, hi) || (w'.hi == w.hi && w.lo <= hi && (w'.lo == w.lo || w'.lo == lo))
    ensures Holds(after, outbox + Captures(job, rows), history, w')
  {
    forall k | w'.lo <= k < w'.hi && InWindow(after, history[k].time) && after.rejected == 0
      ensures Captured(history[k]) in outbox + Captures(job, rows)
    {
      if lo <= k < hi {
        PageIsCaptured(job, rows, history, lo, hi, k);
      }
    }
  }

  /** The window grows downwards to where the page begins. */
  function Extended(w: Window, c: nat, pageSize: nat): Window {
    Window(if w.lo < Back(c + 1, pageSize) then w.lo else Back(c + 1, pageSize), w.hi)
  }

  lemma FirstPage(
    job: Job, outbox: seq<Item>, history: seq<Message>, rows: seq<Raw>, pageSize: nat, maxPages: int,
    cursor: string, oldest: Time)
    requires Chronological(history) && Timed(rows)
    requires Lists(history, Back(|history|, pageSize), |history|, rows)
    requires OldestOf(rows, cursor, oldest)
    ensures var after := Turned(job, rows, cursor, oldest, maxPages);
            var w := Window(Back(|history|, pageSize), |history|);
            Holds(after, outbox + Captures(job, rows), history, w) && Stands(after, history, w)
  {
    var after := Turned(job, rows, cursor, oldest, maxPages);
    var lo := Back(|history|, pageSize);
    var _ := OldestIsLowest(history, lo, |history|, rows, cursor, oldest);
    PageKeepsHolding(job, after, rows, outbox, history, Window(0, 0), lo, |history|, Window(lo, |history|));
  }

  lemma NextPage(
    job: Job, outbox: seq<Item>, history: seq<Message>, w: Window, c: nat, rows: seq<Raw>,
    pageSize: nat, maxPages: int, cursor: string, oldest: Time)
    requires Chronological(history) && Timed(rows)
    requires Holds(job, outbox, history, w) && w.lo <= c < w.hi
    requires Lists(history, Back(c + 1, pageSize), c + 1, rows)
    requires OldestOf(rows, cursor, oldest)
    ensures var after := Turned(job, rows, cursor, oldest, maxPages);
            Holds(after, outbox + Captures(job, rows), history, Extended(w, c, pageSize))
            && Stands(after, history, Extended(w, c, pageSize))
  {
    var after := Turned(job, rows, cursor, oldest, maxPages);
    var lo := Back(c + 1, pageSize);
    var c' := OldestIsLowest(history, lo, c + 1, rows, cursor, oldest);
    PageKeepsHolding(job, after, rows, outbox, history, w, lo, c + 1, Extended(w, c, pageSize));
  }

  /** Taking a page of an honest platform extends the window downwards without a gap. */
  lemma PageKeepsCoverage(
    job: Job, outbox: seq<Item>, history: seq<Message>, w: Window,
    reply: Reply, pageSize: nat, maxPages: int, cursor: string, oldest: Time)
    returns (w': Window)
    requires Chronological(history) && HonestPage(history, job.cursor, pageSize, reply)
    requires Judge(job, reply, pageSize) == Take(cursor, oldest)
    requires job.cursor.Some? <==> job.pages > 0
    requires Covered(job, outbox, history, w)
    ensures var after := Turned(job, reply.rows, cursor, oldest, maxPages);
            Covered(after, outbox + Captures(job, reply.rows), history, w')
    ensures w'.hi == if job.pages > 0 then w.hi else |history|
  {
    TakenPage(job, reply, pageSize, cursor, oldest);
    if job.pages > 0 {
      var c := CursorStands(job, history, w);
      HonestPageAt(history, c, pageSize, reply.rows);
      w' := Extended(w, c, pageSize);
      NextPage(job, outbox, history, w, c, reply.rows, pageSize, maxPages, cursor, oldest);
    } else {
      HonestFirstPage(history, pageSize, reply.rows);
      w' := Window(Back(|history|, pageSize), |history|);
      FirstPage(job, outbox, history, reply.rows, pageSize, maxPages, cursor, oldest);
    }
  }

  predicate SameReading(a: Job, b: Job) {
    && a.start == b.start && a.end == b.end && a.pages == b.pages && a.rejected == b.rejected
    && a.cursor == b.cursor && a.oldest == b.oldest && a.seen == b.seen
  }

  /** Coverage survives whatever else reaches the outbox, the history or the job. */
  lemma CoverageStays(
    job: Job, after: Job, outbox: seq<Item>, more: seq<Item>, history: seq<Message>, later: seq<Message>, w: Window)
    requires Covered(job, outbox, history, w) && outbox <= more && history <= later && SameReading(job, after)
    ensures Covered(after, more, later, w)
  {
    if job.pages > 0 {
      var c :| w.lo <= c < w.hi <= |history| && history[c] == Message(job.cursor.value, job.oldest.value);
      assert later[c] == history[c];
      forall k | w.lo <= k < w.hi && InWindow(job, later[k].time) && job.rejected == 0
        ensures Captured(later[k]) in more
      {
        assert later[k] == history[k];
      }
    }
  }

  predicate Fits(job: Job, reply: Reply, pageSize: nat, room: nat) {
    Judge(job, reply, pageSize).Take? && |Captures(job, reply.rows)| <= room
  }

  lemma NothingRead(job: Job, reply: Reply, pageSize: nat, maxPages: int, room: nat, now: Time)
    requires !Fits(job, reply, pageSize, room)
    ensures SameReading(job, Worked(job, reply, pageSize, maxPages, room, now))
  {
  }

  lemma PageRead(job: Job, reply: Reply, pageSize: nat, maxPages: int, room: nat, now: Time)
    requires Fits(job, reply, pageSize, room)
    ensures var taken := Judge(job, reply, pageSize);
            && Worked(job, reply, pageSize, maxPages, room, now)
               == Turned(job, reply.rows, taken.cursor, taken.oldest, maxPages)
            && Added(job, reply, pageSize, room) == Captures(job, reply.rows)
  {
  }

  lemma WorkKeepsCoverage(
    job: Job, outbox: seq<Item>, history: seq<Message>, w: Window,
    reply: Reply, pageSize: nat, maxPages: int, room: nat, now: Time)
    returns (w': Window)
    requires Chronological(history) && HonestPage(history, job.cursor, pageSize, reply)
    requires Measured(job, maxPages) && Covered(job, outbox, history, w)
    ensures Covered(Worked(job, reply, pageSize, maxPages, room, now),
                    outbox + Added(job, reply, pageSize, room), history, w')
    ensures w'.hi == Reach(job, Worked(job, reply, pageSize, maxPages, room, now), w, history)
  {
    if Fits(job, reply, pageSize, room) {
      var taken := Judge(job, reply, pageSize);
      PageRead(job, reply, pageSize, maxPages, room, now);
      w' := PageKeepsCoverage(job, outbox, history, w, reply, pageSize, maxPages, taken.cursor, taken.oldest);
    } else {
      w' := w;
      var after := Worked(job, reply, pageSize, maxPages, room, now);
      var added := Added(job, reply, pageSize, room);
      NothingRead(job, reply, pageSize, maxPages, room, now);
      CoverageStays(job, after, outbox, outbox + added, history, history, w);
    }
  }

  /** What one page leaves in the outbox: all its captures, or as many as there was room for. */
  function Added(job: Job, reply: Reply, pageSize: nat, room: nat): seq<Item> {
    if !Judge(job, reply, pageSize).Take? then []
    else
      var captures := Captures(job, reply.rows);
      if room < |captures| then captures[..room] else captures
  }

  /** Every cursor so far belongs to a message at least as young as the oldest time. */
  ghost predicate Trail(job: Job, history: seq<Message>) {
    forall id :: id in job.seen ==> job.oldest.Some? && Passed(id, job.oldest.value, history)
  }

  ghost predicate Passed(id: string, oldest: Time, history: seq<Message>) {
    exists k :: 0 <= k < |history| && history[k].id == id && oldest <= history[k].time
  }

  lemma TrailStays(job: Job, after: Job, history: seq<Message>, later: seq<Message>)
    requires Trail(job, history) && history <= later && after.seen == job.seen && after.oldest == job.oldest
    ensures Trail(after, later)
  {
    forall id | id in after.seen ensures Passed(id, after.oldest.value, later) {
      assert Passed(id, job.oldest.value, history);
      var k :| 0 <= k < |history| && history[k].id == id && job.oldest.value <= history[k].time;
      assert later[k] == history[k];
    }
  }

  lemma PageKeepsTrail(
    job: Job, rows: seq<Raw>, cursor: string, oldest: Time, maxPages: int, history: seq<Message>, c: nat)
    requires Trail(job, history) && Timed(rows) && (job.oldest.Some? ==> oldest <= job.oldest.value)
    requires c < |history| && history[c] == Message(cursor, oldest)
    ensures Trail(Turned(job, rows, cursor, oldest, maxPages), history)
  {
    var after := Turned(job, rows, cursor, oldest, maxPages);
    forall id | id in after.seen ensures Passed(id, oldest, history) {
      if id in job.seen {
        assert Passed(id, job.oldest.value, history);
      }
    }
  }

  lemma HonestFirstPage(history: seq<Message>, pageSize: nat, rows: seq<Raw>)
    requires HonestPage(history, None, pageSize, Rows(rows))
    ensures Lists(history, Back(|history|, pageSize), |history|, rows)
  {
  }

  lemma HonestPageAt(history: seq<Message>, c: nat, pageSize: nat, rows: seq<Raw>)
    requires c < |history| && HonestPage(history, Some(history[c].id), pageSize, Rows(rows))
    ensures Lists(history, Back(c + 1, pageSize), c + 1, rows)
  {
  }

  lemma CursorStands(job: Job, history: seq<Message>, w: Window) returns (c: nat)
    requires Stands(job, history, w)
    ensures w.lo <= c < w.hi <= |history| && history[c] == Message(job.cursor.value, job.oldest.value)
  {
    c :| w.lo <= c < w.hi <= |history| && history[c] == Message(job.cursor.value, job.oldest.value);
  }

  /** Where an honest page lies: it ends at the cursor, or at the newest message. */
  lemma HonestPageLies(
    job: Job, history: seq<Message>, w: Window, rows: seq<Raw>, pageSize: nat)
    returns (lo: int, hi: int)
    requires HonestPage(history, job.cursor, pageSize, Rows(rows))
    requires job.cursor.Some? <==> job.pages > 0
    requires job.pages > 0 ==> Stands(job, history, w)
    ensures Lists(history, lo, hi, rows)
    ensures job.pages > 0 ==> 0 < hi && history[hi - 1] == Message(job.cursor.value, job.oldest.value)
  {
    if job.pages > 0 {
      var c := CursorStands(job, history, w);
      assert job.cursor == Some(history[c].id);
      HonestPageAt(history, c, pageSize, rows);
      lo, hi := Back(c + 1, pageSize), c + 1;
    } else {
      assert job.cursor == None;
      HonestFirstPage(history, pageSize, rows);
      lo, hi := Back(|history|, pageSize), |history|;
    }
  }

  /** No entry of an honest page is younger than the cursor. */
  lemma NoneIsYounger(history: seq<Message>, lo: int, hi: int, rows: seq<Raw>, oldest: Time)
    requires Chronological(history) && Timed(rows) && Lists(history, lo, hi, rows)
    requires 0 < hi && history[hi - 1].time == oldest
    ensures forall i :: 0 <= i < |rows| ==> rows[i].time.value <= oldest
  {
    forall i | 0 <= i < |rows| ensures rows[i].time.value <= oldest {
      var k := ShownOnPage(history, lo, hi, rows, i);
    }
  }

  /** An entry that was a cursor before is at least as young as the oldest time. */
  lemma SeenIsNotOlder(job: Job, history: seq<Message>, k: nat)
    requires Chronological(history) && Trail(job, history)
    requires k < |history| && history[k].id in job.seen
    ensures job.oldest.Some? && job.oldest.value <= history[k].time
  {
    assert Passed(history[k].id, job.oldest.value, history);
    var j :| 0 <= j < |history| && history[j].id == history[k].id && job.oldest.value <= history[j].time;
    assert j == k;
  }

  predicate Named(history: seq<Message>) {
    forall k :: 0 <= k < |history| ==> history[k].id != "" && history[k].id != "0"
  }

  /**
    Exactly when an honest walk goes on.  An honest platform is never taken for one that
    pages forwards: its page is taken if and only if the first of its oldest entries has not
    been a cursor before, and stalls the walk otherwise.  Then, and not only then, all
    entries share the second of the oldest one so far.
   */
  lemma HonestPageIsTaken(job: Job, history: seq<Message>, w: Window, rows: seq<Raw>, pageSize: nat, maxPages: int)
    requires Chronological(history) && Named(history) && HonestPage(history, job.cursor, pageSize, Rows(rows))
    requires Measured(job, maxPages) && Trail(job, history) && (job.pages > 0 ==> Stands(job, history, w))
    requires rows != [] && |rows| <= pageSize && Timed(rows)
    ensures var judgement := Judge(job, Rows(rows), pageSize);
            && (judgement.Take? <==> rows[OldestAt(rows)].id !in job.seen)
            && (!judgement.Take? ==> judgement == Stop("pagination_stalled"))
            && (!judgement.Take? ==> job.oldest.Some? && AllAt(rows, job.oldest.value))
  {
    FactsOfHonestPage(job, history, w, rows, pageSize);
    JudgedByTheOldest(job, rows, pageSize);
  }

  predicate AllAt(rows: seq<Raw>, time: Time)
    requires Timed(rows)
  {
    forall i :: 0 <= i < |rows| ==> rows[i].time.value == time
  }

  /** A walk whose cursor has come to the first message of the history goes no further. */
  lemma FirstMessageStalls(job: Job, history: seq<Message>, w: Window, rows: seq<Raw>, pageSize: nat, maxPages: int)
    requires Chronological(history) && Named(history) && HonestPage(history, job.cursor, pageSize, Rows(rows))
    requires Measured(job, maxPages) && Trail(job, history) && (job.pages > 0 ==> Stands(job, history, w))
    requires rows != [] && |rows| <= pageSize && Timed(rows)
    requires history != [] && job.cursor == Some(history[0].id)
    ensures Judge(job, Rows(rows), pageSize) == Stop("pagination_stalled")
  {
    var lo, hi := HonestPageLies(job, history, w, rows, pageSize);
    var k := ShownOnPage(history, lo, hi, rows, OldestAt(rows));
    assert hi - 1 == 0 && k == 0;
    assert job.seen[|job.seen| - 1] == history[0].id;
    HonestPageIsTaken(job, history, w, rows, pageSize, maxPages);
  }

  /** A peer whose whole history lies after the start of the window is never reported as scanned. */
  lemma YoungHistoryIsNeverScanned(job: Job, outbox: seq<Item>, history: seq<Message>, w: Window, maxPages: int)
    requires Measured(job, maxPages) && Covered(job, outbox, history, w)
    requires forall k :: 0 <= k < |history| ==> job.start < history[k].time
    ensures !job.state.Scanned?
  {
    if job.pages > 0 {
      var c :| w.lo <= c < w.hi <= |history| && history[c] == Message(job.cursor.value, job.oldest.value);
    }
  }

  /** Such a peer, with all it ever sent captured: two honest turns end in a stall. */
  lemma CompleteWalkStalls()
    returns (history: seq<Message>, page: Reply, first: Job, second: Job)
    ensures Chronological(history) && Named(history) && history == [Message("a", 7.0)]
    ensures HonestPage(history, None, 50, page) && HonestPage(history, first.cursor, 50, page)
    ensures first == Worked(Created(5.0, 9.0, None), page, 50, 20, 50, 0.0) && first.state.Running?
    ensures Added(Created(5.0, 9.0, None), page, 50, 50) == [Captured(history[0])]
    ensures second == Worked(first, page, 50, 20, 50, 0.0)
    ensures second.state.Partial? && second.reason == Some("pagination_stalled")
  {
    history := [Message("a", 7.0)];
    var row := Entry("a", Some(7.0), true);
    page := Rows([row]);
    var created := Created(5.0, 9.0, None);
    assert page.rows[..0] == [];
    assert OldestAt(page.rows) == 0;
    assert Judge(created, page, 50) == Take("a", 7.0);
    assert Captures(created, page.rows) == [Captured(Message("a", 7.0))];
    assert row in page.rows;
    assert Shown(history[0], page.rows);
    first := Worked(created, page, 50, 20, 50, 0.0);
    assert first.seen == ["a"];
    second := Worked(first, page, 50, 20, 50, 0.0);
  }

  predicate NoneYoungerThan(rows: seq<Raw>, oldest: Time)
    requires Timed(rows)
  {
    forall i :: 0 <= i < |rows| ==> rows[i].time.value <= oldest
  }

  lemma FactsOfHonestPage(job: Job, history: seq<Message>, w: Window, rows: seq<Raw>, pageSize: nat)
    requires Chronological(history) && Named(history) && HonestPage(history, job.cursor, pageSize, Rows(rows))
    requires (job.cursor.Some? <==> job.pages > 0) && (job.oldest.Some? <==> job.pages > 0)
    requires Trail(job, history) && (job.pages > 0 ==> Stands(job, history, w))
    requires rows != [] && Timed(rows)
    ensures job.oldest.Some? ==> NoneYoungerThan(rows, job.oldest.value)
    ensures var row := rows[OldestAt(rows)];
            && row.id != "" && row.id != "0"
            && (row.id in job.seen ==> job.oldest.Some? && job.oldest.value <= row.time.value)
  {
    var lo, hi := HonestPageLies(job, history, w, rows, pageSize);
    var k := ShownOnPage(history, lo, hi, rows, OldestAt(rows));
    if job.pages > 0 {
      NoneIsYounger(history, lo, hi, rows, job.oldest.value);
    }
    if history[k].id in job.seen {
      SeenIsNotOlder(job, history, k);
    }
  }

  lemma JudgedByTheOldest(job: Job, rows: seq<Raw>, pageSize: nat)
    requires rows != [] && |rows| <= pageSize && Timed(rows)
    requires job.oldest.Some? ==> NoneYoungerThan(rows, job.oldest.value)
    requires var row := rows[OldestAt(rows)];
             && row.id != "" && row.id != "0"
             && (row.id in job.seen ==> job.oldest.Some? && job.oldest.value <= row.time.value)
    ensures var judgement := Judge(job, Rows(rows), pageSize);
            && (judgement.Take? <==> rows[OldestAt(rows)].id !in job.seen)
            && (!judgement.Take? ==> judgement == Stop("pagination_stalled"))
            && (!judgement.Take? ==> job.oldest.Some? && AllAt(rows, job.oldest.value))
  {
    var k := OldestAt(rows);
    if rows[k].id in job.seen {
      forall i | 0 <= i < |rows| ensures rows[i].time.value == job.oldest.value {
        assert rows[k].time.value <= rows[i].time.value;
      }
    }
  }

  lemma WorkKeepsTrail(
    job: Job, outbox: seq<Item>, history: seq<Message>, w: Window,
    reply: Reply, pageSize: nat, maxPages: int, room: nat, now: Time)
    requires Chronological(history) && HonestPage(history, job.cursor, pageSize, reply)
    requires Measured(job, maxPages) && Covered(job, outbox, history, w) && Trail(job, history)
    ensures Trail(Worked(job, reply, pageSize, maxPages, room, now), history)
  {
    if Fits(job, reply, pageSize, room) {
      var taken := Judge(job, reply, pageSize);
      PageRead(job, reply, pageSize, maxPages, room, now);
      TakenPage(job, reply, pageSize, taken.cursor, taken.oldest);
      var lo, hi := HonestPageLies(job, history, w, reply.rows, pageSize);
      var c := OldestIsLowest(history, lo, hi, reply.rows, taken.cursor, taken.oldest);
      PageKeepsTrail(job, reply.rows, taken.cursor, taken.oldest, maxPages, history, c);
    } else {
      NothingRead(job, reply, pageSize, maxPages, room, now);
      TrailStays(job, Worked(job, reply, pageSize, maxPages, room, now), history, history);
    }
  }

  /** What a job has walked through of the history, which held `birth` messages when it was created. */
  ghost predicate Walked(job: Job, outbox: seq<Item>, history: seq<Message>, w: Window, birth: nat) {
    Covered(job, outbox, history, w) && Trail(job, history) && (job.pages > 0 ==> birth <= w.hi)
  }

  lemma WalkStays(
    job: Job, after: Job, outbox: seq<Item>, more: seq<Item>, history: seq<Message>, later: seq<Message>,
    w: Window, birth: nat)
    requires Walked(job, outbox, history, w, birth) && outbox <= more && history <= later && SameReading(job, after)
    ensures Walked(after, more, later, w, birth)
  {
    CoverageStays(job, after, outbox, more, history, later, w);
    TrailStays(job, after, history, later);
  }

  /** An attempt at an honest page, taken or not, carries the walk on. */
  lemma WorkKeepsWalk(
    job: Job, outbox: seq<Item>, history: seq<Message>, w: Window, birth: nat,
    reply: Reply, pageSize: nat, maxPages: int, room: nat, now: Time)
    returns (w': Window)
    requires Chronological(history) && birth <= |history| && HonestPage(history, job.cursor, pageSize, reply)
    requires Measured(job, maxPages) && Walked(job, outbox, history, w, birth)
    ensures Walked(Worked(job, reply, pageSize, maxPages, room, now),
                   outbox + Added(job, reply, pageSize, room), history, w', birth)
  {
    w' := WorkKeepsCoverage(job, outbox, history, w, reply, pageSize, maxPages, room, now);
    WorkKeepsTrail(job, outbox, history, w, reply, pageSize, maxPages, room, now);
  }

  lemma AddedAreMessages(job: Job, reply: Reply, pageSize: nat, room: nat)
    ensures forall item :: item in Added(job, reply, pageSize, room) ==> item.Captured?
  {
    if Judge(job, reply, pageSize).Take? {
      CapturesAreMessages(job, reply.rows);
    }
  }

  lemma AttemptIsReported(
    job: Job, outbox: seq<Item>, checkpoints: seq<Progress>,
    reply: Reply, pageSize: nat, maxPages: int, room: nat, now: Time)
    requires Measured(job, maxPages) && Delivered(job, outbox, checkpoints)
    ensures Delivered(job, outbox + Added(job, reply, pageSize, room), checkpoints)
    ensures var worked := Worked(job, reply, pageSize, maxPages, room, now);
            worked.revision == job.revision && (Active(job) ==> Measured(Checkpointed(worked), maxPages))
  {
    AddedAreMessages(job, reply, pageSize, room);
    CapturesAreNoReports(job, outbox, checkpoints, Added(job, reply, pageSize, room));
    if Active(job) {
      WorkKeepsMeasure(job, reply, pageSize, maxPages, room, now);
    }
  }

  /**
    A scanned job has handed over every message after the start of its window and up to its
    end, out of all that was there when its first page was taken.
   */
  lemma ScannedMeansCovered(
    job: Job, outbox: seq<Item>, history: seq<Message>, w: Window, maxPages: int, message: Message)
    requires Measured(job, maxPages) && Covered(job, outbox, history, w) && job.state.Scanned?
    requires message in history[..w.hi] && InWindow(job, message.time)
    requires message.time == job.start ==> job.oldest.value < job.start || message in history[w.lo..w.hi]
    ensures Captured(message) in outbox
  {
    if message in history[w.lo..w.hi] {
      var k :| w.lo <= k < w.hi && history[k] == message;
    }
  }

  /** At the start of the window itself nothing is promised: two messages share that second, one is read. */
  lemma WindowStartCanBeMissed()
    returns (history: seq<Message>, reply: Reply, job: Job)
    ensures Chronological(history) && HonestPage(history, None, 1, reply)
    ensures job == Worked(Created(5.0, 9.0, None), reply, 1, 20, 1, 0.0)
    ensures job.state.Scanned? && job.oldest == Some(job.start)
    ensures Message("a", 5.0) in history && InWindow(job, 5.0)
    ensures Added(Created(5.0, 9.0, None), reply, 1, 1) == [Captured(Message("b", 5.0))]
  {
    history := [Message("a", 5.0), Message("b", 5.0)];
    var row := Entry("b", Some(5.0), true);
    reply := Rows([row]);
    var created := Created(5.0, 9.0, None);
    assert reply.rows[..0] == [];
    assert OldestAt(reply.rows) == 0;
    assert Judge(created, reply, 1) == Take("b", 5.0);
    assert Captures(created, reply.rows) == [Captured(Message("b", 5.0))];
    assert row in reply.rows;
    assert Shown(history[1], reply.rows);
    job := Worked(created, reply, 1, 20, 1, 0.0);
  }

  // ---------------------------------------------------------------- progress reports

  /**
    Every revision before the current one has reached the outbox as it was checkpointed; the
    current one has too, or is still in the job.
   */
  ghost predicate Delivered(job: Job, outbox: seq<Item>, checkpoints: seq<Progress>) {
    && |checkpoints| == job.revision
    && (forall r :: 0 <= r < |checkpoints| ==> checkpoints[r].revision == r + 1)
    && (forall r :: 0 <= r < |checkpoints| - 1 ==> Reported(checkpoints[r]) in outbox)
    && (job.report.Some? ==> checkpoints != [] && job.report.value == checkpoints[|checkpoints| - 1])
    && (job.report.None? && checkpoints != [] ==> Reported(checkpoints[|checkpoints| - 1]) in outbox)
    && (forall item :: item in outbox && item.Reported? ==> item.progress in checkpoints)
    && (checkpoints != [] ==> Tells(checkpoints[|checkpoints| - 1], job))
  }

  /** The report has the job's figures. */
  predicate Tells(p: Progress, job: Job) {
    && p.state == job.state && p.pages == job.pages && p.captured == job.captured && p.rejected == job.rejected
    && p.attempts == job.attempts && p.reason == job.reason && p.cursor == job.cursor
  }

  /** The last report a job has sent, once none waits, tells its present state. */
  lemma LastReportIsTrue(job: Job, outbox: seq<Item>, checkpoints: seq<Progress>)
    requires Delivered(job, outbox, checkpoints) && job.report.None? && job.revision > 0
    ensures exists item :: item in outbox && item.Reported? && item.progress.revision == job.revision
                             && Tells(item.progress, job)
  {
    assert Reported(checkpoints[job.revision - 1]) in outbox;
  }

  /** No two reports in the outbox bear one revision and differ. */
  lemma OneReportPerRevision(job: Job, outbox: seq<Item>, checkpoints: seq<Progress>, a: Progress, b: Progress)
    requires Delivered(job, outbox, checkpoints)
    requires Reported(a) in outbox && Reported(b) in outbox && a.revision == b.revision
    ensures a == b
  {
    var i :| 0 <= i < |checkpoints| && checkpoints[i] == a;
    var j :| 0 <= j < |checkpoints| && checkpoints[j] == b;
    assert i + 1 == j + 1;
  }

  lemma CapturesAreNoReports(job: Job, outbox: seq<Item>, checkpoints: seq<Progress>, added: seq<Item>)
    requires Delivered(job, outbox, checkpoints)
    requires forall item :: item in added ==> item.Captured?
    ensures Delivered(job, outbox + added, checkpoints)
  {
  }

  lemma CheckpointKeepsDelivery(job: Job, worked: Job, outbox: seq<Item>, checkpoints: seq<Progress>)
    requires Delivered(job, outbox, checkpoints) && job.report.None?
    requires worked.revision == job.revision
    ensures Delivered(Checkpointed(worked), outbox, checkpoints + [Checkpointed(worked).report.value])
  {
  }

  lemma ReportKeepsDelivery(job: Job, outbox: seq<Item>, checkpoints: seq<Progress>)
    requires Delivered(job, outbox, checkpoints) && job.report.Some?
    ensures Delivered(job, outbox + [Reported(job.report.value)], checkpoints)
    ensures Delivered(job.(report := None), outbox + [Reported(job.report.value)], checkpoints)
  {
  }

  // ---------------------------------------------------------------- the worker

  datatype Sending = Accepted | Refused | AcceptedThenDied

  /** A report is forgotten once it is known to have been taken. */
  function Sent(job: Job, sending: Sending): Job {
    if sending.Accepted? then job.(report := None) else job
  }

  /** The stored row after a turn, whatever became of the process. */
  function TurnOf(
    job: Job, reply: Reply, pageSize: nat, maxPages: int, room: nat, now: Time,
    first: Sending, survives: bool, last: Sending): Job
  {
    var ready := Sent(job, first);
    if ready.report.Some? || !Active(ready) || ready.retryAt > now || !survives then ready
    else Sent(Checkpointed(Worked(ready, reply, pageSize, maxPages, room, now)), last)
  }

  lemma SentAdvances(job: Job, sending: Sending, maxPages: int)
    requires Measured(job, maxPages)
    ensures Measured(Sent(job, sending), maxPages) && Advances(job, Sent(job, sending))
    ensures Sent(job, sending).revision == job.revision
  {
  }

  lemma AdvancesOn(a: Job, b: Job, c: Job)
    requires Advances(a, b) && Advances(b, c)
    ensures Advances(a, c)
  {
  }

  /**
    Cursors are only added, the oldest time never rises, an ended job stays ended, and every
    turn that comes as far as its checkpoint uses up one of at most Cap(maxPages) + 2.
   */
  lemma TurnAdvances(
    job: Job, reply: Reply, pageSize: nat, maxPages: int, room: nat, now: Time,
    first: Sending, survives: bool, last: Sending)
    requires Measured(job, maxPages)
    ensures var after := TurnOf(job, reply, pageSize, maxPages, room, now, first, survives, last);
            && Advances(job, after)
            && Measured(after, maxPages)
            && after.revision
               == job.revision + (if Effective(job, Round(reply, room, now, first, survives, last)) then 1 else 0)
  {
    var ready := Sent(job, first);
    SentAdvances(job, first, maxPages);
    if ready.report.None? && Active(ready) && ready.retryAt <= now && survives {
      WorkAdvances(ready, reply, pageSize, maxPages, room, now);
      CheckpointedAdvances(job, ready, Checkpointed(Worked(ready, reply, pageSize, maxPages, room, now)), last,
                           maxPages);
    }
  }

  lemma WorkAdvances(job: Job, reply: Reply, pageSize: nat, maxPages: int, room: nat, now: Time)
    requires Measured(job, maxPages) && Active(job)
    ensures var after := Checkpointed(Worked(job, reply, pageSize, maxPages, room, now));
            Measured(after, maxPages) && Advances(job, after) && after.revision == job.revision + 1
  {
    WorkKeepsMeasure(job, reply, pageSize, maxPages, room, now);
    assert Worked(job, reply, pageSize, maxPages, room, now).revision == job.revision;
  }

  lemma CheckpointedAdvances(job: Job, ready: Job, checkpointed: Job, last: Sending, maxPages: int)
    requires Advances(job, ready) && Advances(ready, checkpointed) && Measured(checkpointed, maxPages)
    ensures Advances(job, Sent(checkpointed, last)) && Measured(Sent(checkpointed, last), maxPages)
    ensures Sent(checkpointed, last).revision == checkpointed.revision
  {
    SentAdvances(checkpointed, last, maxPages);
    AdvancesOn(job, ready, checkpointed);
    AdvancesOn(job, checkpointed, Sent(checkpointed, last));
  }

  /** Everything the surroundings decide about one turn. */
  datatype Round = Round(reply: Reply, room: nat, now: Time, first: Sending, survives: bool, last: Sending)

  ghost predicate Rounds(jobs: seq<Job>, rounds: seq<Round>, pageSize: nat, maxPages: int) {
    && |jobs| == |rounds| + 1
    && forall i :: 0 <= i < |rounds| ==> RoundAt(jobs, rounds, i, pageSize, maxPages)
  }

  ghost predicate RoundAt(jobs: seq<Job>, rounds: seq<Round>, i: nat, pageSize: nat, maxPages: int)
    requires i < |rounds| && |jobs| == |rounds| + 1
  {
    var r := rounds[i];
    jobs[i + 1] == TurnOf(jobs[i], r.reply, pageSize, maxPages, r.room, r.now, r.first, r.survives, r.last)
  }

  /** A turn that comes as far as its checkpoint. */
  predicate Effective(job: Job, r: Round) {
    Active(job) && (job.report.None? || r.first.Accepted?) && job.retryAt <= r.now && r.survives
  }

  function EffectiveRounds(jobs: seq<Job>, rounds: seq<Round>, n: nat): nat
    requires n <= |rounds| < |jobs|
  {
    if n == 0 then 0 else EffectiveRounds(jobs, rounds, n - 1) + if Effective(jobs[n - 1], rounds[n - 1]) then 1 else 0
  }

  /**
    Every job stops: whatever the platform answers, however often the outbox refuses and the
    process dies, a job is worked on at most Cap(maxPages) + 2 times, and an active one has
    taken a page or noted a failure each time.
   */
  lemma {:induction false} EveryJobStops(jobs: seq<Job>, rounds: seq<Round>, pageSize: nat, maxPages: int, n: nat)
    requires Rounds(jobs, rounds, pageSize, maxPages) && n <= |rounds|
    requires Measured(jobs[0], maxPages) && jobs[0].revision == 0
    ensures Measured(jobs[n], maxPages)
    ensures EffectiveRounds(jobs, rounds, n) == jobs[n].revision <= Cap(maxPages) + 2
    ensures Active(jobs[n]) ==> EffectiveRounds(jobs, rounds, n) == jobs[n].pages + jobs[n].attempts
    ensures jobs[0].seen <= jobs[n].seen
  {
    if n > 0 {
      EveryJobStops(jobs, rounds, pageSize, maxPages, n - 1);
      assert RoundAt(jobs, rounds, n - 1, pageSize, maxPages);
      var r := rounds[n - 1];
      TurnAdvances(jobs[n - 1], r.reply, pageSize, maxPages, r.room, r.now, r.first, r.survives, r.last);
    }
  }

  class RecoveryJob {
    const pageSize: nat
    const maxPages: int
    /** The row of the jobs table, the dictionary in memory and what the reporter has taken. */
    var saved: Job
    var job: Job
    var outbox: seq<Item>
    ghost var checkpoints: seq<Progress>
    /** The peer's history, and how much of it this job has been through, if the platform keeps its word. */
    ghost const honest: bool
    ghost var history: seq<Message>
    ghost var window: Window
    /** How long the history was when the job was created. */
    ghost const birth: nat

    ghost predicate Valid()
      reads this
    {
      && Measured(saved, maxPages)
      && Delivered(saved, outbox, checkpoints)
      && (honest ==>
            && Chronological(history) && birth <= |history|
            && Walked(saved, outbox, history, window, birth))
    }

    constructor (start: Time, end: Time, reason: Option<string>, pageSize: nat, maxPages: int,
                 ghost honest: bool, ghost history: seq<Message>)
      requires honest ==> Chronological(history)
      ensures Valid() && saved == Created(start, end, reason) && outbox == []
      ensures saved.start == start && saved.end == end && saved.reason == reason && saved.state.Pending?
      ensures this.pageSize == pageSize && this.maxPages == maxPages && this.honest == honest && this.history == history
      ensures birth == |history|
    {
      this.pageSize, this.maxPages, this.honest, this.history := pageSize, maxPages, honest, history;
      saved := Created(start, end, reason);
      job := Created(start, end, reason);
      outbox, checkpoints, window := [], [], Window(0, 0);
      birth := |history|;
    }

    /**
      End to end: a job that reports itself scanned has handed over every message after the
      start of its window, up to its end, that was there when the job was created.
     */
    lemma ScannedJobHandedAllOver(message: Message)
      requires Valid() && honest && saved.state.Scanned?
      requires message in history[..birth] && saved.start < message.time <= saved.end
      ensures Captured(message) in outbox
    {
      var k :| 0 <= k < birth && history[k] == message;
      assert history[..window.hi][k] == message;
      ScannedMeansCovered(saved, outbox, history, window, maxPages, message);
    }

    /** New messages arrive at the end of the history. */
    ghost method Arrive(later: seq<Message>)
      requires Valid() && history <= later && (honest ==> Chronological(later))
      modifies this`history
      ensures Valid() && history == later
    {
      if honest {
        WalkStays(saved, saved, outbox, outbox, history, later, window, birth);
      }
      history := later;
    }

    /** Send the pending report, if any, and only then forget it. */
    method Report(sending: Sending) returns (sent: bool)
      requires Valid() && job == saved
      modifies this`outbox, this`job, this`saved
      ensures Valid() && job == saved
      ensures sent <==> old(job).report.None? || sending.Accepted?
      ensures saved == Sent(old(saved), sending)
      ensures outbox == if old(job).report.None? || sending.Refused? then old(outbox)
                        else old(outbox) + [Reported(old(job).report.value)]
    {
      if job.report.Some? {
        if sending.Refused? {
          return false;
        }
        ReportKeepsDelivery(job, outbox, checkpoints);
        if honest {
          WalkStays(job, job, outbox, outbox + [Reported(job.report.value)], history, history, window, birth);
          WalkStays(job, job.(report := None), outbox, outbox + [Reported(job.report.value)], history, history, window,
                    birth);
        }
        outbox := outbox + [Reported(job.report.value)];
        if sending.AcceptedThenDied? {
          return false;
        }
        job := job.(report := None);
        saved := job;
      }
      return true;
    }

    /** Read one page; the outbox takes at most `room` messages. */
    method Page(reply: Reply, room: nat) returns (raised: Option<string>)
      modifies this`job, this`outbox
      ensures outbox == old(outbox) + Added(old(job), reply, pageSize, room)
      ensures raised.Some? ==>
                && job == old(job)
                && forall now :: Worked(job, reply, pageSize, maxPages, room, now) == Failed(job, raised.value, now)
      ensures raised.None? ==> forall now :: job == Worked(old(job), reply, pageSize, maxPages, room, now)
    {
      var judgement := Judge(job, reply, pageSize);
      match judgement
      case Refuse(error) =>
        return Some(error);
      case Stop(why) =>
        job := job.(state := Partial, reason := Some(why));
        return None;
      case Take(cursor, oldest) =>
        var rows := reply.rows;
        raised := Capture(rows, room);
        if raised.Some? {
          return;
        }
        job := Turned(job, rows, cursor, oldest, maxPages);
    }

    /** Hand the messages of a page over one by one until the outbox refuses. */
    method Capture(rows: seq<Raw>, room: nat) returns (raised: Option<string>)
      requires Timed(rows)
      modifies this`outbox
      ensures raised == if room < |Captures(job, rows)| then Some("spool_unavailable") else None
      ensures outbox == old(outbox) + if raised.Some? then Captures(job, rows)[..room] else Captures(job, rows)
    {
      var captured := 0;
      for i := 0 to |rows|
        invariant captured == |Captures(job, rows[..i])| <= room
        invariant outbox == old(outbox) + Captures(job, rows[..i])
      {
        assert rows[..i + 1][..i] == rows[..i];
        CapturesGrow(job, rows, i + 1);
        var raw := rows[i];
        if !InWindow(job, raw.time.value) || !raw.verifiable {
          continue;
        }
        if captured == room {
          return Some("spool_unavailable");
        }
        outbox := outbox + [Captured(Message(raw.id, raw.time.value))];
        captured := captured + 1;
      }
      assert rows[..|rows|] == rows;
      return None;
    }

    /** A page, or the note that it failed; the stored row is not touched yet. */
    method Attempt(reply: Reply, room: nat, now: Time) returns (ghost reached: Window)
      requires Valid() && job == saved
      requires honest ==> HonestPage(history, job.cursor, pageSize, reply)
      modifies this`job, this`outbox
      ensures Valid()
      ensures job == Worked(saved, reply, pageSize, maxPages, room, now) && job.revision == saved.revision
      ensures Active(saved) ==> Measured(Checkpointed(job), maxPages)
      ensures outbox == old(outbox) + Added(saved, reply, pageSize, room)
      ensures honest ==> Walked(job, outbox, history, reached, birth)
    {
      AttemptIsReported(saved, outbox, checkpoints, reply, pageSize, maxPages, room, now);
      reached := window;
      if honest {
        reached := WorkKeepsWalk(saved, outbox, history, window, birth, reply, pageSize, maxPages, room, now);
        WalkStays(saved, saved, outbox, outbox + Added(saved, reply, pageSize, room), history, history, window, birth);
      }
      var raised := Page(reply, room);
      if raised.Some? {
        job := Failed(job, raised.value, now);
      }
    }

    /** Number the progress, keep it in the job and store the row: one statement. */
    method Checkpoint(ghost reached: Window)
      requires Valid() && saved.report.None? && job.revision == saved.revision
      requires Measured(Checkpointed(job), maxPages)
      requires honest ==> Walked(job, outbox, history, reached, birth)
      modifies this`job, this`saved, this`checkpoints, this`window
      ensures Valid() && job == saved == Checkpointed(old(job))
      ensures checkpoints == old(checkpoints) + [ProgressOf(job)]
      ensures window == reached
    {
      CheckpointKeepsDelivery(saved, job, outbox, checkpoints);
      if honest {
        WalkStays(job, Checkpointed(job), outbox, outbox, history, history, reached, birth);
      }
      job := Checkpointed(job);
      checkpoints := checkpoints + [ProgressOf(job)];
      window := reached;
      saved := job;
    }

    method Finish(ghost reached: Window, last: Sending)
      requires Valid() && saved.report.None? && job.revision == saved.revision
      requires Measured(Checkpointed(job), maxPages)
      requires honest ==> Walked(job, outbox, history, reached, birth)
      modifies this`job, this`saved, this`outbox, this`checkpoints, this`window
      ensures Valid() && saved == Sent(Checkpointed(old(job)), last)
      ensures old(outbox) <= outbox && old(checkpoints) <= checkpoints
      ensures window == reached
    {
      Checkpoint(reached);
      var _ := Report(last);
    }

    /** Work on a job that is due: the process may die before the checkpoint. */
    method Proceed(reply: Reply, room: nat, now: Time, survives: bool, last: Sending)
      requires Valid() && job == saved && saved.report.None? && Active(saved)
      requires honest ==> HonestPage(history, saved.cursor, pageSize, reply)
      modifies this`job, this`saved, this`outbox, this`checkpoints, this`window
      ensures Valid()
      ensures old(outbox) <= outbox && old(checkpoints) <= checkpoints
      ensures saved == if survives
                       then Sent(Checkpointed(Worked(old(saved), reply, pageSize, maxPages, room, now)), last)
                       else old(saved)
    {
      ghost var reached := Attempt(reply, room, now);
      if survives {
        Finish(reached, last);
      }
    }

    /** Load the row, send what it still has to report, and see whether it is the job's turn. */
    method Begin(now: Time, first: Sending) returns (due: bool)
      requires Valid()
      modifies this`job, this`saved, this`outbox
      ensures Valid() && job == saved == Sent(old(saved), first)
      ensures due <==> saved.report.None? && Active(saved) && saved.retryAt <= now
      ensures old(outbox) <= outbox
    {
      job := saved;
      var sent := Report(first);
      due := sent && Active(job) && job.retryAt <= now;
    }

    /**
      One turn of the worker on this job.  The process may die after the page, or between
      handing a report over and noting that it did; the next turn starts from the stored row.
     */
    method Turn(reply: Reply, room: nat, now: Time, first: Sending, survives: bool, last: Sending)
      requires Valid() && (honest ==> HonestPage(history, saved.cursor, pageSize, reply))
      modifies this`job, this`saved, this`outbox, this`checkpoints, this`window
      ensures Valid()
      ensures old(outbox) <= outbox && old(checkpoints) <= checkpoints
      ensures saved == TurnOf(old(saved), reply, pageSize, maxPages, room, now, first, survives, last)
    {
      var due := Begin(now, first);
      if due {
        Proceed(reply, room, now, survives, last);
      }
    }
  }

  lemma CapturesGrow(job: Job, rows: seq<Raw>, n: nat)
    requires Timed(rows) && n <= |rows|
    ensures Captures(job, rows[..n]) <= Captures(job, rows)
    decreases |rows|
  {
    if n < |rows| {
      var shorter := rows[..|rows| - 1];
      CapturesGrow(job, shorter, n);
      assert shorter[..n] == rows[..n];
    } else {
      assert rows[..n] == rows;
    }
  }
}
