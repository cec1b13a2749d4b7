/** One book's part in a scan (scheduler.go: Scan, processLocked, recordFailure): observe, decide
    whether it is due, reconcile, observe again, report. */
module Poller {
  import opened Inventory
  import opened Checkpoints
  import ArtifactName
  import opened Planner
  import opened World
  import opened Loop
  import opened Cleanup
  import opened Reconcile
  import opened Polls
  import Backoff

  // ---- What the poller takes as one observation ----

  datatype ObservedFile = ObservedFile(id: nat, name: string, format: Format, kind: string, sizeKB: int)

  /** Checksums, time stamps and the two operational tags are left out of it. */
  datatype Observation = Observation(files: seq<ObservedFile>, tags: set<string>)

  function FingerprintOf(book: Book, cfg: Config): Observation {
    Observation(seq(|book.files|, i requires 0 <= i < |book.files| =>
                  ObservedFile(book.files[i].id, book.files[i].name, book.files[i].format, book.files[i].kind, book.files[i].sizeKB)),
                book.tags - {cfg.ignoreTag, cfg.failedTag})
  }

  /** The same in all that an observation takes of a file. */
  predicate LooksSame(a: File, b: File) {
    a.id == b.id && a.name == b.name && a.format == b.format && a.kind == b.kind && a.sizeKB == b.sizeKB
  }

  /** The listings show the same files in the same order, and the same tags but for the operational ones. */
  ghost predicate SameListing(a: Book, b: Book, cfg: Config) {
    && |a.files| == |b.files| && (forall i :: 0 <= i < |a.files| ==> LooksSame(a.files[i], b.files[i]))
    && forall t :: t !in {cfg.ignoreTag, cfg.failedTag} ==> (t in a.tags <==> t in b.tags)
  }

  /** Whatever else changes of the listing makes a new observation, and nothing else does. */
  lemma ObservationIsExact(a: Book, b: Book, cfg: Config)
    ensures FingerprintOf(a, cfg) == FingerprintOf(b, cfg) <==> SameListing(a, b, cfg)
  {
    var x, y := FingerprintOf(a, cfg), FingerprintOf(b, cfg);
    if x == y {
      forall i | 0 <= i < |a.files| ensures LooksSame(a.files[i], b.files[i]) {
        assert x.files[i] == y.files[i];
      }
      forall t | t !in {cfg.ignoreTag, cfg.failedTag} ensures t in a.tags <==> t in b.tags {
        assert t in x.tags <==> t in y.tags;
      }
    }
    if SameListing(a, b, cfg) {
      forall i | 0 <= i < |x.files| ensures x.files[i] == y.files[i] {
        assert LooksSame(a.files[i], b.files[i]);
      }
    }
  }

  /** Neither of the two operational tags makes a new observation, and the failure tag does not
      decide whether a book is ignored either. */
  lemma OperationalTagsDoNotCount(a: Book, b: Book, cfg: Config)
    requires a.files == b.files
    ensures a.tags - {cfg.ignoreTag, cfg.failedTag} == b.tags - {cfg.ignoreTag, cfg.failedTag} <==> FingerprintOf(a, cfg) == FingerprintOf(b, cfg)
    ensures a.tags - {cfg.failedTag} == b.tags - {cfg.failedTag} ==>
              && FingerprintOf(a, cfg) == FingerprintOf(b, cfg)
              && (cfg.ignoreTag == "" || cfg.ignoreTag != cfg.failedTag ==> HasTag(a.tags, cfg.ignoreTag) == HasTag(b.tags, cfg.ignoreTag))
  {
    assert FingerprintOf(a, cfg).tags == a.tags - {cfg.ignoreTag, cfg.failedTag} && FingerprintOf(b, cfg).tags == b.tags - {cfg.ignoreTag, cfg.failedTag};
    if a.tags - {cfg.failedTag} == b.tags - {cfg.failedTag} {
      assert cfg.ignoreTag in a.tags - {cfg.failedTag} <==> cfg.ignoreTag in b.tags - {cfg.failedTag};
      assert a.tags - {cfg.ignoreTag, cfg.failedTag} == (a.tags - {cfg.failedTag}) - {cfg.ignoreTag};
      assert b.tags - {cfg.ignoreTag, cfg.failedTag} == (b.tags - {cfg.failedTag}) - {cfg.ignoreTag};
    }
  }

  /** The schedule of retries, and the draws of the random source. */
  datatype Schedule = Schedule(maxAttempts: nat, base: Backoff.Duration, max: Backoff.Duration, random: nat -> real)

  /** What an error is taken for: one that may pass or not, and its class. */
  datatype Fault = Fault(transient: bool, class_: string)

  function CodeOf(fault: Fault): string {
    (if fault.transient then "retry_" else "permanent_") + if fault.class_ == "" then "internal" else fault.class_
  }

  ghost predicate ValidSchedule(c: Schedule) { c.maxAttempts > 0 && 0 < c.base <= c.max }

  type Store = PollStore<Observation>

  /** As TouchesNoWork, but the failure tag may come to the book. */
  twostate predicate OnlyTags(w: World)
    reads w
  {
    w.GoesOn() && w.Remembers() && LeavesWork(w)
  }

  method SetFailureTag(w: World, cfg: Config)
    requires w.OK()
    modifies w
    ensures w.OK() && OnlyTags(w) && w.h == old(w.h) && w.rows == old(w.rows)
    ensures old(w.Quiet()) ==> cfg.failedTag in w.server.book.tags
  {
    var ok := w.AddTag(cfg.failedTag);
  }

  /** Reports a failure for the observation the worker holds; final failures and used-up retries
      put the failure tag on the book. */
  method RecordFailure(w: World, store: Store, id: nat, run: Run, seen: PollRow<Observation>, c: Schedule, fault: Fault, now: int)
    requires w.OK() && ValidSchedule(c)
    modifies w, store
    ensures w.OK() && OnlyTags(w) && w.h == old(w.h) && w.rows == old(w.rows)
    ensures forall j :: j != id ==> store.Row(j) == old(store.Row(j))
    ensures Failing(old(store.Row(id)), store.Row(id), seen, fault, c, now)
    ensures old(w.Quiet()) && old(store.Row(id)) == Some(seen) && seen.status in {Pending, Retry} ==>
              FailureTold(seen, store.Row(id), fault, c, run.cfg, now, old(w.server), w.server)
  {
    var next, attempts := None, 1;
    if fault.transient {
      var delay, jittered := Backoff.NextDelay(c.base, c.max, seen.attempts, c.random(seen.attempts));
      next, attempts := Some(now + jittered as int), c.maxAttempts;
      assert RetryAt(c, seen.attempts, now, next.value);
    }
    var exhausted := !fault.transient || seen.attempts + 1 >= attempts;
    var reached := w.LocalCheck();
    if !reached {
      return;
    }
    ghost var e: Event<Observation> := FailedOn(seen.observed, CodeOf(fault), next, fault.transient);
    var ok := store.RecordPollFailure(id, seen.observed, CodeOf(fault), next, attempts);
    assert store.Row(id) == Step(old(store.Row(id)), e, c.maxAttempts);
    if old(store.Row(id)) == Some(seen) && seen.status in {Pending, Retry} {
      FailureCounts(seen, store.Row(id), fault, c, now, next);
    }
    if ok && exhausted && run.cfg.failedTag != "" {
      SetFailureTag(w, run.cfg);
    }
  }

  /** The time of a retry: the doubled and capped delay from now, or down to half of it. */
  ghost predicate RetryAt(c: Schedule, attempts: nat, now: int, at: int) {
    && c.base > 0 && c.max > 0
    && var delay := Backoff.Capped(c.base as int, c.max as int, attempts);
    now + delay / 2 <= at <= now + delay
  }

  /** The row is as it was, or one failure of this observation has been recorded. */
  ghost predicate Failing(a: Option<PollRow<Observation>>, b: Option<PollRow<Observation>>, seen: PollRow<Observation>, fault: Fault, c: Schedule, now: int) {
    || b == a
    || exists next: Option<int> :: (fault.transient ==> next.Some? && RetryAt(c, seen.attempts, now, next.value))
                      && b == Step(a, FailedOn(seen.observed, CodeOf(fault), next, fault.transient), c.maxAttempts)
  }

  /** The row is due from this time on, and not before. */
  ghost predicate DueFrom(row: PollRow<Observation>, at: int) { forall now :: Due(row, now) <==> at <= now }

  /** The failure has been counted. While attempts are left the row is due again after the delay, and
      nothing happens to the book; otherwise it never is, and the failure tag is on the book. */
  ghost predicate FailureTold(seen: PollRow<Observation>, row: Option<PollRow<Observation>>, fault: Fault, c: Schedule, cfg: Config, now: int, before: Server, after: Server) {
    && Counted(seen, row, fault, c, now)
    && if row.value.status == Retry then after == before else cfg.failedTag != "" ==> cfg.failedTag in after.book.tags
  }

  ghost predicate Counted(seen: PollRow<Observation>, row: Option<PollRow<Observation>>, fault: Fault, c: Schedule, now: int) {
    && row.Some? && row.value.observed == seen.observed && row.value.applied == seen.applied
    && row.value.attempts == seen.attempts + 1 && row.value.error == Some(CodeOf(fault))
    && if fault.transient && seen.attempts + 1 < c.maxAttempts then
         row.value.status == Retry && exists at :: RetryAt(c, seen.attempts, now, at) && DueFrom(row.value, at)
       else row.value.status == PollStatus.Failed && forall later :: !Due(row.value, later)
  }

  lemma FailureCounts(seen: PollRow<Observation>, row: Option<PollRow<Observation>>, fault: Fault, c: Schedule, now: int, next: Option<int>)
    requires seen.status in {Pending, Retry} && ValidSchedule(c)
    requires fault.transient ==> next.Some? && RetryAt(c, seen.attempts, now, next.value)
    requires row == Step(Some(seen), FailedOn(seen.observed, CodeOf(fault), next, fault.transient), c.maxAttempts)
    ensures Counted(seen, row, fault, c, now)
  {
    if fault.transient && seen.attempts + 1 < c.maxAttempts {
      assert DueFrom(row.value, next.value);
    }
  }

  // ---- Reconciling a due book ----

  /** The row after a report of success and the observation that follows it. */
  function Applied(seen: PollRow<Observation>, post: Observation, now: int): PollRow<Observation> {
    Observe(Step(Some(seen), Succeeded(seen.observed), 1), post, now)
  }

  /** What can become of the row of a book that was due: nothing, a failure, a success, or a success
      and an observation of the listing seen last. */
  ghost predicate Reported(seen: PollRow<Observation>, row: Option<PollRow<Observation>>, last: Option<Book>, cfg: Config,
                           fault: Fault, c: Schedule, now: int) {
    || Failing(Some(seen), row, seen, fault, c, now)
    || row == Step(Some(seen), Succeeded(seen.observed), 1)
    || (last.Some? && row == Some(Applied(seen, FingerprintOf(last.value, cfg), now)))
  }

  /** After a finished Sync: the held observation is applied, and the book observed again. Nobody
      else reports on this book meanwhile, so the success always finds the observation it names. */
  method ReportSuccess(w: World, store: Store, id: nat, run: Run, seen: PollRow<Observation>, c: Schedule, fault: Fault, now: int)
    requires w.OK() && ValidSchedule(c) && store.Row(id) == Some(seen)
    modifies w, store
    ensures w.OK() && OnlyTags(w) && w.rows == old(w.rows) && w.h.orders == old(w.h.orders)
    ensures forall j :: j != id ==> store.Row(j) == old(store.Row(j))
    ensures w.h.prior == old(w.h.prior) && Reported(seen, store.Row(id), w.h.listed, run.cfg, fault, c, now)
    ensures old(w.Quiet()) ==>
              && Here(w) == old(Here(w))
              && store.Row(id) == Some(Applied(seen, FingerprintOf(w.server.book, run.cfg), now))
  {
    var post := w.GetLibraryBook();
    if post.None? {
      RecordFailure(w, store, id, run, seen, c, fault, now);
      return;
    }
    var reached := w.LocalCheck();
    if !reached {
      RecordFailure(w, store, id, run, seen, c, fault, now);
      return;
    }
    var ok := store.MarkPollSuccess(id, seen.observed);
    reached := w.LocalCheck();
    if reached {
      store.UpsertPollObservation(id, FingerprintOf(post.value, run.cfg), now);
      assert store.Row(id) == Some(Applied(seen, FingerprintOf(post.value, run.cfg), now));
    }
    // An error here is reported as a failure, which a current row does not take.
  }

  /** Sync and the report. `fault` is what an error is taken for, whatever error comes up. */
  method ProcessLocked(w: World, store: Store, id: nat, run: Run, seen: PollRow<Observation>, c: Schedule, fault: Fault, now: int)
    returns (status: Status)
    requires w.OK() && w.u.Valid() && ValidRun(run) && !run.force && ValidSchedule(c) && store.Row(id) == Some(seen)
    modifies w, store
    ensures w.OK() && w.GoesOn() && w.h.orders == old(w.h.orders) + [OrdersOf(run)]
    ensures forall j :: j != id ==> store.Row(j) == old(store.Row(j))
    ensures w.h.prior == old(w.h.listed) && Reported(seen, store.Row(id), w.h.listed, run.cfg, fault, c, now)
    ensures status.Ignored? ==> store.Row(id) == Some(seen)
    ensures !Finished(status) && !status.Ignored? ==> Failing(Some(seen), store.Row(id), seen, fault, c, now)
    ensures old(w.Quiet()) ==> QuietEnd(w.u, w.stamps, run, seen, status, old(Now(w)), Here(w), store.Row(id), fault, c, now)
  {
    ghost var s := Now(w);
    status := Sync(w, run);
    if Finished(status) {
      ReportSuccess(w, store, id, run, seen, c, fault, now);
    } else if !status.Ignored? {
      RecordFailure(w, store, id, run, seen, c, fault, now);
    }
  }

  /** What a worker leaves when nothing fails around it: a finished or ignored Sync keeps its whole
      promise, the book has no new tag, and the row says what came of it. */
  ghost predicate QuietEnd(u: ArtifactName.Unicode, stamps: (nat, Sha) -> Stamp, run: Run, seen: PollRow<Observation>, status: Status, s: Start, e: Point,
                           row: Option<PollRow<Observation>>, fault: Fault, c: Schedule, now: int) {
    && (Finished(status) || status.Ignored? ==>
          Promised(u, stamps, run, status, s, e) && e.server.book.tags <= s.at.server.book.tags)
    && (WillComplete(u, run, s) ==> status.Completed?)
    && (status.Ignored? ==> HasTag(s.at.server.book.tags, run.cfg.ignoreTag) && row == Some(seen))
    && (Finished(status) ==> row == Some(Applied(seen, FingerprintOf(e.server.book, run.cfg), now)))
    && (!Finished(status) && !status.Ignored? && seen.status in {Pending, Retry} ==>
          exists before :: FailureTold(seen, row, fault, c, run.cfg, now, before, e.server))
  }

  // ---- One book in one scan ----

  /** What the scan did with the book. */
  datatype Visit = Unseen | Skipped | NotDue | Synced(status: Status)   // Unseen: something failed before the decision

  /** The failure tag is off the book, unless it is the ignore tag, too; the other tags are as they were. */
  ghost predicate FailureTagGone(cfg: Config, before: Server, after: Server) {
    && (cfg.failedTag != cfg.ignoreTag ==> !HasTag(after.book.tags, cfg.failedTag))
    && after.book.tags - {cfg.failedTag} == before.book.tags - {cfg.failedTag}
  }

  method ClearFailureTagForIgnored(w: World, cfg: Config, book: Book)
    requires w.OK() && w.h.failureTag == cfg.failedTag
    modifies w
    ensures w.OK() && TouchesNoWork(w) && w.rows == old(w.rows)
    ensures old(w.Quiet()) && book == old(w.server.book) ==> FailureTagGone(cfg, old(w.server), w.server)
  {
    if cfg.failedTag != "" && cfg.failedTag != cfg.ignoreTag && HasTag(book.tags, cfg.failedTag) {
      var ok := ClearFailureTag(w, cfg);
    }
  }

  /** The row of a book that has just been listed. */
  function Watched(row: Option<PollRow<Observation>>, fp: Observation, pending: bool, now: int): PollRow<Observation> {
    var observed := Observe(row, fp, now);
    if pending then Step(Some(observed), Requeued(fp), 1).value else observed
  }

  /** The observation is recorded, and a book whose store rows demand it is made due. */
  method Record(w: World, store: Store, id: nat, fp: Observation, pending: bool, now: int) returns (ready: bool)
    requires w.OK()
    modifies w, store
    ensures w.OnlyReads() && w.h == old(w.h)
    ensures forall j :: j != id ==> store.Row(j) == old(store.Row(j))
    ensures store.Row(id) in {old(store.Row(id)), Some(Watched(old(store.Row(id)), fp, false, now)), Some(Watched(old(store.Row(id)), fp, pending, now))}
    ensures ready ==> store.Row(id) == Some(Watched(old(store.Row(id)), fp, pending, now))
    ensures old(w.Quiet()) ==> ready
  {
    var reached := w.LocalCheck();
    if !reached {
      return false;
    }
    store.UpsertPollObservation(id, fp, now);
    if pending {
      reached := w.LocalCheck();
      if !reached {
        return false;
      }
      var ok := store.MarkPollPending(id, fp);
    }
    return true;
  }

  /** The row of the book as it is now. */
  ghost function WatchedNow(w: World, row: Option<PollRow<Observation>>, run: Run, now: int): PollRow<Observation>
    reads w
  {
    Watched(row, FingerprintOf(w.server.book, run.cfg), HasPendingReplacement(w.rows), now)
  }

  /** The row of a book after this listing of it. */
  function Observed(a: Option<PollRow<Observation>>, listed: Book, cfg: Config, rows: Rows, now: int): PollRow<Observation> {
    Watched(a, FingerprintOf(listed, cfg), HasPendingReplacement(rows), now)
  }

  /** Something failed before the decision: the row is as it was, observed, or observed and made due. */
  ghost predicate PerhapsObserved(a: Option<PollRow<Observation>>, b: Option<PollRow<Observation>>, listed: Option<Book>, cfg: Config, rows: Rows, now: int) {
    || b == a
    || (listed.Some? && b in {Some(Observed(a, listed.value, cfg, rows, now)), Some(Watched(a, FingerprintOf(listed.value, cfg), false, now))})
  }

  /** The book was observed and not due. */
  ghost predicate ObservedOnly(a: Option<PollRow<Observation>>, b: Option<PollRow<Observation>>, listed: Option<Book>, cfg: Config, rows: Rows, now: int) {
    listed.Some? && b == Some(Observed(a, listed.value, cfg, rows, now)) && !Due(b.value, now)
  }

  /** The book was observed and due, Sync began after that listing, and its end was reported for that
      observation, with a new one of the last listing if it was a success. */
  ghost predicate Worked(a: Option<PollRow<Observation>>, b: Option<PollRow<Observation>>, h: History, cfg: Config, rows: Rows,
                         fault: Fault, c: Schedule, now: int) {
    && h.prior.Some?
    && var seen := Observed(a, h.prior.value, cfg, rows, now);
       Due(seen, now) && Reported(seen, b, h.listed, cfg, fault, c, now)
  }

  /** The book has the ignore tag, and neither a phase is open nor a cleanup pending. */
  ghost predicate PassedOver(run: Run, at: Point) { HasTag(at.server.book.tags, run.cfg.ignoreTag) && at.rows.Row().pendingTag == "" && !at.rows.Row().inProgress }

  /** Lists the book and records the observation, unless the book is to be ignored. */
  method ObserveBook(w: World, store: Store, id: nat, run: Run, now: int) returns (visit: Visit, row: Option<PollRow<Observation>>)
    requires w.OK() && w.h.failureTag == run.cfg.failedTag
    modifies w, store
    ensures w.OK() && TouchesNoWork(w) && w.rows == old(w.rows)
    ensures forall j :: j != id ==> store.Row(j) == old(store.Row(j))
    ensures row.None? ==> visit.Unseen? || (visit.Skipped? && store.Row(id) == old(store.Row(id)) && !HasPendingReplacement(w.rows))
    ensures row.None? ==> PerhapsObserved(old(store.Row(id)), store.Row(id), w.h.listed, run.cfg, w.rows, now)
    ensures row.Some? ==>
              store.Row(id) == row && w.h.listed.Some? && row.value == Observed(old(store.Row(id)), w.h.listed.value, run.cfg, w.rows, now)
    ensures old(w.Quiet()) ==>
              && (row.None? ==> visit.Skipped? && FailureTagGone(run.cfg, old(w.server), w.server))
              && (row.None? <==> PassedOver(run, old(Here(w))))
              && (row.Some? ==> row.value == old(WatchedNow(w, store.Row(id), run, now)) && Here(w) == old(Here(w)))
  {
    var book := w.GetLibraryBook();
    if book.None? {
      return Unseen, None;
    }
    var read := w.ReadRows();
    if read.None? {
      return Unseen, None;
    }
    var pending := HasPendingReplacement(read.value);
    if HasTag(book.value.tags, run.cfg.ignoreTag) && !pending {
      ClearFailureTagForIgnored(w, run.cfg, book.value);
      return Skipped, None;
    }
    var ready := Record(w, store, id, FingerprintOf(book.value, run.cfg), pending, now);
    if !ready {
      return Unseen, None;
    }
    return Unseen, store.Row(id);
  }

  /** One scan, as far as one book is concerned. */
  method VisitBook(w: World, store: Store, id: nat, run: Run, c: Schedule, fault: Fault, now: int) returns (visit: Visit)
    requires w.OK() && w.u.Valid() && ValidRun(run) && !run.force && ValidSchedule(c)
    modifies w, store
    ensures w.OK() && w.GoesOn() && w.h.orders == if visit.Synced? then old(w.h.orders) + [OrdersOf(run)] else old(w.h.orders)
    ensures forall j :: j != id ==> store.Row(j) == old(store.Row(j))
    ensures !visit.Synced? ==> LeavesWork(w) && w.rows == old(w.rows)
    ensures visit.Skipped? ==> store.Row(id) == old(store.Row(id)) && !HasPendingReplacement(w.rows)
    ensures visit.Unseen? ==> PerhapsObserved(old(store.Row(id)), store.Row(id), w.h.listed, run.cfg, w.rows, now)
    ensures visit.NotDue? ==> ObservedOnly(old(store.Row(id)), store.Row(id), w.h.listed, run.cfg, w.rows, now)
    ensures visit.Synced? ==> Worked(old(store.Row(id)), store.Row(id), w.h, run.cfg, old(w.rows), fault, c, now)
    ensures old(w.Quiet()) ==> QuietVisit(w.u, w.stamps, run, old(WatchedNow(w, store.Row(id), run, now)), visit, old(Now(w)), Here(w), store.Row(id), fault, c, now)
  {
    w.Serve(run.cfg.failedTag);
    var row;
    visit, row := ObserveBook(w, store, id, run, now);
    if row.None? {
      return;
    }
    if !Due(row.value, now) {
      return NotDue;
    }
    var status := ProcessLocked(w, store, id, run, row.value, c, fault, now);
    return Synced(status);
  }

  /** What comes of a scan in which nothing fails: the book is passed over, which only costs it a
      failure tag, or observed; when it is due, Sync runs, and otherwise nothing happens to it. */
  ghost predicate QuietVisit(u: ArtifactName.Unicode, stamps: (nat, Sha) -> Stamp, run: Run, seen: PollRow<Observation>, visit: Visit, s: Start, e: Point,
                             row: Option<PollRow<Observation>>, fault: Fault, c: Schedule, now: int) {
    match visit
    case Unseen => false
    case Skipped => PassedOver(run, s.at) && FailureTagGone(run.cfg, s.at.server, e.server)
    case NotDue => !PassedOver(run, s.at) && e == s.at && row == Some(seen) && !Due(seen, now)
    case Synced(status) => !PassedOver(run, s.at) && Due(seen, now) && QuietEnd(u, stamps, run, seen, status, s, e, row, fault, c, now)
  }

  /** Nothing fails, and a scan does not pass the book over. */
  ghost predicate Watchable(w: World, run: Run, c: Schedule)
    reads w
  {
    w.OK() && w.u.Valid() && w.Quiet() && ValidRun(run) && !run.force && ValidSchedule(c) && !PassedOver(run, Here(w))
  }

  /** A change is never missed: a row that tells of another listing, and of a success, if of any, for
      another listing, too, does not keep the scan from calling Sync. */
  method ChangeIsSynced(w: World, store: Store, id: nat, run: Run, c: Schedule, fault: Fault, now: int, ghost told: Book, ghost done: Book) returns (visit: Visit)
    requires Watchable(w, run, c)
    requires !SameListing(told, w.server.book, run.cfg) && !SameListing(done, w.server.book, run.cfg)
    requires store.Row(id).Some? && store.Row(id).value.observed == FingerprintOf(told, run.cfg)
    requires store.Row(id).value.applied in {None, Some(FingerprintOf(done, run.cfg))}
    modifies w, store
    ensures visit.Synced? && w.h.orders == old(w.h.orders) + [OrdersOf(run)]
  {
    ObservationIsExact(told, w.server.book, run.cfg);
    ObservationIsExact(done, w.server.book, run.cfg);
    ghost var seen := WatchedNow(w, store.Row(id), run, now);
    assert Due(seen, now);
    visit := VisitBook(w, store, id, run, c, fault, now);
  }

  // ---- Convergence ----

  /** Observed as it is now, and current or due. */
  predicate Near(row: Option<PollRow<Observation>>, fp: Observation, now: int) {
    && row.Some? && row.value.observed == fp
    && (row.value.status == PollStatus.Current || (row.value.status == Pending && Due(row.value, now)))
  }

  predicate CurrentAt(row: Option<PollRow<Observation>>, fp: Observation) {
    row.Some? && row.value.observed == fp && row.value.status == PollStatus.Current
  }

  /** What a finished worker leaves: the book's present state, current if nothing moved under
      the worker, due at once otherwise. */
  lemma AppliedIsNear(seen: PollRow<Observation>, post: Observation, now: int, later: int)
    requires now <= later
    ensures Near(Some(Applied(seen, post, now)), post, later)
    ensures post == seen.observed ==> CurrentAt(Some(Applied(seen, post, now)), post)
  {
  }

  ghost predicate Polled(w: World, run: Run, c: Schedule, p: Policy)
    reads w
  {
    && w.OK() && w.u.Valid() && w.Quiet() && ValidRun(run) && run.policy == Some(p) && !run.force && ValidSchedule(c)
    && !HasTag(w.server.book.tags, run.cfg.ignoreTag)
  }

  /** The book is settled and polled. */
  ghost predicate Kept(w: World, run: Run, c: Schedule, p: Policy)
    reads w
  {
    Polled(w, run, c, p) && Settled(w.u, w.rows, w.server, p) && MainIsTruthful(w.server, p.main)
  }

  /** The first scan of a new book reconciles it. If that finishes, the book is settled, and at most
      one more look at it is due; otherwise the row says that it failed. It does finish, with every
      output in sync that needed work, unless something stands in its way. */
  method FirstScan(w: World, store: Store, id: nat, run: Run, c: Schedule, fault: Fault, p: Policy, now: int) returns (visit: Visit)
    requires Polled(w, run, c, p) && Healthy(w, p.main) && w.rows.book.None? && store.Row(id).None?
    requires CredibleServer(w.stamps, w.server) && MainIsTruthful(w.server, p.main)
    modifies w, store
    ensures visit.Synced? && w.OK() && w.Quiet() && w.h.orders == old(w.h.orders) + [OrdersOf(run)]
    ensures if Finished(visit.status) then
              Kept(w, run, c, p) && forall later :: now <= later ==> Near(store.Row(id), FingerprintOf(w.server.book, run.cfg), later)
            else store.Row(id).Some? && store.Row(id).value.status in {Retry, PollStatus.Failed}
    ensures FeasibleAt(w.u, run, p, old(Here(w))) ==> visit.status.Completed? && Fulfilled(w.u, run, p, old(Here(w)), w.rows, w.server)
  {
    ghost var seen, s := WatchedNow(w, None, run, now), Now(w);
    assert Due(seen, now) && seen.status == Pending;
    visit := VisitBook(w, store, id, run, c, fault, now);
    forall later | now <= later && visit.Synced? && Finished(visit.status) ensures Near(store.Row(id), FingerprintOf(w.server.book, run.cfg), later) {
      AppliedIsNear(seen, FingerprintOf(w.server.book, run.cfg), now, later);
    }
  }

  /** Over a settled book one more scan at most calls Sync, after it the row is current, and no
      later scan calls it again. */
  method LaterScans(w: World, store: Store, id: nat, run: Run, c: Schedule, fault: Fault, p: Policy, times: seq<int>) returns (visits: seq<Visit>)
    requires Kept(w, run, c, p)
    requires forall i :: 0 <= i < |times| ==> Near(store.Row(id), FingerprintOf(w.server.book, run.cfg), times[i])
    modifies w, store
    ensures |visits| == |times| && forall i :: 0 <= i < |visits| ==>
              if i == 0 && !CurrentAt(old(store.Row(id)), FingerprintOf(old(w.server).book, run.cfg)) then visits[i] == Synced(Completed) else visits[i] == NotDue
    ensures times != [] ==> CurrentAt(store.Row(id), FingerprintOf(w.server.book, run.cfg))
    ensures |w.h.orders| <= |old(w.h.orders)| + 1
    ensures Settled(w.u, w.rows, w.server, p) && w.server.book.files == old(w.server.book.files)
    ensures w.h.uploads == old(w.h.uploads) && w.h.deletes == old(w.h.deletes)
  {
    visits := [];
    ghost var current := CurrentAt(store.Row(id), FingerprintOf(w.server.book, run.cfg));
    for k := 0 to |times|
      invariant Kept(w, run, c, p)
      invariant k == 0 ==> w.server == old(w.server) && store.Row(id) == old(store.Row(id)) && w.h.orders == old(w.h.orders)
      invariant k > 0 ==> CurrentAt(store.Row(id), FingerprintOf(w.server.book, run.cfg))
      invariant |visits| == k && |w.h.orders| <= |old(w.h.orders)| + 1
      invariant forall i :: 0 <= i < k ==> if i == 0 && !current then visits[i] == Synced(Completed) else visits[i] == NotDue
      invariant w.server.book.files == old(w.server.book.files)
      invariant w.h.uploads == old(w.h.uploads) && w.h.deletes == old(w.h.deletes)
    {
      var visit := ScanSettled(w, store, id, run, c, fault, p, times[k]);
      visits := visits + [visit];
    }
  }

  /** What a scan in which nothing fails leaves of a settled book. */
  lemma SettledVisit(u: ArtifactName.Unicode, stamps: (nat, Sha) -> Stamp, run: Run, p: Policy, seen: PollRow<Observation>, visit: Visit, s: Start, e: Point,
                     row: Option<PollRow<Observation>>, fault: Fault, c: Schedule, now: int)
    requires QuietVisit(u, stamps, run, seen, visit, s, e, row, fault, c, now) && s.quiet && s.steady && ValidConfig(run.cfg)
    requires run.policy == Some(p) && !run.force && Settled(u, s.at.rows, s.at.server, p) && MainIsTruthful(s.at.server, p.main)
    requires !HasTag(s.at.server.book.tags, run.cfg.ignoreTag)
    ensures if Due(seen, now) then visit == Synced(Completed) && row == Some(Applied(seen, FingerprintOf(e.server.book, run.cfg), now))
            else visit == NotDue && row == Some(seen) && e == s.at
    ensures Settled(u, e.rows, e.server, p) && MainIsTruthful(e.server, p.main) && !HasTag(e.server.book.tags, run.cfg.ignoreTag)
    ensures e.server.book.files == s.at.server.book.files && e.uploads == s.at.uploads && e.deletes == s.at.deletes
    ensures FingerprintOf(e.server.book, run.cfg) == FingerprintOf(s.at.server.book, run.cfg)
  {
    if visit.Synced? {
      SameMainSameTruth(s.at.server, e.server, p.main);
      OperationalTagsDoNotCount(s.at.server.book, e.server.book, run.cfg);
    }
  }

  /** One scan over a settled book. */
  method ScanSettled(w: World, store: Store, id: nat, run: Run, c: Schedule, fault: Fault, p: Policy, now: int) returns (visit: Visit)
    requires Kept(w, run, c, p) && Near(store.Row(id), FingerprintOf(w.server.book, run.cfg), now)
    modifies w, store
    ensures Kept(w, run, c, p)
    ensures if CurrentAt(old(store.Row(id)), FingerprintOf(old(w.server).book, run.cfg))
            then visit == NotDue && w.h.orders == old(w.h.orders)
            else visit == Synced(Completed) && w.h.orders == old(w.h.orders) + [OrdersOf(run)]
    ensures CurrentAt(store.Row(id), FingerprintOf(w.server.book, run.cfg))
    ensures w.server.book.files == old(w.server.book.files)
    ensures w.h.uploads == old(w.h.uploads) && w.h.deletes == old(w.h.deletes)
  {
    ghost var s, row := Now(w), store.Row(id).value;
    ghost var fp := FingerprintOf(w.server.book, run.cfg);
    assert Watched(Some(row), fp, false, now) == row;
    visit := VisitBook(w, store, id, run, c, fault, now);
    SettledVisit(w.u, w.stamps, run, p, row, visit, s, Here(w), store.Row(id), fault, c, now);
    AppliedIsNear(row, fp, now, now);
  }

  /** A new book on a credible server, scanned again and again while nothing fails: unless the first
      Sync fails, which the row then says and which takes something in its way, at most two scans call Sync, the second only if the first
      changed the book; all later ones find the row current and leave the book alone, and the book is
      settled. */
  method PollNewBook(w: World, store: Store, id: nat, run: Run, c: Schedule, fault: Fault, p: Policy, now: int, times: seq<int>)
    returns (first: Visit, later: seq<Visit>)
    requires Polled(w, run, c, p) && Healthy(w, p.main) && w.rows.book.None? && store.Row(id).None?
    requires CredibleServer(w.stamps, w.server) && MainIsTruthful(w.server, p.main)
    requires forall i :: 0 <= i < |times| ==> now <= times[i]
    modifies w, store
    ensures first.Synced?
    ensures FeasibleAt(w.u, run, p, old(Here(w))) ==> first.status.Completed?
    ensures if Finished(first.status) then
              && |later| == |times| && |w.h.orders| <= |old(w.h.orders)| + 2
              && (forall i :: 0 <= i < |later| ==> later[i] == NotDue || (i == 0 && later[i] == Synced(Completed)))
              && Settled(w.u, w.rows, w.server, p)
              && (times != [] ==> CurrentAt(store.Row(id), FingerprintOf(w.server.book, run.cfg)))
            else
              && later == [] && |w.h.orders| == |old(w.h.orders)| + 1
              && store.Row(id).Some? && store.Row(id).value.status in {Retry, PollStatus.Failed}
  {
    first := FirstScan(w, store, id, run, c, fault, p, now);
    later := [];
    if Finished(first.status) {
      later := LaterScans(w, store, id, run, c, fault, p, times);
    }
  }

  // ---- Where it stops short ----

  /** The book is not to be ignored, nothing is pending, and its row is current. */
  ghost predicate Silent(w: World, store: Store, id: nat, run: Run, c: Schedule)
    reads w, store
  {
    && w.OK() && w.u.Valid() && w.Quiet() && ValidRun(run) && !run.force && ValidSchedule(c)
    && !HasTag(w.server.book.tags, run.cfg.ignoreTag) && !HasPendingReplacement(w.rows)
    && CurrentAt(store.Row(id), FingerprintOf(w.server.book, run.cfg))
  }

  method SilentScan(w: World, store: Store, id: nat, run: Run, c: Schedule, fault: Fault, now: int) returns (visit: Visit)
    requires Silent(w, store, id, run, c)
    modifies w, store
    ensures Silent(w, store, id, run, c) && visit == NotDue && Here(w) == old(Here(w)) && store.Row(id) == old(store.Row(id))
  {
    ghost var row := store.Row(id).value;
    assert Watched(Some(row), FingerprintOf(w.server.book, run.cfg), false, now) == row;
    visit := VisitBook(w, store, id, run, c, fault, now);
  }

  /** A book whose row is current is left alone by every later scan. */
  method SilentScans(w: World, store: Store, id: nat, run: Run, c: Schedule, fault: Fault, times: seq<int>) returns (visits: seq<Visit>)
    requires Silent(w, store, id, run, c)
    modifies w, store
    ensures |visits| == |times| && forall i :: 0 <= i < |visits| ==> visits[i] == NotDue
    ensures Here(w) == old(Here(w)) && store.Row(id) == old(store.Row(id))
  {
    visits := [];
    for k := 0 to |times|
      invariant Silent(w, store, id, run, c) && Here(w) == old(Here(w)) && store.Row(id) == old(store.Row(id))
      invariant |visits| == k && forall i :: 0 <= i < k ==> visits[i] == NotDue
    {
      var visit := SilentScan(w, store, id, run, c, fault, times[k]);
      visits := visits + [visit];
    }
  }

  /** The end of a completed cleanup whose tag was gone before. */
  lemma CleanupLeaves(u: ArtifactName.Unicode, stamps: (nat, Sha) -> Stamp, run: Run, p: Policy, s: Start, e: Point)
    requires Promised(u, stamps, run, Completed, s, e) && s.steady && ValidConfig(run.cfg)
    requires s.at.rows.Row().pendingTag != "" && s.at.rows.Row().pendingTag !in s.at.server.book.tags
    ensures !HasPendingReplacement(e.rows)
    ensures FingerprintOf(s.at.server.book, run.cfg) == FingerprintOf(e.server.book, run.cfg)
    ensures HasTag(s.at.server.book.tags, run.cfg.ignoreTag) == HasTag(e.server.book.tags, run.cfg.ignoreTag)
    ensures Settled(u, e.rows, e.server, p) <==> NothingToDo(u, s.at.rows, s.at.server, p)
  {
    OperationalTagsDoNotCount(s.at.server.book, e.server.book, run.cfg);
    CleanupSettles(u, stamps, run, p, Completed, s, e);
  }

  /** A current row is due again when something is pending, and current again after that. */
  lemma PendingIsDue(row: Option<PollRow<Observation>>, fp: Observation, now: int)
    requires row.None? || row.value.status == PollStatus.Current
    ensures var seen := Watched(row, fp, true, now); Due(seen, now) && CurrentAt(Some(Applied(seen, fp, now)), fp)
  {
    assert Watched(row, fp, true, now).observed == fp;
  }

  /** The scan that finds it. */
  method CleanupScan(w: World, store: Store, id: nat, run: Run, c: Schedule, fault: Fault, p: Policy, now: int) returns (visit: Visit)
    requires Polled(w, run, c, p) && w.rows.Row().pendingTag != "" && w.rows.Row().pendingTag !in w.server.book.tags
    requires store.Row(id).None? || store.Row(id).value.status == PollStatus.Current
    modifies w, store
    ensures visit == Synced(Completed) && Silent(w, store, id, run, c)
    ensures Settled(w.u, w.rows, w.server, p) <==> NothingToDo(w.u, old(w.rows), old(w.server), p)
  {
    ghost var s := Now(w);
    PendingIsDue(store.Row(id), FingerprintOf(w.server.book, run.cfg), now);
    visit := VisitBook(w, store, id, run, c, fault, now);
    CleanupLeaves(w.u, w.stamps, run, p, s, Here(w));
  }

  /** A pending cleanup whose tag is already gone: the scan that finishes it marks the book
      current, whether or not its outputs are, and no later scan looks again. The outputs are then
      current exactly when they were before. */
  method CleanupThenSilence(w: World, store: Store, id: nat, run: Run, c: Schedule, fault: Fault, p: Policy, now: int, times: seq<int>)
    returns (first: Visit, later: seq<Visit>)
    requires Polled(w, run, c, p) && w.rows.Row().pendingTag != "" && w.rows.Row().pendingTag !in w.server.book.tags
    requires store.Row(id).None? || store.Row(id).value.status == PollStatus.Current
    modifies w, store
    ensures first == Synced(Completed)
    ensures |later| == |times| && forall i :: 0 <= i < |later| ==> later[i] == NotDue
    ensures CurrentAt(store.Row(id), FingerprintOf(w.server.book, run.cfg))
    ensures Settled(w.u, w.rows, w.server, p) <==> NothingToDo(w.u, old(w.rows), old(w.server), p)
  {
    first := CleanupScan(w, store, id, run, c, fault, p, now);
    later := SilentScans(w, store, id, run, c, fault, times);
  }
}
