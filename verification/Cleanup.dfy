/** The end of a run: the one-shot replacement tag is spent, and the whole row is written
    (service.go: clearReplacementTag, finishPendingReplacementCleanup, the tails of Sync and
    createMissingMain). */
module Cleanup {
  import opened Inventory
  import opened Checkpoints
  import opened World
  import opened Recovery
  import Safety
  import opened Loop

  // ---- What a run has changed since it began ----

  /** What a run changes that matters, at one moment; `used` are the tags that its commits used. */
  datatype Point = Point(rows: Rows, server: Server, uploads: seq<UploadRecord>, deletes: seq<DeleteRecord>, used: set<string>)

  /** The state a run starts from, and how its environment will behave. */
  datatype Start = Start(at: Point, steady: bool, quiet: bool)

  ghost function Here(w: World): Point
    reads w
  {
    Point(w.rows, w.server, w.h.uploads, w.h.deletes, w.h.used)
  }

  ghost function Now(w: World): Start
    reads w
  {
    Start(Here(w), w.Steady(), w.Quiet())
  }

  /** Nothing has happened since but reading, and perhaps a note of the canonical source. */
  ghost predicate NearlyAt(w: World, s: Start)
    reads w
  {
    && NoWorkSince(Here(w), s)
    && (s.steady ==> w.Steady() && w.server == s.at.server && Limited(w, s)) && (s.quiet ==> w.Quiet())
  }

  /** The book can have no tags but those it had at the start. */
  ghost predicate Limited(w: World, s: Start)
    reads w
  {
    w.Bounded() && w.bound == s.at.server.book.tags
  }

  /** Nothing has happened since but reading. */
  ghost predicate StillAt(w: World, s: Start)
    reads w
  {
    w.rows == s.at.rows && NearlyAt(w, s)
  }

  ghost predicate NoWorkSince(e: Point, s: Start) {
    && e.rows.derived == s.at.rows.derived && e.rows.intents == s.at.rows.intents
    && e.uploads == s.at.uploads && e.deletes == s.at.deletes
    && (s.steady ==> e.server.book.files == s.at.server.book.files && e.server.nextId == s.at.server.nextId)
  }

  /** No work was touched, and of the tags at most this one. */
  ghost predicate Idle(e: Point, s: Start, failedTag: string) {
    NoWorkSince(e, s) && (s.steady ==> e.server.book.tags - {failedTag} == s.at.server.book.tags - {failedTag})
  }

  // ---- The same, of one step ----

  /** Neither derivatives nor intents nor, as far as this run goes, files are touched. */
  twostate predicate LeavesWork(w: World)
    reads w
  {
    && w.rows.derived == old(w.rows.derived) && w.rows.intents == old(w.rows.intents)
    && w.h.uploads == old(w.h.uploads) && w.h.deletes == old(w.h.deletes) && w.h.used == old(w.h.used)
    && (old(w.Steady()) ==> w.server.book.files == old(w.server.book.files) && w.server.nextId == old(w.server.nextId))
  }

  twostate predicate TouchesNoWork(w: World)
    reads w
  {
    w.Goes() && w.Remembers() && LeavesWork(w)
  }

  /** The book's tags are as they were, this one aside. */
  twostate predicate KeepsTags(w: World, but: string)
    reads w
  {
    old(w.Steady()) ==> w.server.book.tags - {but} == old(w.server.book.tags) - {but}
  }

  /** The book gets no tag. */
  twostate predicate OnlyDrops(w: World)
    reads w
  {
    old(w.Steady()) ==> w.server.book.tags <= old(w.server.book.tags)
  }

  /** Writes the whole row, which is allowed only when that changes no phase column. */
  method WriteBook(w: World, value: BookRow) returns (ok: bool)
    requires w.OK() && SamePhase(w.rows.Row(), value)
    modifies w
    ensures w.OK() && TouchesNoWork(w) && w.LeavesServer() && w.h == old(w.h)
    ensures w.rows == old(w.rows) || w.rows == SetBook(old(w.rows), value)
    ensures ok ==> w.rows == SetBook(old(w.rows), value) && !w.crashed
    ensures old(w.Quiet()) ==> ok
  {
    Safety.SetBookKeepsGood(w.rows, w.h, value);
    ghost var did;
    ok, did := w.SetBook(value);
  }

  /** The process may remove this tag: its failure tag, or the tag of a pending cleanup. */
  ghost predicate Removable(w: World, tag: string)
    reads w
  {
    tag != "" && (tag == w.h.failureTag || tag == w.rows.Row().pendingTag)
  }

  method DropTag(w: World, tag: string) returns (ok: bool)
    requires w.OK() && Removable(w, tag)
    modifies w
    ensures w.OK() && TouchesNoWork(w) && w.rows == old(w.rows) && KeepsTags(w, tag)
    ensures OnlyDrops(w) && w.h.sights == old(w.h.sights)
    ensures old(w.Quiet()) ==> ok
    ensures old(w.Steady()) && ok ==> tag !in w.server.book.tags
  {
    Safety.RemovalKeepsGood(w.rows, w.h, TagRemoval(tag, w.h.failureTag, w.rows));
    ok := w.RemoveTag(tag);
  }

  /** The removal may have happened although it was reported as failed: the tag is put back. */
  method RestoreTag(w: World, tag: string) returns (ok: bool)
    requires w.OK()
    modifies w
    ensures w.OK() && w.GoesOn() && w.Remembers() && LeavesWork(w) && w.rows == old(w.rows) && w.h == old(w.h)
    ensures old(w.Bounded()) ==> w.Bounded() && (old(w.Steady()) ==> w.bound == old(w.bound) + {tag})
    ensures old(w.Contained()) && tag in w.limit ==> w.Contained()
    ensures old(w.Steady()) && ok ==> w.server.book.tags == old(w.server.book.tags) + {tag}
  {
    ok := w.AddTag(tag);
  }

  lemma TagBack(a: set<string>, b: set<string>, tag: string)
    ensures tag in a && b - {tag} == a - {tag} ==> b + {tag} == a
  {
    if tag in a && b - {tag} == a - {tag} {
      assert a == (a - {tag}) + {tag} && b + {tag} == (b - {tag}) + {tag};
    }
  }

  /** Removes the tag and looks whether it is gone and the files are as expected. */
  method DropConfirmed(w: World, expected: Book, tag: string) returns (ok: bool)
    requires w.OK() && Removable(w, tag)
    modifies w
    ensures w.OK() && TouchesNoWork(w) && w.rows == old(w.rows) && KeepsTags(w, tag)
    ensures old(w.Quiet()) && SameInventory(old(w.server.book.files), expected.files) ==> ok
    ensures old(w.Steady()) && ok ==> tag !in w.server.book.tags
    ensures ok ==> exists b: Book :: w.h.sights == old(w.h.sights) + [SawBook(b)] && SameInventory(b.files, expected.files)
  {
    ok := DropTag(w, tag);
    if !ok {
      return;
    }
    var after := w.GetLibraryBook();
    if after.None? {
      return false;
    }
    ok := SameFileInventory(after.value.files, expected.files);
  }

  /** The expected files were listed without the tag, or before its removal and once more after it. */
  ghost predicate SeenCleared(before: seq<Sight>, after: seq<Sight>, expected: Book, tag: string) {
    exists a: Book :: SameInventory(a.files, expected.files) &&
      if !HasTag(a.tags, tag) then after == before + [SawBook(a)]
      else exists b: Book :: after == before + [SawBook(a)] + [SawBook(b)] && SameInventory(b.files, expected.files)
  }

  /** Removes the spent tag only while its pending marker is durable. When that cannot be
      confirmed the tag is back afterwards, unless putting it back fails, too (`kept` is false). */
  method ClearReplacementTag(w: World, expected: Book, tag: string) returns (ok: bool, kept: bool)
    requires w.OK() && tag != "" && w.rows.Row().pendingTag == tag
    modifies w
    ensures old(w.Steady()) && !ok && kept ==> w.server.book.tags == old(w.server.book.tags)
    ensures ok ==> SeenCleared(old(w.h.sights), w.h.sights, expected, tag)
    ensures old(w.Steady()) && ok && SameInventory(old(w.server.book.files), expected.files) ==> tag !in w.server.book.tags
    ensures w.OK() && TouchesNoWork(w) && w.rows == old(w.rows)
    ensures old(w.Quiet()) && SameInventory(old(w.server.book.files), expected.files) ==> ok
    ensures old(w.Steady()) && tag !in old(w.server.book.tags) ==> w.server == old(w.server)
  {
    kept := true;
    var current := w.GetLibraryBook();
    if current.None? {
      return false, true;
    }
    var same := SameFileInventory(current.value.files, expected.files);
    if !same {
      return false, true;
    }
    if !HasTag(current.value.tags, tag) {
      return true, true;
    }
    ghost var tags, bound := w.server.book.tags, w.bound;
    ok := DropConfirmed(w, expected, tag);
    TagBack(tags, w.server.book.tags, tag);
    if !ok {
      assert tag in w.h.usable;
      kept := RestoreTag(w, tag);
      TagBack(bound, bound, tag);
    }
  }

  method ClearFailureTag(w: World, cfg: Config) returns (ok: bool)
    requires w.OK() && w.h.failureTag == cfg.failedTag
    modifies w
    ensures w.OK() && TouchesNoWork(w) && w.rows == old(w.rows) && KeepsTags(w, cfg.failedTag) && OnlyDrops(w) && w.h.sights == old(w.h.sights)
    ensures old(w.Quiet()) ==> ok
    ensures old(w.Steady()) && ok ==> !HasTag(w.server.book.tags, cfg.failedTag)
  {
    if cfg.failedTag == "" {
      return true;
    }
    ok := DropTag(w, cfg.failedTag);
  }

  method MarkPendingTag(w: World, tag: string) returns (ok: bool)
    requires w.OK() && tag != "" && w.rows.book.Some? && !w.rows.Row().inProgress
    modifies w
    ensures w.OK() && TouchesNoWork(w) && w.LeavesServer() && w.h == old(w.h)
    ensures w.rows == old(w.rows) || MarkPending(old(w.rows), tag) == Some(w.rows)
    ensures ok ==> MarkPending(old(w.rows), tag) == Some(w.rows)
    ensures old(w.Quiet()) && old(w.rows.Row().ipTag) == tag ==> ok
  {
    if MarkPending(w.rows, tag).Some? { Safety.MarkPendingKeepsGood(w.rows, w.h, tag); }
    ghost var did;
    ok, did := w.MarkPendingReplacementCleanup(tag);
  }

  method ClearPendingTag(w: World, tag: string) returns (ok: bool)
    requires w.OK() && tag != ""
    modifies w
    ensures w.OK() && TouchesNoWork(w) && w.LeavesServer() && w.h == old(w.h)
    ensures w.rows == old(w.rows) || ClearPending(old(w.rows), tag) == Some(w.rows)
    ensures ok ==> ClearPending(old(w.rows), tag) == Some(w.rows)
    ensures old(w.Quiet()) ==> ok
  {
    Safety.ClearPendingKeepsGood(w.rows, w.h, tag);
    ghost var did;
    ok, did := w.ClearPendingReplacementTag(tag);
  }

  /** How far a resting row got: not written, written, or without its marker, too. */
  predicate RestedFrom(a: Rows, b: Rows, final: BookRow, done: bool) {
    || b == SetBook(a, final.(pendingTag := ""))
    || (!done && (b == a || b == SetBook(a, final)))
  }

  lemma RestedIsBased(a: Rows, b: Rows, final: BookRow, job: Job, done: bool)
    requires a.book.Some? && RestedFrom(a, b, final, done) && Based(a.Row(), job) && Based(final, job) && !a.Row().inProgress && !final.inProgress
    ensures b.book.Some? && Based(b.Row(), job) && !b.Row().inProgress
  {
  }

  /** Writes the row of a completed run, clears the marker of a spent tag and the failure tag. */
  method RestRow(w: World, cfg: Config, final: BookRow) returns (status: Ending)
    requires w.OK() && w.h.failureTag == cfg.failedTag && w.rows.book.Some? && SamePhase(w.rows.Row(), final)
    modifies w
    ensures w.OK() && TouchesNoWork(w) && KeepsTags(w, cfg.failedTag) && OnlyDrops(w) && w.h.sights == old(w.h.sights)
    ensures RestedFrom(old(w.rows), w.rows, final, Finished(status))
    ensures old(w.Quiet()) ==> status.Completed?
    ensures old(w.Steady()) && status.Completed? ==> !HasTag(w.server.book.tags, cfg.failedTag)
  {
    var ok := WriteBook(w, final);
    if !ok {
      return Partial;
    }
    if final.pendingTag != "" {
      ok := ClearPendingTag(w, final.pendingTag);
      if !ok {
        return Partial;
      }
    }
    ok := ClearFailureTag(w, cfg);
    return if ok then Completed else TagLeft;
  }

  /** Removes the tag whose marker is on record, and then rests the row. */
  method ClearAndRest(w: World, cfg: Config, book: Book, final: BookRow, ghost s: Start) returns (status: Ending)
    requires w.OK() && w.h.failureTag == cfg.failedTag && w.rows.book.Some? && SamePhase(w.rows.Row(), final) && final.pendingTag != ""
    requires StillAt(w, s)
    modifies w
    ensures w.OK() && w.Goes() && w.Remembers() && NoWorkSince(Here(w), s)
    ensures RestedFrom(s.at.rows, w.rows, final, Finished(status))
    ensures s.steady && Finished(status) && SameInventory(s.at.server.book.files, book.files) ==> final.pendingTag !in w.server.book.tags
    ensures s.steady && status.Completed? ==> !HasTag(w.server.book.tags, cfg.failedTag)
    ensures s.quiet && SameInventory(s.at.server.book.files, book.files) && s.steady ==> status.Completed?
    ensures s.steady && final.pendingTag !in s.at.server.book.tags ==> Idle(Here(w), s, cfg.failedTag)
  {
    status := Partial;
    var ok, kept := ClearReplacementTag(w, book, final.pendingTag);
    if ok {
      status := RestRow(w, cfg, final);
    }
  }

  /** A run that finds a pending tag does the cleanup and no derivative work at all. However it
      ends, the canonical columns stay and the marker is there or has been cleared. */
  method FinishPendingReplacementCleanup(w: World, cfg: Config, book: Book, saved: BookRow, ghost s: Start) returns (status: Ending)
    requires w.OK() && w.rows.book == Some(saved) && saved.pendingTag != "" && w.h.failureTag == cfg.failedTag && StillAt(w, s)
    modifies w
    ensures w.OK() && w.Goes() && w.Remembers() && NoWorkSince(Here(w), s)
    ensures RestedFrom(s.at.rows, w.rows, saved, Finished(status))
    ensures s.steady && Finished(status) && SameInventory(s.at.server.book.files, book.files) ==> saved.pendingTag !in w.server.book.tags
    ensures s.steady && status.Completed? ==> !HasTag(w.server.book.tags, cfg.failedTag)
    ensures s.quiet && SameInventory(s.at.server.book.files, book.files) && s.steady ==> status.Completed?
    ensures s.steady && saved.pendingTag !in s.at.server.book.tags ==> Idle(Here(w), s, cfg.failedTag)
  {
    assert saved.(ipTag := "", inProgress := false) == saved;
    status := ClearAndRest(w, cfg, book, saved.(ipTag := "", inProgress := false), s);
  }

  /** Spends the tag of this run: the pending marker becomes durable before the tag goes. */
  method SpendTag(w: World, completion: Book, tag: string) returns (ok: bool)
    requires w.OK() && tag != "" && w.rows.book.Some? && !w.rows.Row().inProgress
    modifies w
    ensures w.OK() && TouchesNoWork(w)
    ensures w.rows == old(w.rows) || MarkPending(old(w.rows), tag) == Some(w.rows)
    ensures ok ==> MarkPending(old(w.rows), tag) == Some(w.rows) && SeenCleared(old(w.h.sights), w.h.sights, completion, tag)
    ensures old(w.Steady()) && ok && SameInventory(old(w.server.book.files), completion.files) ==> tag !in w.server.book.tags
    ensures old(w.Quiet()) && old(w.rows.Row().ipTag) == tag && SameInventory(old(w.server.book.files), completion.files) ==> ok
  {
    ok := MarkPendingTag(w, tag);
    if ok {
      var kept;
      ok, kept := ClearReplacementTag(w, completion, tag);
    }
  }

  /** The book was listed once more with the expected files; and if there was a tag to spend, that
      was seen gone after it. */
  ghost predicate SeenComplete(before: seq<Sight>, after: seq<Sight>, vol: Vol) {
    exists b: Book :: SameInventory(b.files, vol.expected.files) &&
      if vol.pendingCleanup == "" then after == before + [SawBook(b)]
      else SeenCleared(before + [SawBook(b)], after, b, vol.pendingCleanup)
  }

  /** The tail of both loops. The row read when the run began may be written back whole: no
      phase column that this run changed is erased. However it ends, a tag that is not the failure
      tag went only under its durable marker (RemovalsOK). */
  method Finish(w: World, job: Job, vol: Vol, canonical: BookRow) returns (status: Ending)
    requires Synced(w, job, vol) && !vol.inProgress && w.h.failureTag == job.cfg.failedTag && Based(canonical, job)
    requires canonical.pendingTag == "" && (canonical.ipTag != "" ==> vol.ipTag != "")
    modifies w
    ensures w.OK() && TouchesNoWork(w) && RemovalsOK(w.h)
    ensures Finished(status) ==> w.rows.book == Some(canonical.(pendingTag := "", ipTag := "", inProgress := false))
    ensures w.rows.book.Some? && !w.rows.Row().inProgress && Based(w.rows.Row(), job)
    ensures Finished(status) ==> SeenComplete(old(w.h.sights), w.h.sights, vol)
    ensures old(w.Steady()) && Finished(status) ==> !HasTag(w.server.book.tags, vol.pendingCleanup)
    ensures old(w.Steady()) && status.Completed? ==> !HasTag(w.server.book.tags, job.cfg.failedTag)
    ensures vol.pendingCleanup == "" ==> KeepsTags(w, job.cfg.failedTag)
    ensures vol.pendingCleanup == "" ==> w.rows == old(w.rows) || w.rows == SetBook(old(w.rows), canonical.(inProgress := false))
    ensures old(w.Quiet()) && vol.expected.files == old(w.server.book.files) ==> status.Completed?
  {
    var completion := w.GetLibraryBook();
    if completion.None? {
      return Partial;
    }
    var ok := SameFileInventory(completion.value.files, vol.expected.files);
    if !ok {
      return Partial;
    }
    var final := canonical.(inProgress := false);
    if vol.pendingCleanup != "" {
      ok := SpendTag(w, completion.value, vol.pendingCleanup);
      if !ok {
        return Partial;
      }
      final := final.(pendingTag := vol.pendingCleanup, ipTag := "");
    }
    ghost var rows := w.rows;
    status := RestRow(w, job.cfg, final);
    RestedIsBased(rows, w.rows, final, job, Finished(status));
  }
}
