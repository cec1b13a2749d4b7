/** One run from an empty store, step by step with the methods of Sync, to the point where only the
    cleanup is left; then the process dies and somebody removes the file it has just committed. */
module Interruption {
  import opened Inventory
  import opened Checkpoints
  import opened ArtifactName
  import opened Planner
  import opened World
  import Recovery
  import Upload
  import Derivative
  import opened Loop
  import Cleanup
  import opened Reconcile
  import Runs

  /** A new book for which a run replaces a file: the main file c, and x in the way of the only
      output, which the book has the replacement tag for. */
  ghost predicate Replacement(u: Unicode, rows: Rows, server: Server, run: Run, p: Policy, c: File, x: File) {
    && u.Valid() && rows == EMPTY && ValidRun(run) && run.policy == Some(p) && !run.force && !run.cfg.replacePolicy
    && p.outputs == [x.format] && c.format == p.main
    && server.book.files == [c, x] && IdsBelow(server) && c.id != 0 && x.id != 0 && c.id != x.id
    && TruthfulMain(server, p.main, c)
    && HasTag(server.book.tags, run.cfg.replacementTag) && !HasTag(server.book.tags, run.cfg.ignoreTag)
  }

  lemma ReplacementFiles(u: Unicode, rows: Rows, server: Server, run: Run, p: Policy, c: File, x: File)
    requires Replacement(u, rows, server, run, p, c, x)
    ensures var files := server.book.files;
            && FilesFor(files, p.main) == [c] && FilesFor(files, x.format) == [x] && UniqueIds(files)
            && FindFile(files, p.main) == Some(c) && FindFile(files, x.format) == Some(x)
  {
    assert p.outputs[0] != p.main;
    assert [c, x][1..] == [x] && [x][1..] == [];
    assert FilesFor([x], x.format) == [x] && FilesFor([x], p.main) == [];
    FindOnly(server.book.files, p.main, c);
    FindOnly(server.book.files, x.format, x);
  }

  /** There are such books. */
  lemma SomeReplacement(u: Unicode) returns (server: Server, run: Run, p: Policy, c: File, x: File)
    requires u.Valid()
    ensures Replacement(u, EMPTY, server, run, p, c, x)
  {
    c, x := File(1, "", "m", "", 1, None, None, 7), File(2, "", "f", "", 1, None, None, 8);
    server, p := Server(Book([c, x], {"r"}), 3), Policy("m", [], ["f"]);
    run := Run(Config("", "", "r", false), Some(p), false);
    assert ValidFormat("m") && ValidFormat("f") && "m"[0] != "f"[0];
    assert FilesFor([c, x], "m")[0] == c;
  }

  /** The run has planned: the output is to be rebuilt, for which x has to go. */
  ghost predicate Planned(w: World, run: Run, p: Policy, c: Course, server: Server, x: File)
    reads w
  {
    && Queued(w, c) && w.Quiet() && w.server == server && c.vol == FirstVol(server.book, w.rows.Row()) && w.rows.intents == map[]
    && !c.vol.inProgress && c.vol.ipTag == "" && c.job.cfg == run.cfg && !c.job.force && c.job.main == p.main
    && Upload.Alone(w, c.job, server.book) && Sourced(w.u, c.job, server)
    && c.plans != [] && c.plans[0].format == x.format && c.plans[0].blocked
  }

  lemma OutputIsBlocked(u: Unicode, t: Task, c: Course, x: File)
    requires PlansOf(c.plans, TaskBasis(u, t), t.book.files, [x.format]) && t.saved == map[] && FindFile(t.book.files, x.format) == Some(x)
    ensures c.plans != [] && c.plans[0].format == x.format && c.plans[0].blocked
  {
    PlanShape(TaskBasis(u, t), t.book.files, x.format);
    assert x.format in [x.format] && PlanFor(TaskBasis(u, t), t.book.files, x.format) in c.plans;
    assert c.plans[0] in c.plans;
  }

  /** Sync as far as its plan: the book, the rows, the library, the intents, the canonical source. No
      cleanup is pending, the book is not to be ignored, and nothing fails, so no branch leaves before. */
  method SyncToPlan(w: World, run: Run, p: Policy, c: File, x: File) returns (course: Course)
    requires w.OK() && w.Quiet() && Replacement(w.u, w.rows, w.server, run, p, c, x)
    modifies w
    ensures Planned(w, run, p, course, old(w.server), x) && w.h.orders == old(w.h.orders) + [OrdersOf(run)]
  {
    ReplacementFiles(w.u, w.rows, w.server, run, p, c, x);
    w.BeginRun(OrdersOf(run));
    var book := w.GetLibraryBook();
    var read := w.ReadRows();
    var reached := w.LocalCheck();
    var intents := w.ReadRows();
    var task := RecordSource(w, run, p, book.value, read.value, c);
    UndisturbedIsCalm(w, task.value);
    var ready;
    course, ready := PlanRun(w, task.value);
    OutputIsBlocked(w.u, task.value, course, x);
    PhaseHasOneOwner(w.rows);
  }

  /** The plan may be carried out under the replacement tag. */
  lemma PlannedIsStartable(w: World, run: Run, p: Policy, c: Course, server: Server, m: File, x: File)
    requires Planned(w, run, p, c, server, x) && Replacement(w.u, EMPTY, server, run, p, m, x)
    ensures Derivative.Startable(w, c.job, c.plans[0], Some(x), server.book, run.cfg.replacementTag, None, false)
  {
    ReplacementFiles(w.u, EMPTY, server, run, p, m, x);
    var plan := c.plans[0];
    assert AttemptTag(c.job, plan, Some(x), c.vol) == run.cfg.replacementTag;
    assert Upload.Working(w, c.job, x.format) && Rebuildable(w, c.job, plan, None, c.vol);
    RebuildStarts(w, c.job, plan, None, c.vol, Some(x), run.cfg.replacementTag);
  }

  /** Undisturbed, it is sure to succeed. */
  lemma TaggedIsReplaceable(u: Unicode, server: Server, run: Run, p: Policy, job: Recovery.Job, plan: Plan, m: File, x: File)
    requires Replacement(u, EMPTY, server, run, p, m, x) && Sourced(u, job, server)
    requires job.cfg == run.cfg && job.main == p.main && plan.format == x.format
    ensures Upload.Unambiguous(job, plan, x, server.book) && Recovery.Replaceable(job, server.book, x.format, x, false)
  {
    ReplacementFiles(u, EMPTY, server, run, p, m, x);
  }

  lemma PlannedIsFinishable(w: World, run: Run, p: Policy, c: Course, server: Server, m: File, x: File)
    requires Planned(w, run, p, c, server, x) && Replacement(w.u, EMPTY, server, run, p, m, x)
    ensures Derivative.Finishable(w, c.job, c.plans[0], Some(x), server.book, false)
  {
    TaggedIsReplaceable(w.u, server, run, p, c.job, c.plans[0], m, x);
  }

  /** The book waits for a cleanup, with its output f committed and in place. */
  ghost predicate Waiting(w: World, run: Run, f: Format)
    reads w
  {
    && w.OK() && w.Quiet() && w.rows.Row().pendingTag == run.cfg.replacementTag && !w.rows.Row().inProgress
    && f in w.rows.derived && |FilesFor(w.server.book.files, f)| == 1
    && FilesFor(w.server.book.files, f)[0].id == w.rows.derived[f].fileId
  }

  /** The planned output is converted, put in place of x, verified and committed. */
  method Replace(w: World, run: Run, p: Policy, c: Course, m: File, x: File) returns (verified: Book)
    requires Planned(w, run, p, c, w.server, x) && Replacement(w.u, EMPTY, w.server, run, p, m, x)
    modifies w
    ensures w.OK() && w.Quiet() && w.h.orders == old(w.h.orders)
    ensures Derivative.Closed(old(w.rows), w.rows, x.format, run.cfg.replacementTag) && Derivative.Committed(w.u, c.job, w.rows, w.server, x.format)
    ensures FilesFor(w.server.book.files, x.format)[0].id != x.id
  {
    ghost var server := w.server;
    PlannedIsStartable(w, run, p, c, server, m, x);
    PlannedIsFinishable(w, run, p, c, server, m, x);
    var output := w.Convert();
    var destructive, stored := Derivative.UploadAndCommit(w, c.job, c.plans[0], Some(x), c.vol.expected, output.value, run.cfg.replacementTag, None, false);
    return stored.value;
  }

  /** Then the tag is marked for its cleanup. */
  method ReplaceAndMark(w: World, run: Run, p: Policy, c: Course, m: File, x: File)
    requires Planned(w, run, p, c, w.server, x) && Replacement(w.u, EMPTY, w.server, run, p, m, x)
    modifies w
    ensures Waiting(w, run, x.format) && w.h.orders == old(w.h.orders) && FilesFor(w.server.book.files, x.format)[0].id != x.id
  {
    var verified := Replace(w, run, p, c, m, x);
    var completion := w.GetLibraryBook();
    var same := SameFileInventory(completion.value.files, verified.files);
    var marked := Cleanup.MarkPendingTag(w, run.cfg.replacementTag);
  }

  /** From an empty store a run gets as far as the durable marker of its cleanup: it has replaced x
      and committed its output, by the methods that Sync goes through. */
  method PendingIsReachable(u: Unicode, stamps: (nat, Sha) -> Stamp, calibre: nat -> Sha, server: Server, run: Run, p: Policy, c: File, x: File)
    returns (w: World)
    requires Replacement(u, EMPTY, server, run, p, c, x)
    ensures fresh(w) && w.u == u && Waiting(w, run, x.format) && w.h.orders == [OrdersOf(run)]
    ensures FilesFor(w.server.book.files, x.format)[0].id != x.id
  {
    w := new World(u, stamps, calibre, server, {});
    var course := SyncToPlan(w, run, p, c, x);
    ReplaceAndMark(w, run, p, course, c, x);
  }

  lemma OthersHaveNone(files: seq<File>, f: Format)
    ensures FilesFor(Others(files, f), f) == []
  {
    if FilesFor(Others(files, f), f) != [] {
      var x := FilesFor(Others(files, f), f)[0];
      InFilters(Others(files, f), f, x);
      InFilters(files, f, x);
      assert false;
    }
  }

  /** The process dies, and somebody removes all files of format f. */
  method LoseFiles(w: World, run: Run, f: Format)
    requires Waiting(w, run, f)
    modifies w
    ensures w.OK() && w.rows == old(w.rows) && w.h.orders == old(w.h.orders) && FilesFor(w.server.book.files, f) == []
  {
    OthersHaveNone(w.server.book.files, f);
    w.Restart([Turn(Fine, Some(w.server.(book := w.server.book.(files := Others(w.server.book.files, f)))))]);
    var fate := w.NextTurn();
  }

  /** Then the next run, in which nothing fails, reports completion and leaves the output missing. */
  method CleanupMissesRemoval(u: Unicode, stamps: (nat, Sha) -> Stamp, calibre: nat -> Sha, server: Server, run: Run, p: Policy, c: File, x: File)
    returns (w: World, status: Status)
    requires Replacement(u, EMPTY, server, run, p, c, x)
    ensures status.Completed? && !Settled(w.u, w.rows, w.server, p) && w.h.orders == [OrdersOf(run), OrdersOf(run)]
    ensures x.format in w.rows.derived && FilesFor(w.server.book.files, x.format) == []
  {
    w := PendingIsReachable(u, stamps, calibre, server, run, p, c, x);
    LoseFiles(w, run, x.format);
    assert x.format == p.outputs[0];
    status := Runs.CleanupCompletesUnsettled(w, run, p, x.format);
  }
}
