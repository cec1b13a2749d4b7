/** One run over a book: Sync, createMissingMain and what they leave behind (service.go). */
module Reconcile {
  import opened Inventory
  import opened Checkpoints
  import opened ArtifactName
  import opened Planner
  import opened World
  import opened Recovery
  import opened Resume
  import opened Upload
  import opened Derivative
  import opened Loop
  import opened Cleanup

  /** What a run is started with; the policy is what the library resolves to, if it does. */
  datatype Run = Run(cfg: Config, policy: Option<Policy>, force: bool)

  /** The service does not start with tags that could be taken for one another. */
  ghost predicate ValidConfig(cfg: Config) {
    && cfg.replacementTag != "" && cfg.replacementTag !in {cfg.ignoreTag, cfg.failedTag}
    && (cfg.ignoreTag == "" || cfg.ignoreTag != cfg.failedTag)
  }

  ghost predicate ValidRun(run: Run) {
    ValidConfig(run.cfg) && (run.policy.Some? ==> ValidPolicy(run.policy.value))
  }

  ghost function OrdersOf(run: Run): Orders {
    Orders(run.cfg, run.force, if run.policy.Some? then Some(run.policy.value.main) else None)
  }

  // ---- The canonical source as the next run will see it ----

  ghost predicate HasMain(server: Server, main: Format) { FilesFor(server.book.files, main) != [] }

  /** The next run's view of the canonical source and the saved rows. */
  ghost function NextBasis(u: Unicode, rows: Rows, server: Server, main: Format): Basis
    requires HasMain(server, main)
  {
    FindFileFinds(server.book.files, main);
    var c := FindFile(server.book.files, main).value;
    Basis(u, main, Some(FilesFor(server.book.files, main)[0].content), rows.derived,
          if c.mtime.Some? then c.mtime else rows.Row().canonicalMtime, false, false, CanonicalName(u, c, main))
  }

  ghost predicate NothingToDo(u: Unicode, rows: Rows, server: Server, p: Policy) {
    && HasMain(server, p.main)
    && forall f :: f in p.outputs ==> PlanFor(NextBasis(u, rows, server, p.main), server.book.files, f).action == Unchanged
  }

  /** No phase, no tag to spend, no cleanup, and every output is current. */
  ghost predicate Settled(u: Unicode, rows: Rows, server: Server, p: Policy) {
    && rows.book.Some? && !rows.Row().inProgress && rows.Row().pendingTag == "" && rows.Row().ipTag == ""
    && NothingToDo(u, rows, server, p)
  }

  /** The one file of format f is the verified product of the canonical source. */
  ghost predicate InSync(u: Unicode, rows: Rows, server: Server, main: Format, f: Format) {
    && HasMain(server, main) && f in rows.derived && f !in rows.intents
    && |FilesFor(server.book.files, f)| == 1
    && var b := NextBasis(u, rows, server, main);
    && VouchedFor(u, rows.derived[f], FilesFor(server.book.files, f)[0], b.sha.value, b.name, f)
  }

  /** The output f exists, and its row vouches for it under the present canonical source. */
  ghost predicate Attested(u: Unicode, rows: Rows, server: Server, main: Format, f: Format)
    requires HasMain(server, main)
  {
    var x := FindFile(server.book.files, f);
    x.Some? && f in rows.derived && Vouches(NextBasis(u, rows, server, main), x.value, rows.derived[f], f)
  }

  /** A book is settled exactly when nothing is under way and every output is current. The row of
      each then names the present canonical bytes, the file and the name that follows from the
      canonical one, and the checksum the server advertises, if it does. */
  lemma SettledVouches(u: Unicode, rows: Rows, server: Server, p: Policy)
    ensures Settled(u, rows, server, p) <==>
              && rows.book.Some? && !rows.Row().inProgress && rows.Row().pendingTag == "" && rows.Row().ipTag == ""
              && HasMain(server, p.main) && forall f :: f in p.outputs ==> Attested(u, rows, server, p.main, f)
    ensures Settled(u, rows, server, p) ==> forall f :: f in p.outputs ==>
              && FindFile(server.book.files, p.main).Some? && FindFile(server.book.files, f).Some? && f in rows.derived
              && var canon, x, row := FindFile(server.book.files, p.main).value, FindFile(server.book.files, f).value, rows.derived[f];
                 && row.format == f && row.sourceSha == Some(FilesFor(server.book.files, p.main)[0].content)
                 && (x.id != 0 ==> row.fileId == x.id) && (canon.name != "" ==> x.name == OutputName(u, canon.name, f))
                 && (x.advertised.Some? ==> row.outputSha == x.advertised)
  {
    if HasMain(server, p.main) {
      FindFileFinds(server.book.files, p.main);
      var b := NextBasis(u, rows, server, p.main);
      forall f | f in p.outputs
        ensures PlanFor(b, server.book.files, f).action == Unchanged <==> Attested(u, rows, server, p.main, f)
      {
        if FindFile(server.book.files, f).Some? {
          UnchangedExactly(b, server.book.files, f, FindFile(server.book.files, f).value);
        }
      }
    }
  }

  // ---- FindFile and the plan look at one format only ----

  lemma {:induction false} FindFileIsLocal(files: seq<File>, f: Format)
    ensures FindFile(files, f) == FindFile(FilesFor(files, f), f)
  {
    if files != [] {
      var front, last := files[..|files| - 1], files[|files| - 1];
      FindFileIsLocal(front, f);
      assert files == front + [last];
      OthersConcat(front, [last], f);
      assert [last][1..] == [];
      assert FilesFor([last], f) == if last.format == f then [last] else [];
      if last.format == f {
        assert FilesFor(files, f)[..|FilesFor(files, f)| - 1] == FilesFor(front, f);
      } else {
        assert FilesFor(files, f) == FilesFor(front, f);
      }
    }
  }

  lemma SameFormatSameFile(a: seq<File>, b: seq<File>, f: Format)
    requires FilesFor(a, f) == FilesFor(b, f)
    ensures FindFile(a, f) == FindFile(b, f)
  {
    FindFileIsLocal(a, f);
    FindFileIsLocal(b, f);
  }

  /** A plan depends on the saved row and the files of its own format, nothing else. */
  lemma PlanIsLocal(a: Basis, b: Basis, fa: seq<File>, fb: seq<File>, f: Format)
    requires a == b.(saved := a.saved) && FilesFor(fa, f) == FilesFor(fb, f)
    requires (f in a.saved <==> f in b.saved) && (f in a.saved ==> a.saved[f] == b.saved[f])
    ensures PlanFor(a, fa, f) == PlanFor(b, fb, f)
  {
    SameFormatSameFile(fa, fb, f);
    var found := FindFile(fa, f);
    if found.Some? && f in a.saved {
      StalenessIsLocal(b, a.saved, found.value, a.saved[f], f);
    }
  }

  // ---- The derivative part of a run ----

  function JobBasis(u: Unicode, job: Job, saved: map<Format, Derived>): Basis {
    Basis(u, job.main, Some(job.sha), saved, job.mtime, job.recreated, job.force, job.name)
  }

  ghost predicate ValidOutputs(job: Job, outputs: seq<Format>) {
    && Distinct(outputs)
    && forall i :: 0 <= i < |outputs| ==> ValidFormat(outputs[i]) && outputs[i] != job.main
  }

  /** What the derivative part of a run works with: the job, the saved derivative rows and the
      intents read before, the outputs, the listing and the canonical row just written. */
  datatype Task = Task(job: Job, saved: map<Format, Derived>, intents: map<Format, Intent>, outputs: seq<Format>, book: Book, canonical: BookRow)

  function TaskBasis(u: Unicode, t: Task): Basis { JobBasis(u, t.job, t.saved) }

  /** The canonical row has just been written, with the phase columns it was read with, and the
      run has looked at nothing but bytes since the listing. */
  ghost predicate Begun(w: World, t: Task)
    reads w
  {
    && w.OK() && w.u.Valid() && Mandated(t.job, w.h)
    && ValidFormat(t.job.main) && t.job.canon.format == t.job.main && ValidOutputs(t.job, t.outputs)
    && w.rows.book == Some(t.canonical) && t.canonical.pendingTag == "" && Based(t.canonical, t.job)
    && t.intents == w.rows.intents && t.book.tags <= w.h.observed && w.h.listed == Some(t.book) && w.h.used == {}
  }

  function FirstVol(book: Book, row: BookRow): Vol {
    Vol(book, row.inProgress, row.ipTag, row.ipTag, row.inProgress || row.ipTag != "", false)
  }

  /** Exactly the plans of the outputs, in some order. */
  ghost predicate PlansOf(plans: seq<Plan>, b: Basis, files: seq<File>, outputs: seq<Format>) {
    forall p :: p in plans <==> p.format in outputs && p == PlanFor(b, files, p.format)
  }

  ghost predicate FitsJob(u: Unicode, job: Job, plan: Plan, files: seq<File>) {
    JobFits(u, job, plan) && (plan.blocked <==> plan.action == Rebuild) && PlanMatches(plan, files)
  }

  lemma PlanFits(u: Unicode, job: Job, saved: map<Format, Derived>, files: seq<File>, f: Format)
    requires u.Valid() && ValidFormat(job.main) && job.canon.format == job.main && ValidFormat(f) && f != job.main
    ensures var p := PlanFor(JobBasis(u, job, saved), files, f); p.format == f && FitsJob(u, job, p, files)
  {
    PlanShape(JobBasis(u, job, saved), files, f);
  }

  lemma PlansFit(u: Unicode, job: Job, saved: map<Format, Derived>, files: seq<File>, outputs: seq<Format>)
    requires u.Valid() && ValidFormat(job.main) && job.canon.format == job.main && ValidOutputs(job, outputs)
    ensures var plans := PlanAll(JobBasis(u, job, saved), files, outputs);
            && |plans| == |outputs| && DistinctFormats(plans)
            && forall k :: 0 <= k < |plans| ==>
                 && plans[k] == PlanFor(JobBasis(u, job, saved), files, outputs[k]) && plans[k].format == outputs[k]
                 && FitsJob(u, job, plans[k], files)
  {
    PlansMatchOutputs(JobBasis(u, job, saved), files, outputs);
    forall k | 0 <= k < |outputs| {
      PlanFits(u, job, saved, files, outputs[k]);
    }
  }

  lemma ListedPlans(u: Unicode, job: Job, saved: map<Format, Derived>, files: seq<File>, outputs: seq<Format>)
    requires u.Valid() && ValidFormat(job.main) && job.canon.format == job.main && ValidOutputs(job, outputs)
    ensures PlansOf(PlanAll(JobBasis(u, job, saved), files, outputs), JobBasis(u, job, saved), files, outputs)
  {
    PlansFit(u, job, saved, files, outputs);
    var plans := PlanAll(JobBasis(u, job, saved), files, outputs);
    forall p ensures p in plans <==> p.format in outputs && p == PlanFor(JobBasis(u, job, saved), files, p.format) {
      if p.format in outputs && p == PlanFor(JobBasis(u, job, saved), files, p.format) {
        var k :| 0 <= k < |outputs| && outputs[k] == p.format;
        assert plans[k] == p;
      }
    }
  }

  /** The plans of the outputs, in their order. */
  ghost predicate InTurn(u: Unicode, t: Task, plans: seq<Plan>) {
    |plans| == |t.outputs| && forall j :: 0 <= j < |plans| ==> plans[j] == PlanFor(TaskBasis(u, t), t.book.files, t.outputs[j])
  }

  /** Plans every output and puts the owner of an unfinished replacement first. */
  method PlanRun(w: World, t: Task) returns (c: Course, ready: bool)
    requires Begun(w, t)
    ensures t.canonical.inProgress ==> (ready <==> exists f :: Owns(w.rows, f) && f in t.outputs)
    ensures !t.canonical.inProgress ==> ready
    ensures c == Course(t.job, t.intents, c.owner, c.plans, FirstVol(t.book, t.canonical))
    ensures ready ==> Queued(w, c) && PlansOf(c.plans, TaskBasis(w.u, t), t.book.files, t.outputs)
    ensures !t.canonical.inProgress ==> InTurn(w.u, t, c.plans)
  {
    var listed := PlanDerivatives(TaskBasis(w.u, t), t.book.files, t.outputs);
    PlansFit(w.u, t.job, t.saved, t.book.files, t.outputs);
    PhaseHasOneOwner(w.rows);
    ListedPlans(w.u, t.job, t.saved, t.book.files, t.outputs);
    var plans, owner;
    plans, owner, ready := PrioritizeReplacementOwner(t.canonical, t.intents, listed);
    c := Course(t.job, t.intents, owner, plans, FirstVol(t.book, t.canonical));
    if t.canonical.inProgress && ready {
      var k :| 0 <= k < |listed| && listed[k].format == owner.value && plans == [listed[k]] + listed[..k] + listed[k + 1..];
      ReorderedFormats(listed, k, plans);
      assert listed[k].format in t.outputs;
      forall i | 0 <= i < |plans| ensures FitsJob(w.u, t.job, plans[i], t.book.files) {
        assert plans[i] in listed;
      }
    }
  }

  /** What the end of a run may change leaves the work done, done. */
  ghost predicate SameWork(a: Rows, sa: Server, b: Rows, sb: Server) {
    && a.derived == b.derived && a.intents == b.intents
    && sa.book.files == sb.book.files && sa.nextId == sb.nextId
  }

  lemma SameWorkKeeps(u: Unicode, job: Job, a: Rows, sa: Server, b: Rows, sb: Server)
    requires SameWork(a, sa, b, sb)
    ensures Recoverable(u, a, sa, job.main) ==> Recoverable(u, b, sb, job.main)
    ensures forall f :: Committed(u, job, a, sa, f) ==> Committed(u, job, b, sb, f)
    ensures IdsBelow(sa) ==> IdsBelow(sb)
  {
    if Recoverable(u, a, sa, job.main) {
      forall f | Owns(b, f) ensures RecoverableIntent(u, b.intents[f], sb, job.main) {
        assert Owns(a, f);
      }
    }
  }

  /** The loop has gone through all outputs; nobody interfered. */
  ghost predicate AllDealt(u: Unicode, stamps: (nat, Sha) -> Stamp, t: Task, rows0: Rows, server0: Server, rows: Rows, server: Server) {
    forall f :: f in t.outputs ==>
      Dealt(u, stamps, t.job, PlanFor(TaskBasis(u, t), t.book.files, f), t.intents, rows0, server0, rows, server)
  }

  ghost predicate AllUnchanged(b: Basis, files: seq<File>, outputs: seq<Format>) {
    forall f :: f in outputs ==> PlanFor(b, files, f).action == Unchanged
  }

  /** What the derivative part guarantees while nobody interferes. */
  ghost predicate Orderly(u: Unicode, stamps: (nat, Sha) -> Stamp, t: Task, rows0: Rows, server0: Server, rows: Rows, server: Server, done: bool) {
    && Recoverable(u, rows, server, t.job.main) && IdsBelow(server)
    && FilesFor(server.book.files, t.job.main) == FilesFor(server0.book.files, t.job.main)
    && (done ==> AllDealt(u, stamps, t, rows0, server0, rows, server))
  }

  lemma ThroughIsOrderly(u: Unicode, stamps: (nat, Sha) -> Stamp, t: Task, c: Course, from: Origin, rows: Rows, server: Server, done: bool)
    requires Following(u, stamps, c, from, |c.plans|, rows, server, !done)
    requires c.job == t.job && c.intents == t.intents && PlansOf(c.plans, TaskBasis(u, t), t.book.files, t.outputs) && t.job.main !in t.outputs
    ensures Orderly(u, stamps, t, from.rows, from.server, rows, server, done)
  {
    forall k | 0 <= k < |c.plans| ensures c.plans[k].format != t.job.main {
      assert c.plans[k] in c.plans;
    }
    assert Untouched(c.plans, t.job.main) && KeptAt(from.rows, from.server, rows, server, t.job.main);
    if done {
      forall f | f in t.outputs ensures Dealt(u, stamps, t.job, PlanFor(TaskBasis(u, t), t.book.files, f), t.intents, from.rows, from.server, rows, server) {
        PlanShape(TaskBasis(u, t), t.book.files, f);
        assert PlanFor(TaskBasis(u, t), t.book.files, f) in c.plans;
      }
    }
  }

  lemma UnchangedPlans(u: Unicode, t: Task, c: Course)
    requires PlansOf(c.plans, TaskBasis(u, t), t.book.files, t.outputs) && c.vol == FirstVol(t.book, t.canonical)
    ensures !t.canonical.inProgress && AllUnchanged(TaskBasis(u, t), t.book.files, t.outputs) ==> NothingPlanned(c)
  {
    forall k | 0 <= k < |c.plans| ensures c.plans[k].format in t.outputs && c.plans[k] == PlanFor(TaskBasis(u, t), t.book.files, c.plans[k].format) {
      assert c.plans[k] in c.plans;
    }
  }

  /** The owner of the phase is dealt with first. */
  lemma ResumedOwner(u: Unicode, rows0: Rows, c: Course, rows: Rows, server: Server)
    requires RowsOK(rows0) && rows0.Row().inProgress == c.vol.inProgress && OwnerKnown(rows0, c.owner) && Resumed(u, c, rows, server)
    requires c.vol.inProgress ==> c.plans != [] && c.owner == Some(c.plans[0].format)
    ensures !rows.Row().inProgress && forall f :: Owns(rows0, f) ==> Committed(u, c.job, rows, server, f)
  {
    PhaseHasOneOwner(rows0);
  }

  ghost predicate OwnerPlanned(rows: Rows, t: Task) {
    t.canonical.inProgress ==> exists f :: Owns(rows, f) && f in t.outputs
  }

  /** No phase is open, and what owned one is committed. */
  ghost predicate Recommitted(u: Unicode, job: Job, rows0: Rows, rows: Rows, server: Server) {
    !rows.Row().inProgress && forall f :: Owns(rows0, f) ==> Committed(u, job, rows, server, f)
  }

  ghost predicate CalmStart(w: World, t: Task)
    reads w
  {
    Alone(w, t.job, t.book) && Recoverable(w.u, w.rows, w.server, t.job.main)
  }

  /** The jth output is as it should be; or nothing keeps the run from working on it; or what an earlier
      run uploaded for it is there, and the outputs before it are as they should be. */
  ghost predicate Doable(u: Unicode, t: Task, server: Server, j: nat)
    requires j < |t.outputs|
  {
    var p := PlanFor(TaskBasis(u, t), t.book.files, t.outputs[j]);
    || p.action == Unchanged || Free(t.job, t.intents, p, t.canonical.ipTag != "", server)
    || (Arrived(u, t.job, t.intents, p, server)
        && forall m :: 0 <= m < j ==> PlanFor(TaskBasis(u, t), t.book.files, t.outputs[m]).action == Unchanged)
  }

  /** Undisturbed, the run is sure to deal with all outputs. */
  ghost predicate Feasible(u: Unicode, t: Task, server: Server) {
    && !t.canonical.inProgress && ValidateCanonicalBook(t.job, server.book) && !HasTag(server.book.tags, t.job.cfg.ignoreTag)
    && forall j :: 0 <= j < |t.outputs| ==> Doable(u, t, server, j)
  }

  lemma FeasibleIsRipe(u: Unicode, t: Task, c: Course, server: Server)
    requires InTurn(u, t, c.plans) && Feasible(u, t, server)
    requires c == Course(t.job, t.intents, c.owner, c.plans, FirstVol(t.book, t.canonical))
    ensures !c.vol.inProgress && AllRipe(u, c, 0, c.vol.ipTag != "", server)
  {
    var tagged := c.vol.ipTag != "";
    forall j | 0 <= j < |c.plans| ensures RipeAt(u, c, 0, j, tagged, server) {
      assert Doable(u, t, server, j);
    }
  }

  /** What the derivative part leaves while nobody interferes, having dealt with all outputs or not. In a
      run in which nothing fails either, what was owed is committed, and it goes through if it can. */
  ghost predicate Ran(u: Unicode, stamps: (nat, Sha) -> Stamp, t: Task, rows0: Rows, server0: Server, rows: Rows, server: Server,
                      quiet: bool, dealt: bool, through: bool) {
    && Orderly(u, stamps, t, rows0, server0, rows, server, dealt)
    && (quiet && OwnerPlanned(rows0, t) ==> Recommitted(u, t.job, rows0, rows, server))
    && (quiet && Feasible(u, t, server0) ==> through)
  }

  lemma LoopIsRun(u: Unicode, stamps: (nat, Sha) -> Stamp, t: Task, c: Course, from: Origin, rows: Rows, server: Server, done: bool)
    requires Following(u, stamps, c, from, |c.plans|, rows, server, !done) && (from.quiet && c.plans != [] ==> Resumed(u, c, rows, server))
    requires c == Course(t.job, t.intents, c.owner, c.plans, FirstVol(t.book, t.canonical)) && PlansOf(c.plans, TaskBasis(u, t), t.book.files, t.outputs)
    requires t.job.main !in t.outputs && RowsOK(from.rows) && from.rows.Row().inProgress == c.vol.inProgress && OwnerKnown(from.rows, c.owner)
    requires c.vol.inProgress ==> c.plans != [] && c.owner == Some(c.plans[0].format)
    requires (c.plans == [] ==> rows == from.rows) && (from.quiet && Feasible(u, t, from.server) ==> done)
    ensures Ran(u, stamps, t, from.rows, from.server, rows, server, from.quiet, done, done)
  {
    ThroughIsOrderly(u, stamps, t, c, from, rows, server, done);
    if from.quiet && c.plans != [] {
      ResumedOwner(u, from.rows, c, rows, server);
    }
    PhaseHasOneOwner(from.rows);
  }

  lemma NoTagKept(rows: Rows, h: History)
    requires TagKept(rows, h)
    ensures rows.Row().ipTag == "" ==> h.used == {}
  {
    if rows.Row().ipTag == "" {
      forall t ensures t !in h.used { assert !Stray(h.used, rows.Row().ipTag, t); }
    }
  }

  /** The loop over the plans of a task. */
  method RunCourse(w: World, t: Task, c: Course) returns (vol: Vol, ended: Option<Status>)
    requires Queued(w, c) && c == Course(t.job, t.intents, c.owner, c.plans, FirstVol(t.book, t.canonical))
    requires PlansOf(c.plans, TaskBasis(w.u, t), t.book.files, t.outputs) && t.job.main !in t.outputs
    requires !t.canonical.inProgress ==> InTurn(w.u, t, c.plans)
    modifies w
    ensures w.OK() && w.rows.book.Some? && w.rows.Row().pendingTag == "" && w.Goes() && w.Remembers()
    ensures ended.None? ==> Synced(w, t.job, vol) && !vol.inProgress && (t.canonical.ipTag != "" ==> vol.ipTag == t.canonical.ipTag)
    ensures ended.Some? ==> ended.value.Partial? || ended.value.Ignored?
    ensures old(w.Steady()) && old(w.Bounded()) && ended == Some(Ignored) ==> HasTag(old(w.bound), t.job.cfg.ignoreTag)
    ensures old(CalmStart(w, t)) ==>
              && Ran(w.u, w.stamps, t, old(w.rows), old(w.server), w.rows, w.server, old(w.Quiet()), ended.None?, ended.None?)
              && (ended.None? ==> Alone(w, t.job, vol.expected))
    ensures NothingPlanned(c) ==>
              && ended.None? && vol == c.vol && w.rows == old(w.rows) && w.server == old(w.server)
              && w.h.uploads == old(w.h.uploads) && w.h.deletes == old(w.h.deletes) && (c.vol.ipTag == "" ==> w.h.used == {})
  {
    if Feasible(w.u, t, w.server) {
      FeasibleIsRipe(w.u, t, c, w.server);
    }
    ghost var from := OriginOf(w, c);
    var failed;
    vol, failed, ended := ProcessPlans(w, c);
    if ended.None? && failed {
      ended := Some(Partial);
    }
    if ended.None? {
      NoTagKept(w.rows, w.h);
    }
    if from.calm {
      LoopIsRun(w.u, w.stamps, t, c, from, w.rows, w.server, ended.None?);
    }
  }

  /** The loop with its plans. */
  method RunPlans(w: World, t: Task) returns (vol: Vol, ended: Option<Status>)
    requires Begun(w, t)
    modifies w
    ensures w.OK() && w.rows.book.Some? && w.rows.Row().pendingTag == "" && w.Goes() && w.Remembers()
    ensures ended.None? ==> Synced(w, t.job, vol) && !vol.inProgress && (t.canonical.ipTag != "" ==> vol.ipTag == t.canonical.ipTag)
    ensures ended.Some? ==> ended.value.Partial? || ended.value.Ignored?
    ensures old(w.Steady()) && old(w.Bounded()) && ended == Some(Ignored) ==> HasTag(old(w.bound), t.job.cfg.ignoreTag)
    ensures old(CalmStart(w, t)) ==>
              && Ran(w.u, w.stamps, t, old(w.rows), old(w.server), w.rows, w.server, old(w.Quiet()), ended.None?, ended.None?)
              && (ended.None? ==> Alone(w, t.job, vol.expected))
    ensures !t.canonical.inProgress && AllUnchanged(TaskBasis(w.u, t), t.book.files, t.outputs) ==>
              && ended.None? && vol == FirstVol(t.book, t.canonical) && w.rows == old(w.rows) && w.server == old(w.server)
              && w.h.uploads == old(w.h.uploads) && w.h.deletes == old(w.h.deletes) && (t.canonical.ipTag == "" ==> w.h.used == {})
  {
    var c, ready := PlanRun(w, t);
    if t.canonical.inProgress && !ready {
      return c.vol, Some(Partial);
    }
    UnchangedPlans(w.u, t, c);
    vol, ended := RunCourse(w, t, c);
  }

  /** The row a completed run leaves. */
  function Rested(canonical: BookRow): BookRow { canonical.(pendingTag := "", ipTag := "", inProgress := false) }

  lemma RestIsOrderly(u: Unicode, stamps: (nat, Sha) -> Stamp, t: Task, rows0: Rows, server0: Server, a: Rows, sa: Server, b: Rows, sb: Server, done: bool)
    requires Orderly(u, stamps, t, rows0, server0, a, sa, done) && SameWork(a, sa, b, sb)
    ensures Orderly(u, stamps, t, rows0, server0, b, sb, done)
  {
    SameWorkKeeps(u, t.job, a, sa, b, sb);
    if done {
      forall f | f in t.outputs ensures Dealt(u, stamps, t.job, PlanFor(TaskBasis(u, t), t.book.files, f), t.intents, rows0, server0, b, sb) {
        assert Dealt(u, stamps, t.job, PlanFor(TaskBasis(u, t), t.book.files, f), t.intents, rows0, server0, a, sa);
      }
    }
  }

  lemma RestIsRecommitted(u: Unicode, job: Job, rows0: Rows, a: Rows, sa: Server, b: Rows, sb: Server)
    requires Recommitted(u, job, rows0, a, sa) && SameWork(a, sa, b, sb) && !b.Row().inProgress
    ensures Recommitted(u, job, rows0, b, sb)
  {
    SameWorkKeeps(u, job, a, sa, b, sb);
  }

  /** The run has dealt with every output: it has finished, or a cleanup is all that is left. */
  predicate Reached(rows: Rows, status: Status) { Finished(status) || rows.Row().pendingTag != "" }

  /** None of these tags is left. */
  ghost predicate TagsGone(used: set<string>, noted: string, tags: set<string>) {
    !HasTag(tags, noted) && forall t :: t in used ==> t !in tags
  }

  lemma KeptTagIsGone(rows: Rows, h: History, tags: set<string>)
    requires TagKept(rows, h)
    ensures !HasTag(tags, rows.Row().ipTag) ==> forall t :: t in h.used ==> t !in tags
  {
    forall t | t in h.used ensures t == rows.Row().ipTag && t != "" {
      assert !Stray(h.used, rows.Row().ipTag, t);
    }
  }

  /** Undisturbed, a finished run leaves the book without the tags that its commits used and without
      the one that it found noted, a completed one without the failure tag, too. */
  ghost predicate CleanEnd(t: Task, status: Status, used: set<string>, book: Book) {
    && (Finished(status) ==> TagsGone(used, t.canonical.ipTag, book.tags))
    && (status.Completed? ==> !HasTag(book.tags, t.job.cfg.failedTag))
  }

  /** The tail of the run, in terms of the rows and the server the derivative part started from: calm
      says that nobody interferes, quiet that nothing fails. */
  method FinishDerivatives(w: World, t: Task, vol: Vol, ghost rows0: Rows, ghost server0: Server, ghost calm: bool, ghost quiet: bool) returns (status: Ending)
    requires Synced(w, t.job, vol) && !vol.inProgress && Mandated(t.job, w.h) && Based(t.canonical, t.job)
    requires t.canonical.pendingTag == "" && (t.canonical.ipTag != "" ==> vol.ipTag == t.canonical.ipTag)
    requires calm ==> w.Steady() && Ran(w.u, w.stamps, t, rows0, server0, w.rows, w.server, quiet, true, true)
    requires calm && quiet ==> w.Quiet() && vol.expected.files == w.server.book.files
    modifies w
    ensures w.OK() && TouchesNoWork(w) && w.rows.book.Some? && Based(w.rows.Row(), t.job)
    ensures Finished(status) ==> w.rows.book == Some(Rested(t.canonical))
    ensures vol.pendingCleanup == "" && old(w.rows.book) == Some(t.canonical) && !t.canonical.inProgress ==>
              KeepsTags(w, t.job.cfg.failedTag) && w.rows == old(w.rows)
    ensures old(w.Steady()) ==> CleanEnd(t, status, w.h.used, w.server.book)
    ensures old(w.Quiet()) && vol.expected.files == old(w.server.book.files) ==> status.Completed?
    ensures calm ==> Ran(w.u, w.stamps, t, rows0, server0, w.rows, w.server, quiet, true, status.Completed?)
  {
    ghost var rows, server, h := w.rows, w.server, w.h;
    status := Finish(w, t.job, vol, t.canonical);
    KeptTagIsGone(rows, h, w.server.book.tags);
    if calm {
      RestIsOrderly(w.u, w.stamps, t, rows0, server0, rows, server, w.rows, w.server, true);
      if quiet && OwnerPlanned(rows0, t) {
        RestIsRecommitted(w.u, t.job, rows0, rows, server, w.rows, w.server);
      }
    }
  }

  /** From the written canonical row to the end of the run. */
  method Derivatives(w: World, t: Task) returns (status: Status)
    requires Begun(w, t)
    modifies w
    ensures w.OK() && w.rows.book.Some? && w.Goes() && w.Remembers()
    ensures !status.Failed?
    ensures Finished(status) ==> w.rows.book == Some(Rested(t.canonical))
    ensures Reached(w.rows, status) ==> Based(w.rows.Row(), t.job)
    ensures old(w.Steady()) && old(w.Bounded()) && status.Ignored? ==> HasTag(old(w.bound), t.job.cfg.ignoreTag)
    ensures old(CalmStart(w, t)) ==>
              Ran(w.u, w.stamps, t, old(w.rows), old(w.server), w.rows, w.server, old(w.Quiet()), Reached(w.rows, status), status.Completed?)
    ensures old(w.Steady()) ==> CleanEnd(t, status, w.h.used, w.server.book)
    ensures !t.canonical.inProgress && t.canonical.ipTag == "" && AllUnchanged(TaskBasis(w.u, t), t.book.files, t.outputs) ==>
              && TouchesNoWork(w) && w.rows == old(w.rows) && KeepsTags(w, t.job.cfg.failedTag)
              && (old(w.Quiet()) && t.book.files == old(w.server.book.files) ==> status.Completed?)
  {
    ghost var rows0, server0, calm, quiet := w.rows, w.server, CalmStart(w, t), w.Quiet();
    var vol, ended := RunPlans(w, t);
    if ended.Some? {
      assert !Reached(w.rows, ended.value);
      return ended.value;
    }
    status := FinishDerivatives(w, t, vol, rows0, server0, calm, quiet);
  }

  // ---- What one run achieves ----

  /** The job's canonical source is the one the server shows. */
  ghost predicate Sourced(u: Unicode, job: Job, server: Server) {
    && HasMain(server, job.main)
    && FindFile(server.book.files, job.main) == Some(job.canon)
    && FilesFor(server.book.files, job.main)[0].content == job.sha
    && job.name == CanonicalName(u, job.canon, job.main)
  }

  lemma SourcedIsGrounded(u: Unicode, job: Job, server: Server)
    requires Sourced(u, job, server)
    ensures Grounded(u, job, server)
  {
    if |FilesFor(server.book.files, job.main)| == 1 {
      FindOnly(server.book.files, job.main, FilesFor(server.book.files, job.main)[0]);
    }
  }

  lemma SourcedStays(u: Unicode, job: Job, a: Server, b: Server)
    requires Sourced(u, job, a) && FilesFor(a.book.files, job.main) == FilesFor(b.book.files, job.main)
    ensures Sourced(u, job, b)
  {
    SameFormatSameFile(a.book.files, b.book.files, job.main);
  }

  ghost predicate CredibleFor(server: Server, f: Format, mtime: Option<int>) {
    forall x :: x in FilesFor(server.book.files, f) ==> Truthful(x) && !Older(x.mtime, mtime)
  }

  /** The server's checksums of the outputs are right and its timestamps do not put an output
      before the canonical file. */
  ghost predicate Credible(b: Basis, server: Server, outputs: seq<Format>) {
    forall f :: f in outputs ==> CredibleFor(server, f, b.mtime)
  }

  /** A credible server leaves the next run nothing to do. */
  ghost predicate Current(u: Unicode, rows: Rows, server: Server, p: Policy) {
    && HasMain(server, p.main)
    && (Credible(NextBasis(u, rows, server, p.main), server, p.outputs) ==> NothingToDo(u, rows, server, p))
  }

  /** Nothing is owed, no tag is to be spent and no cleanup is due. */
  predicate AtRest(rows: Rows) {
    rows.book.Some? && !rows.Row().inProgress && rows.Row().pendingTag == "" && rows.Row().ipTag == ""
  }

  ghost predicate Converged(u: Unicode, rows: Rows, server: Server, p: Policy) {
    AtRest(rows) && Current(u, rows, server, p)
  }

  /** What the next plans look at. */
  ghost predicate SameOutlook(a: Rows, sa: Server, b: Rows, sb: Server) {
    a.derived == b.derived && a.Row().canonicalMtime == b.Row().canonicalMtime && sa.book.files == sb.book.files
  }

  lemma OutlookDecides(u: Unicode, a: Rows, sa: Server, b: Rows, sb: Server, p: Policy)
    requires SameOutlook(a, sa, b, sb)
    ensures NothingToDo(u, a, sa, p) <==> NothingToDo(u, b, sb, p)
    ensures Current(u, a, sa, p) <==> Current(u, b, sb, p)
  {
    if HasMain(sa, p.main) {
      assert NextBasis(u, a, sa, p.main) == NextBasis(u, b, sb, p.main);
    }
  }

  lemma DealtIsUnchanged(u: Unicode, stamps: (nat, Sha) -> Stamp, t: Task, next: Basis, f: Format, rows0: Rows, server0: Server, rows: Rows, server: Server)
    requires Dealt(u, stamps, t.job, PlanFor(TaskBasis(u, t), t.book.files, f), t.intents, rows0, server0, rows, server)
    requires t.job.name != "" && next == TaskBasis(u, t).(saved := rows.derived, recreated := false, force := false)
    requires t.book.files == server0.book.files && (!t.job.recreated ==> t.saved == rows0.derived)
    requires AllNew(stamps, server0, server, f) || f in t.intents ==> CredibleFor(server, f, next.mtime)
    ensures PlanFor(next, server.book.files, f).action == Unchanged
  {
    var b := TaskBasis(u, t);
    PlanShape(b, t.book.files, f);
    if PlanFor(b, t.book.files, f).action == Unchanged && KeptAt(rows0, server0, rows, server, f) {
      PlanIsLocal(b, next, t.book.files, server.book.files, f);
    } else {
      var x := FilesFor(server.book.files, f)[0];
      assert FilesFor(server.book.files, f) == [x];
      CommittedPlansUnchanged(next, server.book.files, f, x, t.job.sha);
    }
  }

  /** The values a run ended with are those the next run plans with. */
  ghost predicate Lasting(u: Unicode, t: Task, p: Policy, rows0: Rows, server0: Server) {
    && u.Valid() && ValidPolicy(p) && p.main == t.job.main && p.outputs == t.outputs && t.book.files == server0.book.files
    && Sourced(u, t.job, server0) && (!t.job.recreated ==> t.saved == rows0.derived)
    && (t.job.canon.mtime.Some? ==> t.job.mtime == t.job.canon.mtime)
  }

  lemma NextPlans(u: Unicode, stamps: (nat, Sha) -> Stamp, t: Task, p: Policy, rows0: Rows, server0: Server, rows: Rows, server: Server)
    requires Lasting(u, t, p, rows0, server0) && Orderly(u, stamps, t, rows0, server0, rows, server, true) && Based(rows.Row(), t.job)
    ensures Sourced(u, t.job, server) && t.job.name != ""
    ensures NextBasis(u, rows, server, p.main) == TaskBasis(u, t).(saved := rows.derived, recreated := false, force := false)
  {
    SourcedStays(u, t.job, server0, server);
    OutputNameIsSafe(u, "", t.job.main);
  }

  /** A run that has reached its end leaves a credible server nothing to do. */
  lemma CompletedConverges(u: Unicode, stamps: (nat, Sha) -> Stamp, t: Task, p: Policy, rows0: Rows, server0: Server, rows: Rows, server: Server)
    requires Lasting(u, t, p, rows0, server0) && Orderly(u, stamps, t, rows0, server0, rows, server, true) && Based(rows.Row(), t.job)
    ensures Current(u, rows, server, p)
  {
    NextPlans(u, stamps, t, p, rows0, server0, rows, server);
    var next := NextBasis(u, rows, server, p.main);
    if Credible(next, server, p.outputs) {
      forall f | f in p.outputs ensures PlanFor(next, server.book.files, f).action == Unchanged {
        DealtIsUnchanged(u, stamps, t, next, f, rows0, server0, rows, server);
      }
    }
  }

  /** Uploads from this id on get the right checksums and no timestamp before this one. */
  ghost predicate Honest(stamps: (nat, Sha) -> Stamp, from: nat, mtime: Option<int>) {
    forall id: nat, sha: Sha :: id >= from ==>
      (stamps(id, sha).advertised.None? || stamps(id, sha).advertised == Some(sha)) && !Older(stamps(id, sha).mtime, mtime)
  }

  /** The server gives uploads the right checksums, and its clock does not run backwards. */
  ghost predicate CredibleServer(stamps: (nat, Sha) -> Stamp, server: Server) {
    && Honest(stamps, server.nextId, None)
    && (forall x :: x in server.book.files ==> Honest(stamps, server.nextId, x.mtime))
    && (forall id: nat, sha: Sha :: id >= server.nextId ==> Honest(stamps, id, stamps(id, sha).mtime))
  }

  /** On a server that was honest all along, there is no proviso. */
  lemma HonestlyConverges(u: Unicode, stamps: (nat, Sha) -> Stamp, t: Task, p: Policy, rows0: Rows, server0: Server, rows: Rows, server: Server)
    requires Lasting(u, t, p, rows0, server0) && Orderly(u, stamps, t, rows0, server0, rows, server, true) && Based(rows.Row(), t.job)
    requires Honest(stamps, server0.nextId, t.job.mtime) && t.intents == map[]
    ensures NothingToDo(u, rows, server, p)
  {
    NextPlans(u, stamps, t, p, rows0, server0, rows, server);
    var next := NextBasis(u, rows, server, p.main);
    forall f | f in p.outputs ensures PlanFor(next, server.book.files, f).action == Unchanged {
      DealtIsUnchanged(u, stamps, t, next, f, rows0, server0, rows, server);
    }
  }

  lemma CommittedIsInSync(u: Unicode, job: Job, rows: Rows, server: Server, f: Format)
    requires Committed(u, job, rows, server, f) && Sourced(u, job, server)
    ensures InSync(u, rows, server, job.main, f)
  {
  }

  // ---- The two kinds of run ----

  ghost predicate Healthy(w: World, main: Format)
    reads w
  {
    IdsBelow(w.server) && Recoverable(w.u, w.rows, w.server, main)
  }

  /** The run's own orders are on record, and it has committed nothing yet. */
  ghost predicate Ordered(run: Run, h: History) {
    h.orders != [] && h.orders[|h.orders| - 1] == OrdersOf(run) && h.failureTag == run.cfg.failedTag && h.used == {}
  }

  /** What a run knows once it has read the book, the rows and the policy. */
  ghost predicate Informed(w: World, run: Run, p: Policy, book: Book, read: Rows)
    reads w
  {
    && w.OK() && w.u.Valid() && run.policy == Some(p) && ValidPolicy(p)
    && read == w.rows && read.Row().pendingTag == "" && book.tags <= w.h.observed && w.h.listed == Some(book)
    && Ordered(run, w.h)
  }

  /** An unfinished replacement that this run can finish: its owner is an output. */
  ghost predicate OwnerIsOutput(rows: Rows, p: Policy) {
    rows.Row().inProgress ==> exists f :: Owns(rows, f) && f in p.outputs
  }

  /** No phase is open, and what owed one is in sync. */
  ghost predicate Restored(u: Unicode, rows0: Rows, rows: Rows, server: Server, main: Format) {
    && !rows.Row().inProgress
    && forall f :: rows0.Row().inProgress && Owns(rows0, f) ==> InSync(u, rows, server, main, f)
  }

  function CanonicalRow(u: Unicode, main: Format, c: File, sha: Sha, mtime: Option<int>, name: string, row: BookRow): BookRow {
    BookRow(main, c.id, name, Some(sha), mtime, row.pendingTag, row.ipTag, row.inProgress)
  }

  /** The checksum the server advertises for the canonical file, if any, is that of the bytes it serves. */
  ghost predicate TruthfulMain(server: Server, main: Format, c: File) {
    HasMain(server, main) && (c.advertised.Some? ==> c.advertised.value == FilesFor(server.book.files, main)[0].content)
  }

  /** The checksum the server advertises for the canonical file, if there is one, is right. */
  ghost predicate MainIsTruthful(server: Server, main: Format) {
    FindFile(server.book.files, main).Some? ==> TruthfulMain(server, main, FindFile(server.book.files, main).value)
  }

  lemma SameMainSameTruth(a: Server, b: Server, main: Format)
    requires FilesFor(a.book.files, main) == FilesFor(b.book.files, main)
    ensures MainIsTruthful(a, main) <==> MainIsTruthful(b, main)
  {
    SameFormatSameFile(a.book.files, b.book.files, main);
  }

  /** The row as it was, or rewritten without a change of phase. */
  ghost predicate Recorded(read: Rows, rows: Rows, mtime: Option<int>) {
    rows == read || exists value :: SamePhase(read.Row(), value) && value.canonicalMtime == mtime && rows == SetBook(read, value)
  }

  method WriteCanonical(w: World, read: Rows, row: BookRow) returns (ok: bool)
    requires w.OK() && w.rows == read && SamePhase(read.Row(), row)
    modifies w
    ensures w.OK() && TouchesNoWork(w) && w.LeavesServer() && w.h == old(w.h) && Recorded(read, w.rows, row.canonicalMtime)
    ensures ok ==> w.rows == SetBook(read, row)
    ensures old(w.Quiet()) ==> ok
  {
    ok := WriteBook(w, row);
  }

  /** The timestamp of the canonical file, or else the one on record. */
  function CanonicalMtime(read: Rows, c: File): Option<int> { if c.mtime.Some? then c.mtime else read.Row().canonicalMtime }

  /** The row of the canonical file c and the job that goes with it are on record. */
  ghost predicate RecordedAs(u: Unicode, run: Run, p: Policy, read: Rows, c: File, rows: Rows, job: Job, row: BookRow) {
    && rows == SetBook(read, row) && SamePhase(read.Row(), row) && Based(row, job)
    && job == Job(run.cfg, run.force, p.main, c, job.sha, CanonicalName(u, c, p.main), CanonicalMtime(read, c), false)
  }

  /** Downloads a file by its format, and checks the bytes against its advertised checksum. */
  method FetchChecked(w: World, file: File, format: Format) returns (sha: Option<Sha>)
    modifies w
    ensures w.OnlyReads() && w.made == old(w.made) && w.h.listed == old(w.h.listed)
    ensures w.h.uploads == old(w.h.uploads) && w.h.deletes == old(w.h.deletes) && w.h.orders == old(w.h.orders) && w.h.used == old(w.h.used)
    ensures sha.Some? ==> !w.crashed && FilesFor(w.server.book.files, format) != [] && sha.value == FilesFor(w.server.book.files, format)[0].content
    ensures sha.Some? && file.advertised.Some? ==> file.advertised == sha
    ensures (old(w.Quiet()) && FilesFor(old(w.server.book.files), format) != []
            && (file.advertised.Some? ==> file.advertised.value == FilesFor(old(w.server.book.files), format)[0].content)) ==> sha.Some?
  {
    var ok := w.LocalCheck();   // the workspace
    if !ok {
      return None;
    }
    sha := w.Download(format);
    if file.advertised.Some? && file.advertised != sha {
      return None;
    }
  }

  /** Downloads the canonical file and records it; the phase columns stay. */
  method RecordCanonical(w: World, run: Run, p: Policy, book: Book, read: Rows, c: File) returns (found: Option<(Job, BookRow)>)
    requires Informed(w, run, p, book, read) && FindFile(book.files, p.main) == Some(c)
    modifies w
    ensures w.OK() && TouchesNoWork(w) && w.h.listed == old(w.h.listed)
    ensures Recorded(read, w.rows, CanonicalMtime(read, c))
    ensures found.Some? ==> RecordedAs(w.u, run, p, read, c, w.rows, found.value.0, found.value.1)
    ensures old(w.Steady()) ==> w.server == old(w.server)
    ensures old(w.Steady()) && book == old(w.server.book) && found.Some? ==> Sourced(w.u, found.value.0, w.server) && TruthfulMain(w.server, p.main, c)
    ensures old(w.Quiet()) && book == old(w.server.book) && TruthfulMain(w.server, p.main, c) ==> found.Some?
  {
    var sha := FetchChecked(w, c, p.main);
    if sha.None? {
      return None;
    }
    var name := CanonicalName(w.u, c, p.main);
    var row := CanonicalRow(w.u, p.main, c, sha.value, CanonicalMtime(read, c), name, read.Row());
    var ok := WriteCanonical(w, read, row);
    if !ok {
      return None;
    }
    FindFileFinds(book.files, p.main);
    return Some((Job(run.cfg, run.force, p.main, c, sha.value, name, CanonicalMtime(read, c), false), row));
  }

  lemma RecordingKeepsHealth(u: Unicode, rows: Rows, value: BookRow, server: Server, main: Format)
    requires RowsOK(rows) && SamePhase(rows.Row(), value)
    ensures Recoverable(u, rows, server, main) ==> Recoverable(u, SetBook(rows, value), server, main)
    ensures forall f :: Owns(SetBook(rows, value), f) <==> Owns(rows, f)
  {
    SetBookKeepsPhase(rows, value);
  }

  /** What a run from this state plans with. */
  ghost function RunBasis(u: Unicode, rows: Rows, server: Server, main: Format, force: bool): Basis
    requires HasMain(server, main)
  {
    NextBasis(u, rows, server, main).(force := force)
  }

  lemma JobIsRunBasis(u: Unicode, job: Job, rows: Rows, server: Server)
    requires Sourced(u, job, server) && !job.recreated && job.mtime == CanonicalMtime(rows, job.canon)
    ensures JobBasis(u, job, rows.derived) == RunBasis(u, rows, server, job.main, job.force)
  {
  }

  /** Nobody interferes, and this run's view of the book is right. */
  ghost predicate Undisturbed(w: World, job: Job, book: Book)
    reads w
  {
    && w.Steady() && book == w.server.book && Sourced(w.u, job, w.server) && Healthy(w, job.main)
  }

  lemma UndisturbedIsCalm(w: World, t: Task)
    requires Undisturbed(w, t.job, t.book)
    ensures CalmStart(w, t)
  {
    SourcedIsGrounded(w.u, t.job, w.server);
  }

  /** Every output that there was work for is the verified product of the canonical source. */
  ghost predicate WorkDone(u: Unicode, t: Task, p: Policy, rows: Rows, server: Server) {
    forall f :: f in p.outputs && PlanFor(TaskBasis(u, t), t.book.files, f).action != Unchanged ==> InSync(u, rows, server, p.main, f)
  }

  lemma DealtIsDone(u: Unicode, stamps: (nat, Sha) -> Stamp, t: Task, p: Policy, rows0: Rows, server0: Server, rows: Rows, server: Server)
    requires AllDealt(u, stamps, t, rows0, server0, rows, server) && Sourced(u, t.job, server) && p.main == t.job.main && p.outputs == t.outputs
    ensures WorkDone(u, t, p, rows, server)
  {
    forall f | f in p.outputs && PlanFor(TaskBasis(u, t), t.book.files, f).action != Unchanged ensures InSync(u, rows, server, p.main, f) {
      PlanShape(TaskBasis(u, t), t.book.files, f);
      CommittedIsInSync(u, t.job, rows, server, f);
    }
  }

  /** What a run that nobody disturbed leaves, having reached its end or not. */
  ghost predicate Achieved(u: Unicode, stamps: (nat, Sha) -> Stamp, t: Task, p: Policy, server0: Server, rows: Rows, server: Server, status: Status) {
    && IdsBelow(server) && Recoverable(u, rows, server, p.main)
    && FilesFor(server.book.files, p.main) == FilesFor(server0.book.files, p.main)
    && (Reached(rows, status) ==> Current(u, rows, server, p))
    && (Reached(rows, status) && t.intents == map[] && Honest(stamps, server0.nextId, t.job.mtime) ==> NothingToDo(u, rows, server, p))
    && (Finished(status) ==> AtRest(rows) && WorkDone(u, t, p, rows, server))
  }

  lemma OrderlyIsAchieved(u: Unicode, stamps: (nat, Sha) -> Stamp, t: Task, p: Policy, rows0: Rows, server0: Server, rows: Rows, server: Server, status: Status)
    requires Lasting(u, t, p, rows0, server0) && Orderly(u, stamps, t, rows0, server0, rows, server, Reached(rows, status))
    requires Reached(rows, status) ==> Based(rows.Row(), t.job)
    requires Finished(status) ==> rows.book == Some(Rested(t.canonical))
    ensures Achieved(u, stamps, t, p, server0, rows, server, status)
  {
    if Reached(rows, status) {
      CompletedConverges(u, stamps, t, p, rows0, server0, rows, server);
      SourcedStays(u, t.job, server0, server);
      DealtIsDone(u, stamps, t, p, rows0, server0, rows, server);
      if t.intents == map[] && Honest(stamps, server0.nextId, t.job.mtime) {
        HonestlyConverges(u, stamps, t, p, rows0, server0, rows, server);
      }
    }
  }

  lemma RecommittedIsRestored(u: Unicode, job: Job, rows0: Rows, rows: Rows, server0: Server, server: Server)
    requires Recommitted(u, job, rows0, rows, server) && Sourced(u, job, server0)
    requires FilesFor(server.book.files, job.main) == FilesFor(server0.book.files, job.main)
    ensures Restored(u, rows0, rows, server, job.main)
  {
    SourcedStays(u, job, server0, server);
    forall f | Committed(u, job, rows, server, f) ensures InSync(u, rows, server, job.main, f) {
      CommittedIsInSync(u, job, rows, server, f);
    }
  }

  /** The task belongs to the policy and the rows. */
  ghost predicate TaskFor(t: Task, p: Policy, rows: Rows) {
    && ValidPolicy(p) && p.main == t.job.main && p.outputs == t.outputs && (!t.job.recreated ==> t.saved == rows.derived)
    && (t.job.canon.mtime.Some? ==> t.job.mtime == t.job.canon.mtime)
  }

  /** The derivative part of a run, in terms of what the next run will find. */
  method Derive(w: World, t: Task, p: Policy) returns (status: Status)
    requires Begun(w, t) && TaskFor(t, p, w.rows)
    modifies w
    ensures w.OK() && w.Goes() && w.Remembers() && w.rows.book.Some?
    ensures old(w.Steady()) && old(w.Bounded()) && status.Ignored? ==> HasTag(old(w.bound), t.job.cfg.ignoreTag)
    ensures old(Undisturbed(w, t.job, t.book)) ==> Achieved(w.u, w.stamps, t, p, old(w.server), w.rows, w.server, status)
    ensures old(w.Quiet()) && old(Undisturbed(w, t.job, t.book)) && OwnerIsOutput(old(w.rows), p) ==>
              Restored(w.u, old(w.rows), w.rows, w.server, p.main)
    ensures old(w.Steady()) ==> CleanEnd(t, status, w.h.used, w.server.book)
    ensures old(w.Quiet()) && old(Undisturbed(w, t.job, t.book)) && Feasible(w.u, t, old(w.server)) ==> status.Completed?
    ensures !t.canonical.inProgress && t.canonical.ipTag == "" && AllUnchanged(TaskBasis(w.u, t), t.book.files, p.outputs) ==>
              && TouchesNoWork(w) && w.rows == old(w.rows) && KeepsTags(w, t.job.cfg.failedTag)
              && (old(w.Quiet()) && t.book.files == old(w.server.book.files) ==> status.Completed?)
  {
    ghost var rows, server, undisturbed, quiet := w.rows, w.server, Undisturbed(w, t.job, t.book), w.Quiet();
    if undisturbed {
      UndisturbedIsCalm(w, t);
    }
    status := Derivatives(w, t);
    if undisturbed {
      OrderlyIsAchieved(w.u, w.stamps, t, p, rows, server, w.rows, w.server, status);
      if quiet && OwnerIsOutput(rows, p) {
        RecommittedIsRestored(w.u, t.job, rows, w.rows, server, w.server);
      }
    }
  }

  /** Recording the canonical source does not unsettle a book. */
  lemma RecordingKeepsSettled(u: Unicode, rows: Rows, row: BookRow, server: Server, p: Policy)
    requires Settled(u, rows, server, p) && SamePhase(rows.Row(), row)
    requires var c := FindFile(server.book.files, p.main); c.Some? && row.canonicalMtime == CanonicalMtime(rows, c.value)
    ensures Settled(u, SetBook(rows, row), server, p)
  {
    assert NextBasis(u, SetBook(rows, row), server, p.main) == NextBasis(u, rows, server, p.main);
  }

  lemma RecordedKeeps(u: Unicode, read: Rows, rows: Rows, server: Server, p: Policy, c: File)
    requires RowsOK(read) && FindFile(server.book.files, p.main) == Some(c)
    requires Recorded(read, rows, CanonicalMtime(read, c))
    ensures Recoverable(u, read, server, p.main) ==> Recoverable(u, rows, server, p.main)
    ensures Settled(u, read, server, p) ==> Settled(u, rows, server, p)
  {
    if rows != read {
      var value :| SamePhase(read.Row(), value) && value.canonicalMtime == CanonicalMtime(read, c) && rows == SetBook(read, value);
      RecordingKeepsHealth(u, read, value, server, p.main);
      if Settled(u, read, server, p) {
        RecordingKeepsSettled(u, read, value, server, p);
      }
    }
  }

  /** The same format, if any, owns the phase. */
  ghost predicate SameOwners(a: Rows, b: Rows) {
    a.Row().inProgress == b.Row().inProgress && forall f :: Owns(a, f) <==> Owns(b, f)
  }

  lemma SameOwnersRestored(u: Unicode, a: Rows, b: Rows, p: Policy, rows: Rows, server: Server)
    requires SameOwners(a, b)
    ensures OwnerIsOutput(a, p) <==> OwnerIsOutput(b, p)
    ensures Restored(u, a, rows, server, p.main) <==> Restored(u, b, rows, server, p.main)
  {
  }

  lemma RecordedOwners(read: Rows, rows: Rows, mtime: Option<int>)
    requires RowsOK(read) && Recorded(read, rows, mtime)
    ensures SameOwners(read, rows) && rows.Row().pendingTag == read.Row().pendingTag && rows.intents == read.intents
  {
  }

  /** What RecordSource hands on. */
  ghost predicate SourceTask(t: Task, run: Run, p: Policy, book: Book, read: Rows, c: File) {
    && t == Task(t.job, read.derived, read.intents, p.outputs, book, t.canonical)
    && t.job.cfg == run.cfg && t.job.force == run.force && !t.job.recreated && t.job.mtime == CanonicalMtime(read, c) && t.job.canon == c
    && SamePhase(read.Row(), t.canonical)
  }

  function TaskOf(p: Policy, book: Book, read: Rows, job: Job, row: BookRow): Task {
    Task(job, read.derived, read.intents, p.outputs, book, row)
  }

  lemma RecordedIsBegun(w: World, run: Run, p: Policy, book: Book, read: Rows, c: File, job: Job, row: BookRow)
    requires w.OK() && w.u.Valid() && ValidPolicy(p) && run.policy == Some(p) && Ordered(run, w.h) && read.Row().pendingTag == ""
    requires book.tags <= w.h.observed && w.h.listed == Some(book) && FindFile(book.files, p.main) == Some(c)
    requires RecordedAs(w.u, run, p, read, c, w.rows, job, row)
    ensures var t := TaskOf(p, book, read, job, row);
            Begun(w, t) && TaskFor(t, p, w.rows) && SourceTask(t, run, p, book, read, c)
  {
    FindFileFinds(book.files, p.main);
    InFilters(book.files, p.main, c);
  }

  lemma RecordedIsCurrent(u: Unicode, run: Run, p: Policy, book: Book, read: Rows, c: File, rows: Rows, server: Server, job: Job, row: BookRow)
    requires RecordedAs(u, run, p, read, c, rows, job, row) && Sourced(u, job, server) && book == server.book
    requires Settled(u, read, server, p) && !run.force
    ensures AllUnchanged(TaskBasis(u, TaskOf(p, book, read, job, row)), book.files, p.outputs)
  {
    JobIsRunBasis(u, job, read, server);
  }

  /** As RecordCanonical, in terms of what the next run will find. */
  method RecordSource(w: World, run: Run, p: Policy, book: Book, read: Rows, c: File) returns (found: Option<Task>)
    requires Informed(w, run, p, book, read) && FindFile(book.files, p.main) == Some(c)
    modifies w
    ensures w.OK() && TouchesNoWork(w) && (old(w.Steady()) ==> w.server == old(w.server)) && Recorded(read, w.rows, CanonicalMtime(read, c))
    ensures found.Some? ==>
              && Begun(w, found.value) && TaskFor(found.value, p, w.rows) && SourceTask(found.value, run, p, book, read, c)
    ensures old(w.Steady()) && book == old(w.server.book) ==>
              && (old(Healthy(w, p.main)) ==> Healthy(w, p.main) && (found.Some? ==> Undisturbed(w, found.value.job, book)))
              && (Settled(w.u, read, old(w.server), p) ==> Settled(w.u, w.rows, w.server, p))
              && (Settled(w.u, read, old(w.server), p) && found.Some? && !run.force ==>
                    AllUnchanged(TaskBasis(w.u, found.value), book.files, p.outputs))
    ensures old(w.Steady()) && book == old(w.server.book) && found.Some? ==> TruthfulMain(w.server, p.main, c)
    ensures old(w.Quiet()) && book == old(w.server.book) && TruthfulMain(w.server, p.main, c) ==> found.Some?
    ensures SameOwners(read, w.rows) && w.rows.Row().pendingTag == ""
  {
    ghost var steady := w.Steady() && book == w.server.book;
    var recorded := RecordCanonical(w, run, p, book, read, c);
    RecordedOwners(read, w.rows, CanonicalMtime(read, c));
    if steady {
      RecordedKeeps(w.u, read, w.rows, w.server, p, c);
    }
    if recorded.None? {
      return None;
    }
    var job, row := recorded.value.0, recorded.value.1;
    RecordedIsBegun(w, run, p, book, read, c, job, row);
    if steady && !run.force && Settled(w.u, read, w.server, p) {
      RecordedIsCurrent(w.u, run, p, book, read, c, w.rows, w.server, job, row);
    }
    return Some(TaskOf(p, book, read, job, row));
  }

  lemma SettledIsLocal(u: Unicode, a: Rows, sa: Server, b: Rows, sb: Server, p: Policy)
    ensures a == b && sa.book.files == sb.book.files && Settled(u, a, sa, p) ==> Settled(u, b, sb, p)
  {
    if a == b && sa.book.files == sb.book.files {
      OutlookDecides(u, a, sa, b, sb, p);
    }
  }

  /** What a run leaves of a book that was not waiting for a cleanup. */
  ghost predicate Left(u: Unicode, rows: Rows, server: Server, p: Policy, status: Status) {
    && (rows.Row().pendingTag != "" ==> Current(u, rows, server, p))
    && (Finished(status) ==> Converged(u, rows, server, p))
  }

  /** What a finished run leaves of a book that was new, on a server that is honest. */
  ghost predicate LeftSettled(u: Unicode, rows: Rows, server: Server, p: Policy) {
    Settled(u, rows, server, p) && MainIsTruthful(server, p.main)
  }

  lemma AchievedIsLeft(u: Unicode, stamps: (nat, Sha) -> Stamp, t: Task, p: Policy, server0: Server, rows: Rows, server: Server, status: Status, firstTime: bool)
    requires Achieved(u, stamps, t, p, server0, rows, server, status)
    requires firstTime ==> t.intents == map[] && Honest(stamps, server0.nextId, t.job.mtime) && MainIsTruthful(server0, p.main)
    ensures Left(u, rows, server, p, status) && (firstTime && Finished(status) ==> LeftSettled(u, rows, server, p))
  {
    SameMainSameTruth(server0, server, p.main);
  }

  lemma NewBookIsHonest(stamps: (nat, Sha) -> Stamp, server: Server, read: Rows, c: File)
    requires CredibleServer(stamps, server) && c in server.book.files && read.book.None?
    ensures Honest(stamps, server.nextId, CanonicalMtime(read, c))
  {
  }

  ghost predicate HealthyAt(u: Unicode, e: Point, main: Format) {
    IdsBelow(e.server) && Recoverable(u, e.rows, e.server, main)
  }

  /** The run has work to do for output f: the main file is missing, or f is missing or out of date. */
  ghost predicate NeedsWork(u: Unicode, run: Run, p: Policy, at: Point, f: Format) {
    || !HasMain(at.server, p.main)
    || PlanFor(RunBasis(u, at.rows, at.server, p.main, run.force), at.server.book.files, f).action != Unchanged
  }

  /** There is no file of format f, or exactly one, which the run may replace. */
  ghost predicate MayGo(run: Run, at: Point, f: Format) {
    var found, tags := FilesFor(at.server.book.files, f), at.server.book.tags;
    || found == []
    || (|found| == 1 && (run.force || run.cfg.replacePolicy || HasTag(tags, run.cfg.replacementTag) || at.rows.Row().ipTag != ""))
  }

  /** The checksum that the server advertises for a file, if any, is that of the bytes it serves for the format. */
  predicate TruthfulIn(files: seq<File>, x: File) {
    x.advertised.Some? ==> FilesFor(files, x.format) != [] && x.advertised.value == FilesFor(files, x.format)[0].content
  }

  /** There is exactly one main file; or there is none but a file to make it from. */
  ghost predicate MainIsUsable(server: Server, p: Policy) {
    if HasMain(server, p.main) then |FilesFor(server.book.files, p.main)| == 1 && MainIsTruthful(server, p.main)
    else
      && (exists f :: f in p.fallbacks && FilesFor(server.book.files, f) != [])
      && (forall x :: x in server.book.files && x.format in p.fallbacks ==> TruthfulIn(server.book.files, x))
  }

  /** What the intent of an earlier run says was to be uploaded is there, and it was made from the
      present canonical file, beside the other files that are there. */
  ghost predicate Delivered(u: Unicode, i: Intent, server: Server, main: Format) {
    var files := server.book.files;
    && |FilesFor(files, main)| == 1 && |FilesFor(files, i.format)| == 1
    && var c, x := FilesFor(files, main)[0], FilesFor(files, i.format)[0];
    && x.id != 0 && x.name == i.outputName && Some(x.content) == i.outputSha
    && i.outputName == OutputName(u, CanonicalName(u, c, main), i.format) && i.gen == V1(Some(c.content), i.outputName, i.format)
    && i.sourceFileId in {0, c.id} && i.sourceFileName in {"", c.name} && i.sourceFormat in {"", main} && i.sourceSha == Some(c.content)
    && (i.stable.Some? ==> i.stable.value == StableFingerprint(files, i.format))
  }

  /** Nothing keeps the run from working on output f: it has no file, or one that may go and that no
      earlier run may have uploaded. */
  ghost predicate IsOpen(run: Run, at: Point, f: Format) {
    MayGo(run, at, f) && (Unsettled(at.rows, f) && FilesFor(at.server.book.files, f) != [] ==> run.force)
  }

  /** The jth output has what an earlier run uploaded for it, and those before it need no work. */
  ghost predicate IsDelivered(u: Unicode, run: Run, p: Policy, at: Point, j: nat)
    requires j < |p.outputs|
  {
    && !run.force && HasMain(at.server, p.main) && p.outputs[j] in at.rows.intents
    && Delivered(u, at.rows.intents[p.outputs[j]], at.server, p.main)
    && forall m :: 0 <= m < j ==> !NeedsWork(u, run, p, at, p.outputs[m])
  }

  /** Nothing stands in the way of a run in which nothing fails: no phase is open, the book is not to be
      ignored, ids are unique, the main file can be used, and each output that needs work can be had. */
  ghost predicate FeasibleAt(u: Unicode, run: Run, p: Policy, at: Point) {
    && !at.rows.Row().inProgress && !HasTag(at.server.book.tags, run.cfg.ignoreTag) && UniqueIds(at.server.book.files) && MainIsUsable(at.server, p)
    && forall j :: 0 <= j < |p.outputs| && NeedsWork(u, run, p, at, p.outputs[j]) ==>
         IsOpen(run, at, p.outputs[j]) || IsDelivered(u, run, p, at, j)
  }

  /** An upload that was delivered passes every check of its adoption. */
  lemma DeliveredIsArrived(u: Unicode, job: Job, intents: map<Format, Intent>, plan: Plan, server: Server)
    requires JobFits(u, job, plan) && Sourced(u, job, server) && ValidateCanonicalBook(job, server.book)
    requires plan.format in intents && intents[plan.format].format == plan.format && plan.blocked && !job.force
    requires Delivered(u, intents[plan.format], server, job.main)
    ensures Arrived(u, job, intents, plan, server)
  {
    var files := server.book.files;
    var c, x := FilesFor(files, job.main)[0], FilesFor(files, plan.format)[0];
    FindOnly(files, job.main, c);
    InFilters(files, job.main, c);
    InFilters(files, plan.format, x);
  }

  /** That is what a run leaves that stores its intent and uploads, and dies before it commits. */
  lemma UploadedIsDelivered(u: Unicode, stamps: (nat, Sha) -> Stamp, job: Job, plan: Plan, server: Server, output: Sha)
    requires Addable(u, job, plan, server)
    ensures var x := NewFile(stamps, server.nextId, plan.format, OutputName(u, job.name, plan.format), output);
            Delivered(u, UploadIntentFor(u, job, plan, StableFingerprint(server.book.files, plan.format), output, ""), AddFile(server, x), job.main)
  {
    var x := NewFile(stamps, server.nextId, plan.format, OutputName(u, job.name, plan.format), output);
    UploadedFile(u, stamps, server, plan.format, job.name, output);
    OtherFormatsAgree(server.book.files, AddFile(server, x).book.files, plan.format, job.main);
  }

  lemma RipeOutput(u: Unicode, t: Task, server: Server, j: nat, f: Format, run: Run, at: Point)
    requires IsOpen(run, at, f) && t.intents == at.rows.intents && Unowned(at.rows) && ValidateCanonicalBook(t.job, server.book)
    requires j < |t.outputs| && t.outputs[j] == f
    requires server.book.tags == at.server.book.tags && FilesFor(server.book.files, f) == FilesFor(at.server.book.files, f)
    requires t.book.files == server.book.files && t.job.cfg == run.cfg && t.job.force == run.force && t.canonical.ipTag == at.rows.Row().ipTag
    requires !HasTag(at.server.book.tags, run.cfg.ignoreTag)
    ensures Doable(u, t, server, j)
  {
    PlanShape(TaskBasis(u, t), t.book.files, f);
  }

  /** The canonical file is the sole one, and ids are unique. */
  lemma SoleIsValid(u: Unicode, job: Job, server: Server)
    requires Sourced(u, job, server) && UniqueIds(server.book.files) && |FilesFor(server.book.files, job.main)| == 1
    ensures ValidateCanonicalBook(job, server.book)
  {
    var c := FilesFor(server.book.files, job.main)[0];
    FindOnly(server.book.files, job.main, c);
    InFilters(server.book.files, job.main, c);
  }

  lemma DeliveredIsDoable(u: Unicode, run: Run, p: Policy, at: Point, t: Task, j: nat)
    requires j < |p.outputs| && IsDelivered(u, run, p, at, j) && NeedsWork(u, run, p, at, p.outputs[j])
    requires RowsOK(at.rows) && t.intents == at.rows.intents && p.outputs == t.outputs && p.main == t.job.main && t.job.force == run.force
    requires Sourced(u, t.job, at.server) && t.book == at.server.book && ValidateCanonicalBook(t.job, at.server.book)
    requires TaskBasis(u, t) == RunBasis(u, at.rows, at.server, p.main, run.force)
    requires u.Valid() && ValidFormat(t.job.main) && t.job.canon.format == t.job.main && ValidOutputs(t.job, t.outputs)
    ensures Doable(u, t, at.server, j)
  {
    var f := t.outputs[j];
    assert IntentOK(at.rows, f);
    PlanFits(u, t.job, t.saved, t.book.files, f);
    DeliveredIsArrived(u, t.job, t.intents, PlanFor(TaskBasis(u, t), t.book.files, f), at.server);
  }

  /** A run that can go through with a main file. */
  lemma FeasibleWithMain(u: Unicode, run: Run, p: Policy, at: Point, t: Task, c: File)
    requires FeasibleAt(u, run, p, at) && HasMain(at.server, p.main)
    requires SourceTask(t, run, p, t.book, at.rows, c) && Sourced(u, t.job, at.server) && t.book == at.server.book && p.main == t.job.main
    requires RowsOK(at.rows) && u.Valid() && ValidFormat(t.job.main) && t.job.canon.format == t.job.main && ValidOutputs(t.job, t.outputs)
    ensures Feasible(u, t, at.server)
  {
    SoleIsValid(u, t.job, at.server);
    JobIsRunBasis(u, t.job, at.rows, at.server);
    forall j | 0 <= j < |t.outputs| ensures Doable(u, t, at.server, j) {
      var f := t.outputs[j];
      if NeedsWork(u, run, p, at, f) {
        if IsOpen(run, at, f) {
          RipeOutput(u, t, at.server, j, f, run, at);
        } else {
          DeliveredIsDoable(u, run, p, at, t, j);
        }
      }
    }
  }

  /** Every output that needed work is in sync. */
  ghost predicate Fulfilled(u: Unicode, run: Run, p: Policy, at: Point, rows: Rows, server: Server) {
    forall f :: f in p.outputs && NeedsWork(u, run, p, at, f) ==> InSync(u, rows, server, p.main, f)
  }

  lemma WorkIsFulfilled(u: Unicode, run: Run, p: Policy, at: Point, t: Task, c: File, rows: Rows, server: Server)
    requires SourceTask(t, run, p, t.book, at.rows, c) && Sourced(u, t.job, at.server) && t.book == at.server.book && p.main == t.job.main
    requires WorkDone(u, t, p, rows, server)
    ensures Fulfilled(u, run, p, at, rows, server)
  {
    JobIsRunBasis(u, t.job, at.rows, at.server);
  }

  /** What a run with policy p promises, from start s to end e. */
  ghost predicate Outcome(u: Unicode, stamps: (nat, Sha) -> Stamp, run: Run, p: Policy, status: Status, s: Start, e: Point) {
    // Ignored is reported only of a book that has the ignore tag.
    && (s.steady && status.Ignored? ==> HasTag(s.at.server.book.tags, run.cfg.ignoreTag))
    // Nobody else touches the book: what is owed stays recoverable, and completion converges.
    && (s.steady && HealthyAt(u, s.at, p.main) ==>
          && HealthyAt(u, e, p.main) && Left(u, e.rows, e.server, p, status)
          && (s.at.rows.book.None? && Finished(status) && CredibleServer(stamps, s.at.server) && MainIsTruthful(s.at.server, p.main) ==>
                LeftSettled(u, e.rows, e.server, p)))
    // Nothing fails: what was owed is restored and no phase stays open.
    && (s.quiet && HealthyAt(u, s.at, p.main) && MainIsTruthful(s.at.server, p.main) && OwnerIsOutput(s.at.rows, p) ==>
          Restored(u, s.at.rows, e.rows, e.server, p.main))
    // Nobody else touches the book: over a main file with a wrong checksum the run does nothing and fails.
    && (s.steady && !MainIsTruthful(s.at.server, p.main) ==> NoWorkSince(e, s) && !Finished(status))
    // Nobody else touches the book: a finished run has done all its work and left none of its tags behind.
    && (s.steady && HealthyAt(u, s.at, p.main) && Finished(status) ==> Fulfilled(u, run, p, s.at, e.rows, e.server))
    && (s.steady && Finished(status) ==> TagsGone(e.used, s.at.rows.Row().ipTag, e.server.book.tags))
    && (s.steady && status.Completed? ==> !HasTag(e.server.book.tags, run.cfg.failedTag))
    // Nothing fails: a run that nothing stands in the way of completes.
    && (s.quiet && HealthyAt(u, s.at, p.main) && FeasibleAt(u, run, p, s.at) ==> status.Completed?)
    // A settled book is left alone.
    && (s.steady && !run.force && Settled(u, s.at.rows, s.at.server, p) ==>
          && Idle(e, s, run.cfg.failedTag) && Settled(u, e.rows, e.server, p)
          && (s.quiet && MainIsTruthful(s.at.server, p.main) ==> status.Completed? || HasTag(s.at.server.book.tags, run.cfg.ignoreTag)))
  }

  /** The canonical file could not be recorded, or only in part. */
  lemma NotRecorded(w: World, run: Run, p: Policy, s: Start, c: File)
    requires RowsOK(s.at.rows) && s.at.rows.Row().pendingTag == "" && NearlyAt(w, s)
    requires s.steady ==> FindFile(s.at.server.book.files, p.main) == Some(c)
    requires Recorded(s.at.rows, w.rows, CanonicalMtime(s.at.rows, c)) && (s.quiet ==> s.steady && !MainIsTruthful(s.at.server, p.main))
    requires s.steady ==> HasMain(s.at.server, p.main)
    ensures Outcome(w.u, w.stamps, run, p, Failed, s, Here(w))
  {
    if s.steady {
      RecordedKeeps(w.u, s.at.rows, w.rows, s.at.server, p, c);
    }
  }

  /** The derivative part, once the canonical source is on record. */
  method SyncRecorded(w: World, t: Task, p: Policy, ghost firstTime: bool) returns (status: Status)
    requires Begun(w, t) && TaskFor(t, p, w.rows)
    requires firstTime ==> t.intents == map[] && Honest(w.stamps, w.server.nextId, t.job.mtime) && MainIsTruthful(w.server, p.main)
    modifies w
    ensures w.OK() && w.Goes() && w.Remembers()
    ensures old(w.Steady()) && old(w.Bounded()) && status.Ignored? ==> HasTag(old(w.bound), t.job.cfg.ignoreTag)
    ensures old(Undisturbed(w, t.job, t.book)) ==>
              && Healthy(w, p.main) && Left(w.u, w.rows, w.server, p, status) && (firstTime && Finished(status) ==> LeftSettled(w.u, w.rows, w.server, p))
              && (Finished(status) ==> WorkDone(w.u, t, p, w.rows, w.server))
    ensures old(w.Steady()) ==> CleanEnd(t, status, w.h.used, w.server.book)
    ensures old(w.Quiet()) && old(Undisturbed(w, t.job, t.book)) && Feasible(w.u, t, old(w.server)) ==> status.Completed?
    ensures old(w.Quiet()) && old(Undisturbed(w, t.job, t.book)) && OwnerIsOutput(old(w.rows), p) ==>
              Restored(w.u, old(w.rows), w.rows, w.server, p.main)
    ensures (old(w.Steady()) && !t.canonical.inProgress && t.canonical.ipTag == "" && AllUnchanged(TaskBasis(w.u, t), t.book.files, p.outputs)
            && Settled(w.u, old(w.rows), old(w.server), p)) ==>
              && TouchesNoWork(w) && Settled(w.u, w.rows, w.server, p) && KeepsTags(w, t.job.cfg.failedTag)
              && (old(w.Quiet()) && t.book.files == old(w.server.book.files) ==> status.Completed?)
  {
    ghost var rows, server, undisturbed := w.rows, w.server, Undisturbed(w, t.job, t.book);
    status := Derive(w, t, p);
    SettledIsLocal(w.u, rows, server, w.rows, w.server, p);
    if undisturbed {
      AchievedIsLeft(w.u, w.stamps, t, p, server, w.rows, w.server, status, firstTime);
    }
  }

  /** What the derivative part has achieved, in terms of the rows as they were read. */
  lemma SourcedOutcome(u: Unicode, stamps: (nat, Sha) -> Stamp, run: Run, p: Policy, t: Task, c: File, status: Status, s: Start, rows: Rows, e: Point, firstTime: bool)
    requires SourceTask(t, run, p, t.book, s.at.rows, c) && p.main == t.job.main && RowsOK(s.at.rows) && SameOwners(s.at.rows, rows)
    requires u.Valid() && ValidFormat(t.job.main) && t.job.canon.format == t.job.main && ValidOutputs(t.job, t.outputs)
    requires s.steady && status.Ignored? ==> HasTag(s.at.server.book.tags, run.cfg.ignoreTag)
    requires s.steady ==> t.book == s.at.server.book && CleanEnd(t, status, e.used, e.server.book)
    requires s.steady && HealthyAt(u, s.at, p.main) ==>
               && Sourced(u, t.job, s.at.server) && HealthyAt(u, e, p.main) && Left(u, e.rows, e.server, p, status)
               && (firstTime && Finished(status) ==> LeftSettled(u, e.rows, e.server, p))
               && (Finished(status) ==> WorkDone(u, t, p, e.rows, e.server))
    requires (s.quiet ==> s.steady) && (s.steady ==> MainIsTruthful(s.at.server, p.main))
    requires s.steady && s.at.rows.book.None? && CredibleServer(stamps, s.at.server) && MainIsTruthful(s.at.server, p.main) ==> firstTime
    requires s.quiet && HealthyAt(u, s.at, p.main) ==>
               && (Feasible(u, t, s.at.server) ==> status.Completed?)
               && (OwnerIsOutput(rows, p) ==> Restored(u, rows, e.rows, e.server, p.main))
    requires s.steady && !run.force && Settled(u, s.at.rows, s.at.server, p) ==>
               Idle(e, s, run.cfg.failedTag) && Settled(u, e.rows, e.server, p) && (s.quiet ==> status.Completed?)
    ensures Outcome(u, stamps, run, p, status, s, e)
  {
    SameOwnersRestored(u, s.at.rows, rows, p, e.rows, e.server);
    if s.steady && HealthyAt(u, s.at, p.main) {
      if FeasibleAt(u, run, p, s.at) {
        FeasibleWithMain(u, run, p, s.at, t, c);
      }
      if Finished(status) {
        WorkIsFulfilled(u, run, p, s.at, t, c, e.rows, e.server);
      }
    }
  }

  /** From the recorded source on, in terms of the rows as they were read. */
  method SyncSourced(w: World, run: Run, p: Policy, t: Task, ghost s: Start, ghost c: File) returns (status: Status)
    requires Begun(w, t) && TaskFor(t, p, w.rows) && SourceTask(t, run, p, t.book, s.at.rows, c)
    requires RowsOK(s.at.rows) && SameOwners(s.at.rows, w.rows) && NearlyAt(w, s)
    requires c in t.book.files && (s.steady ==> t.book == w.server.book && MainIsTruthful(w.server, p.main)) && (s.quiet ==> s.steady)
    requires s.steady && HealthyAt(w.u, s.at, p.main) ==> Undisturbed(w, t.job, t.book)
    requires s.steady && Settled(w.u, s.at.rows, s.at.server, p) ==>
               Settled(w.u, w.rows, w.server, p) && (!run.force ==> AllUnchanged(TaskBasis(w.u, t), t.book.files, p.outputs))
    modifies w
    ensures w.OK() && w.Goes() && w.Remembers()
    ensures Outcome(w.u, w.stamps, run, p, status, s, Here(w))
  {
    ghost var rows := w.rows;
    ghost var firstTime := s.steady && s.at.rows.book.None? && CredibleServer(w.stamps, w.server) && MainIsTruthful(w.server, p.main);
    if firstTime {
      NewBookIsHonest(w.stamps, w.server, s.at.rows, c);
    }
    status := SyncRecorded(w, t, p, firstTime);
    SourcedOutcome(w.u, w.stamps, run, p, t, c, status, s, rows, Here(w), firstTime);
  }

  /** The canonical file is there. */
  method SyncWithMain(w: World, run: Run, p: Policy, book: Book, read: Rows, c: File, ghost s: Start) returns (status: Status)
    requires Informed(w, run, p, book, read) && FindFile(book.files, p.main) == Some(c)
    requires StillAt(w, s) && (s.quiet ==> s.steady) && (s.steady ==> book == s.at.server.book)
    modifies w
    ensures w.OK() && w.Goes() && w.Remembers()
    ensures Outcome(w.u, w.stamps, run, p, status, s, Here(w))
  {
    FindFileFinds(book.files, p.main);
    InFilters(book.files, p.main, c);
    var task := RecordSource(w, run, p, book, read, c);
    if task.None? {
      NotRecorded(w, run, p, s, c);
      return Failed;
    }
    status := SyncSourced(w, run, p, task.value, s, c);
  }

  // ---- The main file is missing ----

  /** An owner's evidence includes the canonical file, so without one nothing is owed. */
  lemma MissingMainOwesNothing(u: Unicode, rows: Rows, server: Server, main: Format)
    requires RowsOK(rows) && Recoverable(u, rows, server, main) && !HasMain(server, main)
    ensures !rows.Row().inProgress && Unowned(rows)
  {
    assert forall f :: Owns(rows, f) ==> |FilesFor(server.book.files, main)| == 1;
  }

  /** What the server adds for a created main file. */
  function MainFile(u: Unicode, stamps: (nat, Sha) -> Stamp, server: Server, main: Format, source: File, sha: Sha): File {
    NewFile(stamps, server.nextId, main, OutputName(u, source.name, main), sha)
  }

  /** Downloads the source, converts it to the main format and uploads the result. */
  method MakeMain(w: World, run: Run, p: Policy, source: File) returns (made: Option<Sha>)
    requires w.OK() && w.u.Valid() && ValidPolicy(p) && run.policy == Some(p) && Ordered(run, w.h) && ListedNone(w.h.listed, p.main)
    modifies w
    ensures w.OK() && w.Goes() && w.Remembers() && w.rows == old(w.rows) && w.h.deletes == old(w.h.deletes) && w.h.used == old(w.h.used)
    ensures old(w.Steady()) ==> w.server.book.tags == old(w.server.book.tags) && (old(IdsBelow(w.server)) ==> IdsBelow(w.server))
    ensures old(w.Steady()) && made.Some? ==> w.server == AddFile(old(w.server), MainFile(w.u, w.stamps, old(w.server), p.main, source, made.value))
    ensures old(w.Steady()) && made.Some? ==> TruthfulIn(old(w.server.book.files), source)
    ensures old(w.Quiet()) && source in old(w.server.book.files) && TruthfulIn(old(w.server.book.files), source) ==> made.Some?
  {
    InFilters(w.server.book.files, source.format, source);
    var sha := FetchChecked(w, source, source.format);
    if sha.None? {
      return None;
    }
    made := w.Convert();
    if made.None? {
      return None;
    }
    var ok;
    ghost var did;
    ok, did := SendFile(w, p.main, source.name, made.value);
    if !ok {
      return None;
    }
  }

  /** Reads book and bytes back. */
  method ConfirmMain(w: World, p: Policy, sha: Sha) returns (found: Option<(Book, File)>)
    requires w.OK()
    modifies w
    ensures w.OnlyReads()
    ensures found.Some? ==>
              && found.value.0.tags <= w.h.observed && w.h.listed == Some(found.value.0) && FilesFor(found.value.0.files, p.main) == [found.value.1]
    ensures old(w.Steady()) && found.Some? ==> found.value.0 == w.server.book && found.value.1.content == sha
    ensures (old(w.Quiet()) && |FilesFor(w.server.book.files, p.main)| == 1 && UniqueIds(w.server.book.files)
            && FilesFor(w.server.book.files, p.main)[0].content == sha) ==> found.Some?
  {
    var book := w.GetLibraryBook();
    if book.None? || |FilesFor(book.value.files, p.main)| != 1 || !UniqueIds(book.value.files) {
      return None;
    }
    var c := FilesFor(book.value.files, p.main)[0];
    InFilters(book.value.files, p.main, c);
    OnceInUnique(book.value.files, c);
    var ok := VerifyUploadedFile(w, None, c, sha, book.value.files, 0);
    return if ok then Some((book.value, c)) else None;
  }

  /** The server has the created main file, and nobody did anything else. */
  ghost predicate MainMade(u: Unicode, stamps: (nat, Sha) -> Stamp, p: Policy, a: Server, b: Server, c: File, sha: Sha) {
    && FilesFor(b.book.files, p.main) == [c] && c.content == sha && c.name != "" && b.book.tags == a.book.tags
    && Others(b.book.files, p.main) == Others(a.book.files, p.main) && (IdsBelow(a) && UniqueIds(a.book.files) ==> UniqueIds(b.book.files))
    && (IdsBelow(a) ==> IdsBelow(b))
    && (CredibleServer(stamps, a) ==> Honest(stamps, b.nextId, c.mtime) && MainIsTruthful(b, p.main))
  }

  lemma MainIsListed(u: Unicode, stamps: (nat, Sha) -> Stamp, p: Policy, a: Server, source: File, sha: Sha)
    requires u.Valid() && ValidPolicy(p) && !HasMain(a, p.main)
    ensures var c := MainFile(u, stamps, a, p.main, source, sha);
            var files := AddFile(a, c).book.files;
            && FilesFor(files, p.main) == [c] && FindFile(files, p.main) == Some(c) && c.name != ""
            && Others(files, p.main) == Others(a.book.files, p.main) && (IdsBelow(a) && UniqueIds(a.book.files) ==> UniqueIds(files))
  {
    var c := MainFile(u, stamps, a, p.main, source, sha);
    OutputNameIsSafe(u, source.name, p.main);
    AddOnly(a.book.files, c);
    FindOnly(AddFile(a, c).book.files, p.main, c);
  }

  lemma MainIsHonest(u: Unicode, stamps: (nat, Sha) -> Stamp, p: Policy, a: Server, source: File, sha: Sha)
    requires CredibleServer(stamps, a)
    ensures var c := MainFile(u, stamps, a, p.main, source, sha); Honest(stamps, a.nextId + 1, c.mtime) && Truthful(c)
  {
    assert Honest(stamps, a.nextId, stamps(a.nextId, sha).mtime);
  }

  lemma MainIsMade(u: Unicode, stamps: (nat, Sha) -> Stamp, p: Policy, a: Server, source: File, sha: Sha)
    requires u.Valid() && ValidPolicy(p) && !HasMain(a, p.main)
    ensures var c := MainFile(u, stamps, a, p.main, source, sha); MainMade(u, stamps, p, a, AddFile(a, c), c, sha)
  {
    MainIsListed(u, stamps, p, a, source, sha);
    if CredibleServer(stamps, a) {
      MainIsHonest(u, stamps, p, a, source, sha);
    }
  }

  /** The task of a run that has just created the main file. */
  function CreatedTask(u: Unicode, run: Run, p: Policy, source: File, read: Rows, book: Book, c: File, sha: Sha): Task {
    var name := if c.name == "" then OutputName(u, source.name, p.main) else c.name;
    Task(Job(run.cfg, run.force, p.main, c, sha, name, c.mtime, true), map[], read.intents, p.outputs, book,
         CanonicalRow(u, p.main, c, sha, c.mtime, name, read.Row()))
  }

  lemma CreatedIsBegun(w: World, run: Run, p: Policy, source: File, read: Rows, book: Book, c: File, sha: Sha)
    requires w.OK() && w.u.Valid() && ValidPolicy(p) && run.policy == Some(p) && Ordered(run, w.h) && read.Row().pendingTag == ""
    requires book.tags <= w.h.observed && w.h.listed == Some(book) && FilesFor(book.files, p.main) == [c]
    requires w.rows == SetBook(read, CreatedTask(w.u, run, p, source, read, book, c, sha).canonical)
    ensures var t := CreatedTask(w.u, run, p, source, read, book, c, sha); Begun(w, t) && TaskFor(t, p, w.rows)
  {
    InFilters(book.files, p.main, c);
  }

  lemma CreatedIsSourced(u: Unicode, t: Task, rows: Rows, server: Server)
    requires FilesFor(t.book.files, t.job.main) == [t.job.canon] && t.book.files == server.book.files && Unowned(rows)
    requires t.job.name == t.job.canon.name && t.job.name != "" && t.job.canon.content == t.job.sha
    ensures Sourced(u, t.job, server) && Recoverable(u, rows, server, t.job.main)
  {
    FindOnly(server.book.files, t.job.main, t.job.canon);
  }

  /** Records the created main file as the canonical source of this run. */
  method RecordCreated(w: World, run: Run, p: Policy, source: File, read: Rows, book: Book, c: File, sha: Sha) returns (found: Option<Task>)
    requires Informed(w, run, p, book, read) && FilesFor(book.files, p.main) == [c]
    modifies w
    ensures w.OK() && TouchesNoWork(w) && Recorded(read, w.rows, c.mtime) && SameOwners(read, w.rows) && w.rows.Row().pendingTag == ""
    ensures old(w.Steady()) ==> w.server == old(w.server)
    ensures found.Some? ==>
              var t := found.value;
              && Begun(w, t) && TaskFor(t, p, w.rows) && t.book == book && t.job.cfg == run.cfg && t.job.mtime == c.mtime && t.job.canon == c
              && t.intents == read.intents && t.job.sha == sha && t.job.recreated && t.job.force == run.force && t.saved == map[]
              && SamePhase(read.Row(), t.canonical)
    ensures old(w.Quiet()) ==> found.Some?
    ensures (found.Some? && old(w.Steady()) && IdsBelow(old(w.server)) && Unowned(read)
            && book == old(w.server.book) && c.name != "" && c.content == sha) ==>
              Undisturbed(w, found.value.job, book)
  {
    var t := CreatedTask(w.u, run, p, source, read, book, c, sha);
    var ok := WriteCanonical(w, read, t.canonical);
    RecordedOwners(read, w.rows, c.mtime);
    if !ok {
      return None;
    }
    CreatedIsBegun(w, run, p, source, read, book, c, sha);
    if Unowned(read) && c.name != "" && c.content == sha && book.files == w.server.book.files {
      CreatedIsSourced(w.u, t, w.rows, w.server);
    }
    return Some(t);
  }

  /** Nothing was owed and nothing is: whatever else happened, the book is as well off as before. */
  lemma NothingOwedStill(u: Unicode, stamps: (nat, Sha) -> Stamp, run: Run, p: Policy, status: Status, s: Start, e: Point)
    requires RowsOK(s.at.rows) && (s.steady ==> !HasMain(s.at.server, p.main)) && (s.quiet ==> s.steady)
    requires s.steady && Unowned(s.at.rows) && IdsBelow(s.at.server) ==> IdsBelow(e.server) && Unowned(e.rows)
    requires SameOwners(s.at.rows, e.rows) && e.rows.Row().pendingTag == "" && (status.Failed? || status.Partial?)
    requires s.quiet && HealthyAt(u, s.at, p.main) ==> !FeasibleAt(u, run, p, s.at)
    ensures Outcome(u, stamps, run, p, status, s, e)
  {
    FindFileFinds(s.at.server.book.files, p.main);
    if s.steady && HealthyAt(u, s.at, p.main) {
      MissingMainOwesNothing(u, s.at.rows, s.at.server, p.main);
    }
  }

  lemma CreatedOutcome(u: Unicode, stamps: (nat, Sha) -> Stamp, run: Run, p: Policy, t: Task, status: Status, s: Start, e: Point, firstTime: bool)
    requires RowsOK(s.at.rows) && (s.steady ==> !HasMain(s.at.server, p.main)) && (s.quiet ==> s.steady)
    requires s.steady && status.Ignored? ==> HasTag(s.at.server.book.tags, run.cfg.ignoreTag)
    requires s.steady && Unowned(s.at.rows) && IdsBelow(s.at.server) ==>
               && HealthyAt(u, e, p.main) && Left(u, e.rows, e.server, p, status) && (firstTime && Finished(status) ==> LeftSettled(u, e.rows, e.server, p))
               && (s.quiet ==> !e.rows.Row().inProgress)
    requires s.at.rows.book.None? && CredibleServer(stamps, s.at.server) && s.steady ==> firstTime
    requires SamePhase(s.at.rows.Row(), t.canonical) && t.job.cfg == run.cfg && t.job.recreated
    requires s.steady ==> CleanEnd(t, status, e.used, e.server.book)
    requires s.steady && HealthyAt(u, s.at, p.main) && Finished(status) ==> WorkDone(u, t, p, e.rows, e.server)
    requires s.quiet && HealthyAt(u, s.at, p.main) && FeasibleAt(u, run, p, s.at) ==> status.Completed?
    ensures Outcome(u, stamps, run, p, status, s, e)
  {
    FindFileFinds(s.at.server.book.files, p.main);
    if s.steady && HealthyAt(u, s.at, p.main) {
      MissingMainOwesNothing(u, s.at.rows, s.at.server, p.main);
      if Finished(status) {
        CreatedIsFulfilled(u, run, p, s.at, t, e.rows, e.server);
      }
    }
  }

  /** A run that can go through once it has created the main file. */
  lemma FeasibleCreated(u: Unicode, stamps: (nat, Sha) -> Stamp, run: Run, p: Policy, at: Point, t: Task, server: Server)
    requires FeasibleAt(u, run, p, at) && !HasMain(at.server, p.main) && IdsBelow(at.server) && ValidPolicy(p) && Unowned(at.rows)
    requires MainMade(u, stamps, p, at.server, server, t.job.canon, t.job.sha) && Sourced(u, t.job, server) && t.book == server.book
    requires p.main == t.job.main && p.outputs == t.outputs && t.job.cfg == run.cfg && t.job.force == run.force
    requires t.intents == at.rows.intents && SamePhase(at.rows.Row(), t.canonical)
    ensures Feasible(u, t, server)
  {
    SoleIsValid(u, t.job, server);
    forall j | 0 <= j < |t.outputs| ensures Doable(u, t, server, j) {
      assert NeedsWork(u, run, p, at, p.outputs[j]);
      OtherFormatsAgree(server.book.files, at.server.book.files, p.main, t.outputs[j]);
      RipeOutput(u, t, server, j, t.outputs[j], run, at);
    }
  }

  /** With a created main file every output needs work. */
  lemma CreatedIsFulfilled(u: Unicode, run: Run, p: Policy, at: Point, t: Task, rows: Rows, server: Server)
    requires WorkDone(u, t, p, rows, server) && t.job.recreated
    ensures Fulfilled(u, run, p, at, rows, server)
  {
  }

  /** The state from which a run goes on that has recorded the main file it made. */
  ghost predicate Created(w: World, run: Run, p: Policy, t: Task, s: Start)
    reads w
  {
    && Begun(w, t) && TaskFor(t, p, w.rows) && t.intents == s.at.rows.intents && t.job.cfg == run.cfg && t.job.force == run.force
    && t.job.recreated && SamePhase(s.at.rows.Row(), t.canonical)
    && RowsOK(s.at.rows) && SameOwners(s.at.rows, w.rows)
    && (s.steady ==> !HasMain(s.at.server, p.main)) && (s.quiet ==> s.steady && w.Quiet())
    && (s.steady ==>
          && w.Steady() && Limited(w, s)
          && MainMade(w.u, w.stamps, p, s.at.server, w.server, t.job.canon, t.job.sha) && t.job.mtime == t.job.canon.mtime
          && (IdsBelow(w.server) && Unowned(s.at.rows) ==> Undisturbed(w, t.job, t.book)))
  }

  /** The derivative part of such a run. */
  method DeriveCreated(w: World, run: Run, p: Policy, t: Task, ghost s: Start) returns (status: Status)
    requires Created(w, run, p, t, s)
    modifies w
    ensures w.OK() && w.Goes() && w.Remembers()
    ensures Outcome(w.u, w.stamps, run, p, status, s, Here(w))
  {
    ghost var firstTime := s.steady && s.at.rows.book.None? && CredibleServer(w.stamps, s.at.server);
    if s.steady && HealthyAt(w.u, s.at, p.main) {
      MissingMainOwesNothing(w.u, s.at.rows, s.at.server, p.main);
      if FeasibleAt(w.u, run, p, s.at) {
        FeasibleCreated(w.u, w.stamps, run, p, s.at, t, w.server);
      }
    }
    status := SyncRecorded(w, t, p, firstTime);
    CreatedOutcome(w.u, w.stamps, run, p, t, status, s, Here(w), firstTime);
  }

  /** From the recorded main file on; the intents are read once more. */
  method SyncFromCreated(w: World, run: Run, p: Policy, t: Task, ghost s: Start) returns (status: Status)
    requires Created(w, run, p, t, s)
    modifies w
    ensures w.OK() && w.Goes() && w.Remembers()
    ensures Outcome(w.u, w.stamps, run, p, status, s, Here(w))
  {
    var reread := w.ReadRows();
    if reread.None? || (t.canonical.inProgress && |reread.value.intents| == 0) {
      NothingOwedStill(w.u, w.stamps, run, p, Partial, s, Here(w));
      return Partial;
    }
    status := DeriveCreated(w, run, p, t, s);
  }

  /** The created main file becomes the canonical source of this run. */
  method SyncCreatedMain(w: World, run: Run, p: Policy, source: File, read: Rows, book: Book, c: File, sha: Sha, ghost s: Start) returns (status: Status)
    requires Informed(w, run, p, book, read) && FilesFor(book.files, p.main) == [c] && read == s.at.rows
    requires (s.steady ==> !HasMain(s.at.server, p.main)) && (s.quiet ==> s.steady && w.Quiet())
    requires s.steady ==> w.Steady() && Limited(w, s) && book == w.server.book && MainMade(w.u, w.stamps, p, s.at.server, w.server, c, sha)
    modifies w
    ensures w.OK() && w.Goes() && w.Remembers()
    ensures Outcome(w.u, w.stamps, run, p, status, s, Here(w))
  {
    var task := RecordCreated(w, run, p, source, read, book, c, sha);
    if task.None? {
      NothingOwedStill(w.u, w.stamps, run, p, Failed, s, Here(w));
      return Failed;
    }
    status := SyncFromCreated(w, run, p, task.value, s);
  }

  /** Creates the main file and sees it listed, with the bytes that were uploaded. */
  method MakeConfirmed(w: World, run: Run, p: Policy, source: File) returns (made: Option<(Book, File, Sha)>)
    requires w.OK() && w.u.Valid() && ValidPolicy(p) && run.policy == Some(p) && Ordered(run, w.h) && ListedNone(w.h.listed, p.main)
    modifies w
    ensures w.OK() && w.Goes() && w.Remembers() && w.rows == old(w.rows) && w.h.deletes == old(w.h.deletes) && w.h.used == old(w.h.used)
    ensures old(w.Steady()) ==> w.server.book.tags == old(w.server.book.tags) && (old(IdsBelow(w.server)) ==> IdsBelow(w.server))
    ensures made.Some? ==>
              made.value.0.tags <= w.h.observed && w.h.listed == Some(made.value.0) && FilesFor(made.value.0.files, p.main) == [made.value.1]
    ensures (old(w.Quiet()) && !HasMain(old(w.server), p.main) && IdsBelow(old(w.server)) && UniqueIds(old(w.server.book.files))
            && source in old(w.server.book.files) && TruthfulIn(old(w.server.book.files), source)) ==> made.Some?
    ensures old(w.Steady()) && !HasMain(old(w.server), p.main) && made.Some? ==>
              made.value.0 == w.server.book && MainMade(w.u, w.stamps, p, old(w.server), w.server, made.value.1, made.value.2)
  {
    ghost var server := w.server;
    var sha := MakeMain(w, run, p, source);
    if sha.None? {
      return None;
    }
    if !HasMain(server, p.main) {
      MainIsMade(w.u, w.stamps, p, server, source, sha.value);
    }
    var confirmed := ConfirmMain(w, p, sha.value);
    if confirmed.None? {
      return None;
    }
    return Some((confirmed.value.0, confirmed.value.1, sha.value));
  }

  method CreateMissingMain(w: World, run: Run, p: Policy, source: File, read: Rows, ghost s: Start) returns (status: Status)
    requires w.OK() && w.u.Valid() && run.policy == Some(p) && ValidPolicy(p) && read == w.rows && read.Row().pendingTag == ""
    requires source.format in p.fallbacks && (s.steady ==> source in s.at.server.book.files)
    requires Ordered(run, w.h) && ListedNone(w.h.listed, p.main)
    requires StillAt(w, s) && (s.quiet ==> s.steady) && (s.steady ==> !HasMain(s.at.server, p.main))
    modifies w
    ensures w.OK() && w.Goes() && w.Remembers()
    ensures Outcome(w.u, w.stamps, run, p, status, s, Here(w))
  {
    var made := MakeConfirmed(w, run, p, source);
    if made.None? {
      NothingOwedStill(w.u, w.stamps, run, p, Failed, s, Here(w));
      return Failed;
    }
    status := SyncCreatedMain(w, run, p, source, read, made.value.0, made.value.1, made.value.2, s);
  }

  // ---- Sync ----

  /** A cleanup touches neither derivatives nor intents nor files. However it ends, the marker is
      there still or has gone, and the canonical columns are as they were; completed, it leaves
      nothing owed and nothing pending. */
  ghost predicate CleanupOutcome(run: Run, status: Status, s: Start, e: Point) {
    && NoWorkSince(e, s) && (Finished(status) || status.Partial?) && (s.quiet ==> status.Completed?)
    && e.rows.book.Some? && Unowned(e.rows) && !e.rows.Row().inProgress && e.rows.Row().ipTag == ""
    && e.rows.Row().canonicalMtime == s.at.rows.Row().canonicalMtime
    && (e.rows.Row().pendingTag == "" || (e.rows.Row().pendingTag == s.at.rows.Row().pendingTag && !Finished(status)))
    && (s.steady && s.at.rows.Row().pendingTag !in s.at.server.book.tags ==> Idle(e, s, run.cfg.failedTag))
    && (s.steady && Finished(status) ==> s.at.rows.Row().pendingTag !in e.server.book.tags)
    && (s.steady && status.Completed? ==> !HasTag(e.server.book.tags, run.cfg.failedTag))
  }

  lemma RestedFromPending(a: Rows, b: Rows, saved: BookRow, done: bool)
    requires RowsOK(a) && a.book == Some(saved) && saved.pendingTag != "" && RestedFrom(a, b, saved, done)
    ensures b.book.Some? && Unowned(b) && !b.Row().inProgress && b.Row().ipTag == "" && b.Row().canonicalMtime == a.Row().canonicalMtime
    ensures b.Row().pendingTag == "" || (b.Row().pendingTag == saved.pendingTag && !done)
  {
    forall f ensures !Owns(b, f) {
      assert !Owns(a, f);
    }
  }

  /** A run that finds a cleanup pending spends the tag and does nothing else. */
  method SyncPending(w: World, run: Run, book: Book, read: Rows, ghost s: Start) returns (status: Status)
    requires w.OK() && read == w.rows && read.Row().pendingTag != "" && w.h.failureTag == run.cfg.failedTag
    requires StillAt(w, s) && (s.quiet ==> s.steady) && (s.steady ==> book == s.at.server.book)
    modifies w
    ensures w.OK() && w.Goes() && w.Remembers()
    ensures CleanupOutcome(run, status, s, Here(w))
  {
    status := FinishPendingReplacementCleanup(w, run.cfg, book, read.Row(), s);
    RestedFromPending(read, w.rows, read.Row(), Finished(status));
  }

  lemma FallbacksAreFormats(p: Policy)
    requires ValidPolicy(p)
    ensures forall f :: f in p.fallbacks ==> f != "" && f != p.main
  {
  }

  /** The book, the rows and the policy are known, and there is no cleanup to do. */
  method SyncOutputs(w: World, run: Run, p: Policy, book: Book, read: Rows, ghost s: Start) returns (status: Status)
    requires Informed(w, run, p, book, read)
    requires StillAt(w, s) && (s.quiet ==> s.steady) && (s.steady ==> book == s.at.server.book)
    modifies w
    ensures w.OK() && w.Goes() && w.Remembers()
    ensures Outcome(w.u, w.stamps, run, p, status, s, Here(w))
  {
    FindFileFinds(book.files, p.main);
    FallbacksAreFormats(p);
    var c := FindFile(book.files, p.main);
    if c.Some? {
      status := SyncWithMain(w, run, p, book, read, c.value, s);
      return;
    }
    var source := SelectSource(book.files, p.main, p.fallbacks);
    if source.None? {
      NothingOwedStill(w.u, w.stamps, run, p, Failed, s, Here(w));
      return Failed;
    }
    status := CreateMissingMain(w, run, p, source.value, read, s);
  }

  /** Nothing at all was done. */
  ghost predicate NothingDone(s: Start, e: Point) {
    e.rows == s.at.rows && NoWorkSince(e, s) && (s.steady ==> e.server == s.at.server)
  }

  /** What Sync promises, from start s to end e, for the environment it ran in. */
  ghost predicate Promised(u: Unicode, stamps: (nat, Sha) -> Stamp, run: Run, status: Status, s: Start, e: Point) {
    if s.at.rows.Row().pendingTag != "" then
      if s.quiet || Finished(status) || status.Partial? then CleanupOutcome(run, status, s, e) else NothingDone(s, e)
    else
      && (s.steady && ToBeIgnored(run, s.at) ==> NothingDone(s, e) && !Finished(status) && (s.quiet ==> status.Ignored?))
      && if run.policy.Some? then Outcome(u, stamps, run, run.policy.value, status, s, e)
         else NothingDone(s, e) && !Finished(status) && (s.steady && status.Ignored? ==> HasTag(s.at.server.book.tags, run.cfg.ignoreTag))
  }

  /** The book has the ignore tag, and no phase is open. */
  ghost predicate ToBeIgnored(run: Run, at: Point) { HasTag(at.server.book.tags, run.cfg.ignoreTag) && !at.rows.Row().inProgress }

  /** A run that ends before it does anything, because something failed, or because the book is
      to be ignored. */
  lemma EndedEarly(w: World, run: Run, p: Policy, status: Status, s: Start)
    requires StillAt(w, s) && !Finished(status) && s.at.rows.Row().pendingTag == "" && RowsOK(s.at.rows)
    requires s.quiet ==> s.steady && status.Ignored?
    requires status.Ignored? ==> !s.at.rows.Row().inProgress && (s.steady ==> HasTag(s.at.server.book.tags, run.cfg.ignoreTag))
    ensures Outcome(w.u, w.stamps, run, p, status, s, Here(w))
  {
    PhaseHasOneOwner(s.at.rows);
    SettledIsLocal(w.u, s.at.rows, s.at.server, w.rows, w.server, p);
  }

  lemma PromisedEarly(w: World, run: Run, status: Status, s: Start)
    requires StillAt(w, s) && !Finished(status) && !status.Partial? && RowsOK(s.at.rows)
    requires s.quiet ==> s.steady && status.Ignored?
    requires status.Ignored? ==>
               && s.at.rows.Row().pendingTag == "" && !s.at.rows.Row().inProgress
               && (s.steady ==> HasTag(s.at.server.book.tags, run.cfg.ignoreTag))
    ensures Promised(w.u, w.stamps, run, status, s, Here(w))
  {
    if s.at.rows.Row().pendingTag == "" && run.policy.Some? {
      EndedEarly(w, run, run.policy.value, status, s);
    }
  }

  /** From the policy on. */
  method SyncByPolicy(w: World, run: Run, book: Book, read: Rows, ghost s: Start) returns (status: Status)
    requires w.OK() && w.u.Valid() && ValidRun(run) && Ordered(run, w.h)
    requires read == w.rows && read.Row().pendingTag == "" && book.tags <= w.h.observed && w.h.listed == Some(book)
    requires StillAt(w, s) && (s.quiet ==> s.steady) && (s.steady ==> book == s.at.server.book)
    modifies w
    ensures w.OK() && w.Goes() && w.Remembers()
    ensures run.policy.Some? ==> Outcome(w.u, w.stamps, run, run.policy.value, status, s, Here(w))
    ensures run.policy.None? ==> NothingDone(s, Here(w)) && status.Failed?
  {
    var reached := w.LocalCheck();   // the library answers
    if run.policy.None? {
      return Failed;
    }
    if !reached {
      EndedEarly(w, run, run.policy.value, Failed, s);
      return Failed;
    }
    var intents := w.ReadRows();
    if intents.None? {
      EndedEarly(w, run, run.policy.value, Failed, s);
      return Failed;
    }
    PhaseHasOneOwner(read);
    if read.Row().inProgress && |intents.value.intents| == 0 {
      return Partial;
    }
    status := SyncOutputs(w, run, run.policy.value, book, read, s);
  }

  /** From the book and the rows on. */
  method SyncRead(w: World, run: Run, book: Book, read: Rows, ghost s: Start) returns (status: Status)
    requires w.OK() && w.u.Valid() && ValidRun(run) && Ordered(run, w.h)
    requires read == w.rows && book.tags <= w.h.observed && w.h.listed == Some(book)
    requires StillAt(w, s) && (s.quiet ==> s.steady) && (s.steady ==> book == s.at.server.book)
    modifies w
    ensures w.OK() && w.Goes() && w.Remembers()
    ensures Promised(w.u, w.stamps, run, status, s, Here(w))
  {
    if read.Row().pendingTag != "" {
      status := SyncPending(w, run, book, read, s);
      return;
    }
    if HasTag(book.tags, run.cfg.ignoreTag) && !read.Row().inProgress {
      PromisedEarly(w, run, Ignored, s);
      return Ignored;
    }
    status := SyncByPolicy(w, run, book, read, s);
  }

  /** The body of Sync, once the run's orders are on record. */
  method SyncLocked(w: World, run: Run, ghost s: Start) returns (status: Status)
    requires w.OK() && w.u.Valid() && ValidRun(run) && Ordered(run, w.h)
    requires StillAt(w, s) && (s.quiet ==> s.steady)
    modifies w
    ensures w.OK() && w.Goes() && w.Remembers()
    ensures Promised(w.u, w.stamps, run, status, s, Here(w))
  {
    var book := w.GetLibraryBook();
    if book.None? {
      PromisedEarly(w, run, Failed, s);
      return Failed;
    }
    var read := w.ReadRows();
    if read.None? {
      PromisedEarly(w, run, Failed, s);
      return Failed;
    }
    status := SyncRead(w, run, book.value, read.value, s);
  }

  method Sync(w: World, run: Run) returns (status: Status)
    requires w.OK() && w.u.Valid() && ValidRun(run)
    modifies w
    ensures w.OK() && w.GoesOn() && (old(w.Steady()) ==> w.server.book.tags <= old(w.server.book.tags)) && (old(w.Contained()) ==> w.Contained())
    ensures w.h.orders == old(w.h.orders) + [OrdersOf(run)] && w.h.failureTags == old(w.h.failureTags) + {run.cfg.failedTag}
    ensures old(w.h.usable) <= w.h.usable && w.h.prior == old(w.h.listed)
    ensures Promised(w.u, w.stamps, run, status, old(Now(w)), Here(w))
  {
    ghost var s := Now(w);
    w.BeginRun(OrdersOf(run));
    status := SyncLocked(w, run, s);
  }

  // ---- What the promise means ----

  /** The run works with this main format, if it gets that far. */
  ghost predicate RunsOn(run: Run, main: Format) { run.policy.Some? ==> run.policy.value.main == main }

  /** While nobody interferes, what is owed stays recoverable. */
  lemma PromiseKeepsHealth(u: Unicode, stamps: (nat, Sha) -> Stamp, run: Run, main: Format, status: Status, s: Start, e: Point)
    requires Promised(u, stamps, run, status, s, e) && s.steady && RunsOn(run, main) && HealthyAt(u, s.at, main)
    ensures HealthyAt(u, e, main)
  {
  }

  /** A book that waits for a cleanup is current but for that. */
  ghost predicate OnPace(u: Unicode, rows: Rows, server: Server, p: Policy) {
    rows.Row().pendingTag != "" ==> Current(u, rows, server, p)
  }

  /** While nobody interferes and the policy stays: if a pending cleanup means that everything else
      was done, it still does, and then every run that finishes has converged. */
  lemma PromiseKeepsPace(u: Unicode, stamps: (nat, Sha) -> Stamp, run: Run, p: Policy, status: Status, s: Start, e: Point)
    requires Promised(u, stamps, run, status, s, e) && s.steady && run.policy == Some(p) && HealthyAt(u, s.at, p.main)
    requires OnPace(u, s.at.rows, s.at.server, p)
    ensures OnPace(u, e.rows, e.server, p) && (Finished(status) ==> Converged(u, e.rows, e.server, p))
  {
    if s.at.rows.Row().pendingTag != "" {
      OutlookDecides(u, s.at.rows, s.at.server, e.rows, e.server, p);
    }
  }

  /** A completed cleanup settles the book exactly when its outputs were current before. */
  lemma CleanupSettles(u: Unicode, stamps: (nat, Sha) -> Stamp, run: Run, p: Policy, status: Status, s: Start, e: Point)
    requires Promised(u, stamps, run, status, s, e) && s.steady && s.at.rows.Row().pendingTag != "" && Finished(status)
    ensures Settled(u, e.rows, e.server, p) <==> NothingToDo(u, s.at.rows, s.at.server, p)
  {
    OutlookDecides(u, s.at.rows, s.at.server, e.rows, e.server, p);
  }

  /** Starts from which an undisturbed run is sure to complete: a cleanup to do, nothing, or only
      what can be done. */
  ghost predicate WillComplete(u: Unicode, run: Run, s: Start) {
    && s.quiet && s.steady
    && (s.at.rows.Row().pendingTag != ""
        || (!run.force && run.policy.Some? && Settled(u, s.at.rows, s.at.server, run.policy.value)
            && MainIsTruthful(s.at.server, run.policy.value.main) && !HasTag(s.at.server.book.tags, run.cfg.ignoreTag))
        || (run.policy.Some? && HealthyAt(u, s.at, run.policy.value.main) && FeasibleAt(u, run, run.policy.value, s.at)))
  }
}
