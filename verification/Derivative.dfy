/** One derivative from its plan to its committed row (the loop body of Sync and createMissingMain). */
module Derivative {
  import opened Inventory
  import opened Checkpoints
  import opened ArtifactName
  import opened Planner
  import opened World
  import opened Recovery
  import Safety
  import opened Resume
  import opened Upload

  // ---- A format nothing of which has to be deleted ----

  /** Either a plain intent, or the owner's intent renewed with the evidence it had. */
  ghost predicate Storable(w: World, i: Intent)
    reads w
  {
    if Owns(w.rows, i.format) then
      && i.target == w.rows.intents[i.format].target && i.tag == w.rows.intents[i.format].tag
      && ListedNone(w.h.listed, i.format)
    else FreshIntent(i)
  }

  method StoreIntent(w: World, job: Job, plan: Plan, i: Intent) returns (ok: bool)
    requires Working(w, job, plan.format) && i.format == plan.format && Storable(w, i)
    modifies w
    ensures Working(w, job, plan.format) && w.LeavesServer() && w.h == old(w.h)
    ensures w.rows == old(w.rows) || SetIntent(old(w.rows), i) == Some(w.rows)
    ensures ok ==> SetIntent(old(w.rows), i) == Some(w.rows) && !w.crashed
    ensures forall f :: Owns(w.rows, f) <==> Owns(old(w.rows), f)
    ensures old(w.Quiet()) && ValidIntent(i) ==> ok
  {
    if SetIntent(w.rows, i).Some? {
      if Owns(w.rows, plan.format) { Safety.RenewIntentKeepsGood(w.rows, w.h, i); RenewIntentOK(w.rows, i); }
      else { Safety.SetFreshIntentKeepsGood(w.rows, w.h, i); SetFreshIntentOK(w.rows, i); }
    }
    ghost var did;
    ok, did := w.SetIntent(i);
  }

  /** The intent is durable before the upload starts. */
  method StoreIntentAndUpload(w: World, job: Job, plan: Plan, i: Intent, output: Sha) returns (ok: bool)
    requires Working(w, job, plan.format) && JobFits(w.u, job, plan)
    requires i.format == plan.format && Storable(w, i)
    requires i.outputSha == Some(output) && i.outputName == OutputName(w.u, job.name, plan.format)
    modifies w
    ensures Working(w, job, plan.format) && w.Goes() && w.Remembers() && w.h.deletes == old(w.h.deletes)
    ensures w.rows == old(w.rows) || SetIntent(old(w.rows), i) == Some(w.rows)
    ensures ok ==> SetIntent(old(w.rows), i) == Some(w.rows)
    ensures old(w.Steady()) && old(IdsBelow(w.server)) ==>
              && SameOthers(w.server, old(w.server), plan.format) && IdsBelow(w.server)
              && OnlyAdds(w.stamps, old(w.server), w.server, plan.format)
    ensures (old(w.Steady()) && old(IdsBelow(w.server)) && old(Recoverable(w.u, w.rows, w.server, job.main))
            && (Owns(old(w.rows), plan.format) ==>
                  EvidenceFits(w.u, i, old(w.server), job.main) && FilesFor(old(w.server.book.files), plan.format) == [])) ==>
              Recoverable(w.u, w.rows, w.server, job.main)
    ensures old(w.Quiet()) && old(IdsBelow(w.server)) && ValidIntent(i) ==>
              && ok
              && var x := NewFile(w.stamps, old(w.server).nextId, plan.format, i.outputName, output);
              && w.server == AddFile(old(w.server), x)
              && x.name == i.outputName && x.id == old(w.server).nextId && x.content == output
  {
    ghost var server, rows := w.server, w.rows;
    ok := StoreIntent(w, job, plan, i);
    if !ok {
      return;
    }
    if w.Steady() && IdsBelow(server) {
      UploadedFile(w.u, w.stamps, server, plan.format, job.name, output);
      UploadOnlyAdds(w.stamps, server, plan.format, i.outputName, output);
      if Owns(rows, plan.format) && EvidenceFits(w.u, i, server, job.main) && FilesFor(server.book.files, plan.format) == [] {
        AddIsRecoverable(w.u, w.stamps, i, server, job.main);
      }
    }
    ghost var did;
    ok, did := SendFile(w, plan.format, job.name, output);
  }

  // ---- Verification and commit ----

  function UploadedDerivedState(job: Job, plan: Plan, x: File, output: Sha): Derived {
    Derived(plan.format, x.id, Some(job.sha), Some(output), plan.gen, x.mtime)
  }

  /** The format has one file, and its committed row vouches for it. */
  ghost predicate Committed(u: Unicode, job: Job, rows: Rows, server: Server, f: Format) {
    && f in rows.derived && f !in rows.intents
    && |FilesFor(server.book.files, f)| == 1
    && VouchedFor(u, rows.derived[f], FilesFor(server.book.files, f)[0], job.sha, job.name, f)
  }

  lemma UploadIsSound(u: Unicode, job: Job, plan: Plan, book: Book, x: File, output: Sha, row: BookRow, sights: seq<Sight>, i: nat, m: nat)
    requires FilesFor(book.files, plan.format) == [x] && x.name == OutputName(u, job.name, plan.format)
    requires x.id != 0 && x.id != job.canon.id && Marked(u, job, plan) && Based(row, job)
    requires i + 1 < m < |sights| - 1
    requires sights[i] == SawBook(book) && sights[i + 1] == Fetched(plan.format, output)
    requires sights[m].SawBook? && ValidateCanonicalBook(job, sights[m].book) && SameInventory(sights[m].book.files, book.files)
    requires sights[m + 1] == Fetched(job.main, job.sha)
    ensures CommitSound(UploadedDerivedState(job, plan, x, output), row, sights)
  {
    assert EvidenceAt(UploadedDerivedState(job, plan, x, output), row, sights, i, i + 1, m, m + 1);
  }

  /** What a listing must be for the upload to pass its verification. */
  ghost predicate Verifiable(u: Unicode, job: Job, plan: Plan, before: Option<File>, output: Sha, book: Book) {
    && ValidateCanonicalBook(job, book) && FilesFor(book.files, job.main)[0].content == job.sha
    && |FilesFor(book.files, plan.format)| == 1
    && var x := FilesFor(book.files, plan.format)[0];
    && x.name == OutputName(u, job.name, plan.format) && x.content == output
    && x.id != job.canon.id && (before.Some? ==> x.id != before.value.id)
  }

  lemma OnceInUnique(files: seq<File>, x: File)
    requires x in files
    ensures UniqueIds(files) ==> CountedOnce(files, x.id)
  {
    var i :| 0 <= i < |files| && files[i] == x;
    if UniqueIds(files) {
      assert files[i].id == x.id && forall j :: 0 <= j < |files| && files[j].id == x.id ==> j == i;
    }
  }

  /** The listing showed the file under its name, and its bytes were fetched after that. */
  ghost predicate Inspected(u: Unicode, job: Job, plan: Plan, x: File, book: Book, output: Sha, sights: seq<Sight>, at: nat) {
    && FilesFor(book.files, plan.format) == [x] && x.name == OutputName(u, job.name, plan.format)
    && x.id != 0 && x.id != job.canon.id
    && at + 1 < |sights| && sights[at] == SawBook(book) && sights[at + 1] == Fetched(plan.format, output)
  }

  /** Reads the book and the uploaded bytes back. */
  method InspectUpload(w: World, job: Job, plan: Plan, before: Option<File>, output: Sha) returns (found: Option<(File, Book)>)
    modifies w
    ensures w.OnlyReads() && w.made == old(w.made)
    ensures found.Some? ==>
              && !w.crashed && found.value.1.tags <= w.h.observed && |w.h.sights| == |old(w.h.sights)| + 2
              && Inspected(w.u, job, plan, found.value.0, found.value.1, output, w.h.sights, |old(w.h.sights)|)
              && (before.Some? ==> found.value.0.id != before.value.id)
    ensures old(w.Steady()) && found.Some? ==> found.value.1 == w.server.book && found.value.0.content == output
    ensures old(w.Quiet()) && Verifiable(w.u, job, plan, before, output, w.server.book) ==> found.Some?
  {
    var seen := w.GetLibraryBook();
    if seen.None? {
      return None;
    }
    var book := seen.value;
    var file := FindUploadedFile(book.files, plan.format, OutputName(w.u, job.name, plan.format));
    if file.None? {
      return None;
    }
    InFilters(book.files, plan.format, file.value);
    OnceInUnique(book.files, file.value);
    var ok := VerifyUploadedFile(w, before, file.value, output, book.files, job.canon.id);
    return if ok then Some((file.value, book)) else None;
  }

  /** A commit of this file now would be sound, if this run's canonical source is on record. */
  ghost predicate UploadBacked(u: Unicode, job: Job, plan: Plan, x: File, output: Sha, row: BookRow, sights: seq<Sight>) {
    Marked(u, job, plan) && Based(row, job) ==> CommitSound(UploadedDerivedState(job, plan, x, output), row, sights)
  }

  lemma InspectedIsBacked(u: Unicode, job: Job, plan: Plan, x: File, book: Book, output: Sha, row: BookRow, sofar: seq<Sight>, sights: seq<Sight>, i: nat, m: nat)
    requires Inspected(u, job, plan, x, book, output, sofar, i) && sofar <= sights && |sofar| <= m < |sights| - 1
    requires sights[m].SawBook? && ValidateCanonicalBook(job, sights[m].book) && SameInventory(sights[m].book.files, book.files)
    requires sights[m + 1] == Fetched(job.main, job.sha)
    ensures UploadBacked(u, job, plan, x, output, row, sights)
  {
    if Marked(u, job, plan) && Based(row, job) {
      assert sights[i] == sofar[i] && sights[i + 1] == sofar[i + 1];
      UploadIsSound(u, job, plan, book, x, output, row, sights, i, m);
    }
  }

  /** Reads the book, the uploaded bytes and the canonical source back. */
  method VerifyUpload(w: World, job: Job, plan: Plan, before: Option<File>, output: Sha) returns (found: Option<(File, Book)>)
    modifies w
    ensures w.OnlyReads() && w.made == old(w.made)
    ensures found.Some? ==>
              && !w.crashed && found.value.1.tags <= w.h.observed
              && UploadBacked(w.u, job, plan, found.value.0, output, w.rows.Row(), w.h.sights)
              && |w.h.sights| == |old(w.h.sights)| + 6
              && LookedTwice(job, found.value.1, w.h.sights[..|old(w.h.sights)| + 2], w.h.sights)
    ensures old(w.Steady()) && found.Some? ==>
              && found.value.1 == w.server.book && FilesFor(w.server.book.files, plan.format) == [found.value.0]
              && Verifiable(w.u, job, plan, before, output, w.server.book) && found.value.0.id != 0
    ensures old(w.Quiet()) && Verifiable(w.u, job, plan, before, output, w.server.book) ==> found.Some?
  {
    ghost var at := |w.h.sights|;
    found := InspectUpload(w, job, plan, before, output);
    if found.None? {
      return;
    }
    ghost var sofar := w.h.sights;
    var ok;
    ghost var m;
    ok, m := RevalidateCanonicalSource(w, job, found.value.1);
    if !ok {
      return None;
    }
    assert sofar == w.h.sights[..at + 2];
    InspectedIsBacked(w.u, job, plan, found.value.0, found.value.1, output, w.rows.Row(), sofar, w.h.sights, at, m);
  }

  /** A commit may record this tag. */
  ghost predicate Taggable(rows: Rows, usable: set<string>, tag: string) {
    tag != "" ==> tag in usable && tag == rows.Row().ipTag
  }

  lemma CommitKeepsTag(rows: Rows, h: History, row: Derived, tag: string)
    requires TagKept(rows, h) && Taggable(rows, h.usable, tag) && Commit(rows, row, tag).Some?
    ensures var next := Commit(rows, row, tag).value; TagKept(next, Committing(rows, next, row, h))
  {
    var next := Commit(rows, row, tag).value;
    assert next.Row().ipTag == rows.Row().ipTag;
    forall t ensures !Stray(Committing(rows, next, row, h).used, next.Row().ipTag, t) {
      assert !Stray(h.used, rows.Row().ipTag, t);
    }
  }

  lemma CommitIsGood(rows: Rows, h: History, job: Job, f: Format, row: Derived, tag: string)
    requires WorkingAt(rows, h, job, f) && Mandated(job, h) && row.format == f && f != ""
    requires CommitSound(row, rows.Row(), h.sights) && Taggable(rows, h.usable, tag)
    ensures Commit(rows, row, tag).Some?
    ensures var next := Commit(rows, row, tag).value;
            && WorkingAt(next, Committing(rows, next, row, h), job, f)
            && CommitStep(rows, next, f, tag) && Unowned(next)
            && next.derived[f] == row && f !in next.intents && !next.Row().inProgress
  {
    Safety.CommitKeepsGood(rows, h, row, tag);
    CommitOK(rows, row, tag);
    CommitKeepsTag(rows, h, row, tag);
  }

  /** Makes the row authoritative, on the evidence seen so far in this run; the intent and the
      phase go with it. */
  method CommitRow(w: World, job: Job, plan: Plan, row: Derived, tag: string) returns (ok: bool)
    requires Working(w, job, plan.format) && Mandated(job, w.h) && row.format == plan.format && plan.format != ""
    requires CommitSound(row, w.rows.Row(), w.h.sights) && Taggable(w.rows, w.h.usable, tag)
    modifies w
    ensures Working(w, job, plan.format) && w.LeavesServer() && w.Remembers()
    ensures w.h.deletes == old(w.h.deletes) && w.h.uploads == old(w.h.uploads)
    ensures w.rows == old(w.rows) || (CommitStep(old(w.rows), w.rows, plan.format, tag) && Unowned(w.rows))
    ensures ok ==>
              && CommitStep(old(w.rows), w.rows, plan.format, tag) && Unowned(w.rows)
              && w.rows.derived[plan.format] == row && plan.format !in w.rows.intents && !w.rows.Row().inProgress
    ensures old(w.Quiet()) ==> ok
  {
    CommitIsGood(w.rows, w.h, job, plan.format, row, tag);
    ghost var did;
    ok, did := w.CommitDerived(row, tag);
  }

  method VerifyAndCommit(w: World, job: Job, plan: Plan, before: Option<File>, output: Sha, tag: string) returns (verified: Option<Book>)
    requires Working(w, job, plan.format) && Mandated(job, w.h) && JobFits(w.u, job, plan)
    requires Taggable(w.rows, w.h.usable, tag)
    modifies w
    ensures Working(w, job, plan.format) && w.Goes() && w.Remembers()
    ensures w.h.deletes == old(w.h.deletes) && w.h.uploads == old(w.h.uploads)
    ensures w.rows == old(w.rows) || Unowned(w.rows)
    ensures w.rows == old(w.rows) || CommitStep(old(w.rows), w.rows, plan.format, tag)
    ensures verified.Some? ==>
              && verified.value.tags <= w.h.observed && !w.rows.Row().inProgress
              && CommitStep(old(w.rows), w.rows, plan.format, tag)
    ensures old(w.Steady()) ==> w.server == old(w.server)
    ensures old(w.Steady()) && verified.Some? ==>
              && verified.value == w.server.book && Committed(w.u, job, w.rows, w.server, plan.format) && ValidateCanonicalBook(job, w.server.book)
              && (before.Some? ==> FilesFor(w.server.book.files, plan.format)[0].id != before.value.id)
    ensures old(w.Quiet()) && Verifiable(w.u, job, plan, before, output, old(w.server.book)) ==> verified.Some?
    ensures old(w.Quiet()) && verified.None? ==> w.rows == old(w.rows)
  {
    var found := VerifyUpload(w, job, plan, before, output);
    if found.None? {
      return None;
    }
    var row := UploadedDerivedState(job, plan, found.value.0, output);
    var ok := CommitRow(w, job, plan, row, tag);
    return if ok then Some(found.value.1) else None;
  }

  // ---- One attempt: convert, put on the server, verify, commit ----

  /** The rows may differ for format f only. */
  ghost predicate SameElsewhere(a: Rows, b: Rows, f: Format) {
    forall g :: g != f ==>
      && (g in a.derived <==> g in b.derived) && (g in a.derived ==> a.derived[g] == b.derived[g])
      && (g in a.intents <==> g in b.intents) && (g in a.intents ==> a.intents[g] == b.intents[g])
  }

  /** An existing file has to make room. */
  predicate Replacing(plan: Plan, before: Option<File>) { plan.blocked && before.Some? }

  function Stored(rows: Rows, i: Intent, plan: Plan, before: Option<File>): Option<Rows> {
    if Replacing(plan, before) then Prepare(rows, Aimed(i, before.value)) else Checkpoints.SetIntent(rows, i)
  }

  /** The intent with which an attempt starts, once the output is known. */
  function AttemptIntent(u: Unicode, job: Job, plan: Plan, expected: Book, output: Sha, tag: string, prepared: Option<Intent>): Intent {
    var i := UploadIntentFor(u, job, plan, StableFingerprint(expected.files, plan.format), output, tag);
    if prepared.Some? then PreservePreparedReplacementEvidence(prepared.value, i) else i
  }

  /** The conditions under which the loop starts an attempt. */
  ghost predicate Startable(w: World, job: Job, plan: Plan, before: Option<File>, expected: Book, tag: string, prepared: Option<Intent>, authorized: bool)
    reads w
  {
    var rows, f := w.rows, plan.format;
    && Working(w, job, f) && JobFits(w.u, job, plan) && Mandated(job, w.h)
    && (tag != "" ==> tag in w.h.usable && rows.Row().ipTag in {"", tag})
    && if Replacing(plan, before) then
         && prepared.None?
         && (Owns(rows, f) ==> rows.intents[f].target.id == before.value.id)
         && (authorized && !Owns(rows, f) ==> rows.Row().ipTag != "")
         && (!job.force && !job.cfg.replacePolicy && !Owns(rows, f) ==> tag != "" || rows.Row().ipTag != "")
         && (tag != "" && rows.Row().ipTag == "" ==> tag == job.cfg.replacementTag)
         && (Unsettled(rows, f) ==> job.force)
       else
         && tag == ""
         && (if Owns(rows, f) then prepared == Some(rows.intents[f]) && w.h.listed == Some(expected) && FilesFor(expected.files, f) == [] else prepared.None?)
  }

  lemma RenewedEvidenceFits(u: Unicode, job: Job, plan: Plan, expected: Book, output: Sha, prepared: Intent, server: Server)
    requires JobFits(u, job, plan) && UpToDate(expected, server) && Grounded(u, job, server)
    requires EvidenceFits(u, prepared, server, job.main) && prepared.format == plan.format
    ensures EvidenceFits(u, AttemptIntent(u, job, plan, expected, output, "", Some(prepared)), server, job.main)
  {
  }

  /** The server after an undisturbed upload beside whatever it already has. */
  ghost predicate PlainlyAdded(u: Unicode, stamps: (nat, Sha) -> Stamp, job: Job, plan: Plan, output: Sha, a: Server, b: Server) {
    var x := NewFile(stamps, a.nextId, plan.format, OutputName(u, job.name, plan.format), output);
    && b == AddFile(a, x)
    && x.name == OutputName(u, job.name, plan.format) && x.id == a.nextId && x.content == output
  }

  /** An upload that replaces nothing. */
  method UploadPlainly(w: World, job: Job, plan: Plan, before: Option<File>, expected: Book, output: Sha, prepared: Option<Intent>) returns (ok: bool)
    requires Startable(w, job, plan, before, expected, "", prepared, false) && !Replacing(plan, before)
    modifies w
    ensures Working(w, job, plan.format) && w.Goes() && w.Remembers()
    ensures var i := AttemptIntent(w.u, job, plan, expected, output, "", prepared);
            && (w.rows == old(w.rows) || Checkpoints.SetIntent(old(w.rows), i) == Some(w.rows))
            && (ok ==> Checkpoints.SetIntent(old(w.rows), i) == Some(w.rows))
    ensures Unharmed(w, job, expected, plan.format)
    ensures old(w.Quiet()) && old(Alone(w, job, expected)) ==>
              ok && PlainlyAdded(w.u, w.stamps, job, plan, output, old(w.server), w.server)
  {
    var i := AttemptIntent(w.u, job, plan, expected, output, "", prepared);
    assert Owns(w.rows, plan.format) ==> IntentOK(w.rows, plan.format);
    if Alone(w, job, expected) && Owns(w.rows, plan.format) && Recoverable(w.u, w.rows, w.server, job.main) {
      RenewedEvidenceFits(w.u, job, plan, expected, output, prepared.value, w.server);
    }
    IntentIsValid(w.u, job, plan, StableFingerprint(expected.files, plan.format), output, "");
    ok := StoreIntentAndUpload(w, job, plan, i, output);
  }

  /** Stores the evidence and changes the server: plainly, or by the replacement sequence. */
  method UploadDerivative(w: World, job: Job, plan: Plan, before: Option<File>, expected: Book, output: Sha, tag: string,
                          prepared: Option<Intent>, authorized: bool) returns (destructive: bool, ok: bool)
    requires Startable(w, job, plan, before, expected, tag, prepared, authorized)
    modifies w
    ensures Working(w, job, plan.format) && w.Goes() && w.Remembers()
    ensures var i := AttemptIntent(w.u, job, plan, expected, output, tag, prepared);
            && (w.rows == old(w.rows) || Stored(old(w.rows), i, plan, before) == Some(w.rows))
            && (ok ==> Stored(old(w.rows), i, plan, before) == Some(w.rows))
    ensures ok ==> (destructive <==> Replacing(plan, before))
    ensures ok && Replacing(plan, before) ==> Unambiguous(job, plan, before.value, expected)
    ensures Unharmed(w, job, expected, plan.format)
    ensures (old(w.Quiet()) && old(Alone(w, job, expected)) && Replacing(plan, before)) ==>
              if ok then Final(w.u, job, Aimed(AttemptIntent(w.u, job, plan, expected, output, tag, prepared), before.value), w.server)
              else w.rows == old(w.rows) && w.server == old(w.server)
    ensures (old(w.Quiet()) && old(Alone(w, job, expected)) && Replacing(plan, before) && Unambiguous(job, plan, before.value, expected)
            && Replaceable(job, old(w.server.book), plan.format, before.value, authorized)) ==> ok
    ensures (old(w.Quiet()) && old(Alone(w, job, expected)) && !Replacing(plan, before)) ==>
              ok && PlainlyAdded(w.u, w.stamps, job, plan, output, old(w.server), w.server)
  {
    ghost var i := AttemptIntent(w.u, job, plan, expected, output, tag, prepared);
    if !plan.blocked || before.None? {
      ok := UploadPlainly(w, job, plan, before, expected, output, prepared);
      return false, ok;
    }
    destructive, ok := ReplaceFile(w, job, plan, before.value, expected,
                                   UploadIntentFor(w.u, job, plan, StableFingerprint(expected.files, plan.format), output, tag),
                                   output, tag, authorized);
  }

  lemma FinalIsVerifiable(u: Unicode, job: Job, plan: Plan, i: Intent, server: Server, before: File, output: Sha)
    requires Final(u, job, i, server) && i.format == plan.format && i.target.id == before.id
    requires i.outputSha == Some(output) && i.outputName == OutputName(u, job.name, plan.format)
    ensures Verifiable(u, job, plan, Some(before), output, server.book)
  {
  }

  /** The canonical file is alone of its format, as recorded, and the plan's format has no file. */
  ghost predicate Addable(u: Unicode, job: Job, plan: Plan, server: Server) {
    && JobFits(u, job, plan) && Grounded(u, job, server) && UniqueIds(server.book.files) && IdsBelow(server)
    && |FilesFor(server.book.files, job.main)| == 1 && FilesFor(server.book.files, plan.format) == []
  }

  lemma AddedIsVerifiable(u: Unicode, stamps: (nat, Sha) -> Stamp, job: Job, plan: Plan, a: Server, b: Server, output: Sha)
    requires Addable(u, job, plan, a)
    requires PlainlyAdded(u, stamps, job, plan, output, a, b)
    ensures Verifiable(u, job, plan, None, output, b.book)
  {
    UploadedFile(u, stamps, a, plan.format, job.name, output);
    OtherFormatsAgree(a.book.files, b.book.files, plan.format, job.main);
    InFilters(a.book.files, job.main, FilesFor(a.book.files, job.main)[0]);
  }

  /** A commit of format f closed whatever phase was open; the row keeps or takes the tag. */
  ghost predicate Closed(a: Rows, b: Rows, f: Format, tag: string) {
    && b.book.Some? && !b.Row().inProgress && b.Row().pendingTag == a.Row().pendingTag
    && b.Row().ipTag == (if tag != "" then tag else a.Row().ipTag)
    && Unowned(b)
  }

  lemma AttemptCloses(a: Rows, stored: Rows, b: Rows, i: Intent, plan: Plan, before: Option<File>)
    requires a.book.Some? && i.format == plan.format
    requires stored == a || Stored(a, i, plan, before) == Some(stored)
    ensures SameElsewhere(a, stored, plan.format)
    ensures !Replacing(plan, before) ==> stored.Row() == a.Row()
    ensures b == stored || CommitStep(stored, b, plan.format, i.tag) ==> SameElsewhere(a, b, plan.format)
    ensures CommitStep(stored, b, plan.format, i.tag) && Unowned(b) ==> Closed(a, b, plan.format, i.tag)
  {
  }

  /** What an undisturbed attempt needs to succeed: the old file can be replaced, or there is none. */
  ghost predicate Finishable(w: World, job: Job, plan: Plan, before: Option<File>, expected: Book, authorized: bool)
    reads w
  {
    && Recoverable(w.u, w.rows, w.server, job.main)
    && if Replacing(plan, before) then
         Unambiguous(job, plan, before.value, expected) && Replaceable(job, w.server.book, plan.format, before.value, authorized)
       else
         && before.None? && FilesFor(w.server.book.files, plan.format) == []
         && UniqueIds(w.server.book.files) && |FilesFor(w.server.book.files, job.main)| == 1
  }

  /** The tag of the intent that an attempt stores. */
  ghost predicate TagGiven(rows: Rows, usable: set<string>, plan: Plan, before: Option<File>, i: Intent) {
    && i.format == plan.format && (i.tag != "" ==> i.tag in usable)
    && (i.tag == "" || Replacing(plan, before) || (rows.Row().inProgress && rows.Row().ipTag == i.tag))
  }

  lemma StartedTagIsGiven(w: World, job: Job, plan: Plan, before: Option<File>, expected: Book, output: Sha, tag: string, prepared: Option<Intent>, authorized: bool)
    requires Startable(w, job, plan, before, expected, tag, prepared, authorized)
    ensures TagGiven(w.rows, w.h.usable, plan, before, AttemptIntent(w.u, job, plan, expected, output, tag, prepared))
    ensures w.rows.book.Some?
  {
    if prepared.Some? { assert IntentOK(w.rows, plan.format); }
  }

  lemma StoredIsCommittable(u: Unicode, a: Rows, h0: History, rows: Rows, h: History, job: Job, plan: Plan, before: Option<File>, i: Intent)
    requires Mandated(job, h0) && JobFits(u, job, plan) && a.book.Some? && TagGiven(a, h0.usable, plan, before, i)
    requires WorkingAt(rows, h, job, plan.format) && Stored(a, i, plan, before) == Some(rows)
    requires h.orders == h0.orders && h.failureTag == h0.failureTag && h0.usable <= h.usable
    ensures Committable(u, rows, h, job, plan, before, i, a)
  {
  }

  lemma FinishableIsAddable(w: World, job: Job, plan: Plan, before: Option<File>, expected: Book, tag: string, prepared: Option<Intent>, authorized: bool)
    requires Startable(w, job, plan, before, expected, tag, prepared, authorized) && Alone(w, job, expected)
    requires Finishable(w, job, plan, before, expected, authorized) && !Replacing(plan, before)
    ensures Addable(w.u, job, plan, w.server)
  {
  }

  /** The intent i has been stored over the rows a, and may be committed once the upload is verified. */
  ghost predicate Committable(u: Unicode, rows: Rows, h: History, job: Job, plan: Plan, before: Option<File>, i: Intent, a: Rows) {
    && WorkingAt(rows, h, job, plan.format) && Mandated(job, h) && JobFits(u, job, plan)
    && a.book.Some? && i.format == plan.format && Stored(a, i, plan, before) == Some(rows) && Taggable(rows, h.usable, i.tag)
  }

  /** What putting an output on the server does to rows and server, from (a, sa) to (b, sb): alone,
      quiet and sure say that nobody interferes, nothing fails, and the attempt is finishable. */
  ghost predicate Placed(u: Unicode, stamps: (nat, Sha) -> Stamp, job: Job, plan: Plan, before: Option<File>, expected: Book, output: Sha,
                         a: Rows, sa: Server, b: Rows, sb: Server, alone: bool, quiet: bool, sure: bool, ok: bool) {
    && SameElsewhere(a, b, plan.format) && (!Replacing(plan, before) ==> b.Row() == a.Row())
    && (ok && Replacing(plan, before) ==> Unambiguous(job, plan, before.value, expected))
    && (alone ==> UnharmedAt(u, stamps, job, plan.format, a, sa, b, sb))
    && (quiet && alone ==>
          if ok then Replacing(plan, before) || sure ==> Verifiable(u, job, plan, before, output, sb.book)
          else b == a && sb == sa)
    && (quiet && alone && sure ==> ok)
  }

  /** As above, in terms of what the verification and the commit will look for. */
  method PlaceUpload(w: World, job: Job, plan: Plan, before: Option<File>, expected: Book, output: Sha, tag: string,
                     prepared: Option<Intent>, authorized: bool) returns (destructive: bool, ok: bool)
    requires Startable(w, job, plan, before, expected, tag, prepared, authorized)
    modifies w
    ensures Working(w, job, plan.format) && w.Goes() && w.Remembers()
    ensures var i := AttemptIntent(w.u, job, plan, expected, output, tag, prepared);
            && (w.rows == old(w.rows) || Stored(old(w.rows), i, plan, before) == Some(w.rows))
            && (ok ==> Stored(old(w.rows), i, plan, before) == Some(w.rows))
    ensures ok ==> Committable(w.u, w.rows, w.h, job, plan, before, AttemptIntent(w.u, job, plan, expected, output, tag, prepared), old(w.rows))
    ensures ok ==> (destructive <==> Replacing(plan, before))
    ensures Placed(w.u, w.stamps, job, plan, before, expected, output, old(w.rows), old(w.server), w.rows, w.server,
                   old(Alone(w, job, expected)), old(w.Quiet()), old(Finishable(w, job, plan, before, expected, authorized)), ok)
  {
    ghost var rows, h, server, alone, quiet := w.rows, w.h, w.server, Alone(w, job, expected), w.Quiet();
    StartedTagIsGiven(w, job, plan, before, expected, output, tag, prepared, authorized);
    ghost var adding := alone && !Replacing(plan, before) && Finishable(w, job, plan, before, expected, authorized);
    if adding {
      FinishableIsAddable(w, job, plan, before, expected, tag, prepared, authorized);
    }
    ghost var i := AttemptIntent(w.u, job, plan, expected, output, tag, prepared);
    destructive, ok := UploadDerivative(w, job, plan, before, expected, output, tag, prepared, authorized);
    AttemptCloses(rows, w.rows, w.rows, i, plan, before);
    if ok {
      StoredIsCommittable(w.u, rows, h, w.rows, w.h, job, plan, before, i);
    }
    if quiet && alone && ok {
      if Replacing(plan, before) {
        FinalIsVerifiable(w.u, job, plan, Aimed(i, before.value), w.server, before.value, output);
      } else if adding {
        AddedIsVerifiable(w.u, w.stamps, job, plan, server, w.server, output);
      }
    }
  }

  /** Every file of the format is a later upload. */
  ghost predicate AllNew(stamps: (nat, Sha) -> Stamp, a: Server, b: Server, f: Format) {
    a.nextId <= b.nextId && forall x :: x in FilesFor(b.book.files, f) ==> x.id >= a.nextId && Stamped(stamps, x)
  }

  /** No file of the format had to stay. */
  predicate MakesRoom(plan: Plan, files: seq<File>) { FilesFor(files, plan.format) != [] ==> plan.blocked }

  lemma VerifiedIsNew(plan: Plan, before: Option<File>, expected: Book, stamps: (nat, Sha) -> Stamp, a: Server, b: Server)
    requires before == FindFile(expected.files, plan.format) && expected.files == a.book.files && MakesRoom(plan, expected.files)
    requires Replacing(plan, before) ==> |FilesFor(expected.files, plan.format)| == 1
    requires |FilesFor(b.book.files, plan.format)| == 1 && OnlyAdds(stamps, a, b, plan.format)
    requires before.Some? ==> FilesFor(b.book.files, plan.format)[0].id != before.value.id
    ensures AllNew(stamps, a, b, plan.format)
  {
    FindFileFinds(expected.files, plan.format);
    if before.Some? {
      FindOnly(expected.files, plan.format, FilesFor(expected.files, plan.format)[0]);
    }
  }

  lemma CommittedIsRecoverable(u: Unicode, rows: Rows, server: Server, main: Format)
    requires Unowned(rows)
    ensures Recoverable(u, rows, server, main)
  {
  }

  /** What verification and commit do to rows and server, from (stored, ss) to (b, sb), for an attempt
      that started with rows a. */
  ghost predicate Verified(u: Unicode, job: Job, plan: Plan, before: Option<File>, output: Sha, a: Rows, stored: Rows, ss: Server, b: Rows, sb: Server,
                           steady: bool, quiet: bool, verified: Option<Book>) {
    && SameElsewhere(a, b, plan.format)
    && (Recoverable(u, stored, sb, job.main) ==> Recoverable(u, b, sb, job.main))
    && (steady ==> sb == ss)
    && (steady && verified.Some? ==>
          && verified.value == sb.book && Committed(u, job, b, sb, plan.format) && ValidateCanonicalBook(job, sb.book)
          && (before.Some? ==> FilesFor(sb.book.files, plan.format)[0].id != before.value.id))
    && (quiet && Verifiable(u, job, plan, before, output, ss.book) ==> verified.Some?)
    && (quiet && verified.None? ==> b == stored)
  }

  /** Verifies and commits what was stored for a, the rows the attempt started with. */
  method VerifyStored(w: World, job: Job, plan: Plan, before: Option<File>, output: Sha, i: Intent, ghost a: Rows) returns (verified: Option<Book>)
    requires Committable(w.u, w.rows, w.h, job, plan, before, i, a)
    modifies w
    ensures Working(w, job, plan.format) && w.Goes() && w.Remembers()
    ensures verified.Some? ==> verified.value.tags <= w.h.observed && Closed(a, w.rows, plan.format, i.tag)
    ensures Verified(w.u, job, plan, before, output, a, old(w.rows), old(w.server), w.rows, w.server, old(w.Steady()), old(w.Quiet()), verified)
  {
    ghost var stored := w.rows;
    verified := VerifyAndCommit(w, job, plan, before, output, i.tag);
    AttemptCloses(a, stored, w.rows, i, plan, before);
    if Unowned(w.rows) {
      CommittedIsRecoverable(w.u, w.rows, w.server, job.main);
    }
  }

  /** What an attempt does to rows and server, from (a, sa) to (b, sb). Verified, it ends with a
      committed file that is not the one there was before; undisturbed, a finishable one is verified. */
  ghost predicate Ended(u: Unicode, stamps: (nat, Sha) -> Stamp, job: Job, plan: Plan, before: Option<File>, expected: Book,
                        a: Rows, sa: Server, b: Rows, sb: Server, steady: bool, alone: bool, quiet: bool, sure: bool, verified: Option<Book>) {
    && SameElsewhere(a, b, plan.format)
    && (alone ==> UnharmedAt(u, stamps, job, plan.format, a, sa, b, sb))
    && (steady && verified.Some? ==>
          && verified.value == sb.book && Committed(u, job, b, sb, plan.format) && ValidateCanonicalBook(job, sb.book)
          && (before.Some? ==> FilesFor(sb.book.files, plan.format)[0].id != before.value.id))
    && (verified.Some? && Replacing(plan, before) ==> |FilesFor(expected.files, plan.format)| == 1)
    && (quiet && alone && verified.None? ==> b.Row() == a.Row())
    && (quiet && alone && sure ==> verified.Some?)
  }

  lemma NotPlacedIsEnded(u: Unicode, stamps: (nat, Sha) -> Stamp, job: Job, plan: Plan, before: Option<File>, expected: Book, output: Sha,
                         a: Rows, sa: Server, b: Rows, sb: Server, steady: bool, alone: bool, quiet: bool, sure: bool)
    requires Placed(u, stamps, job, plan, before, expected, output, a, sa, b, sb, alone, quiet, sure, false)
    ensures Ended(u, stamps, job, plan, before, expected, a, sa, b, sb, steady, alone, quiet, sure, None)
  {
  }

  lemma VerifiedIsEnded(u: Unicode, stamps: (nat, Sha) -> Stamp, job: Job, plan: Plan, before: Option<File>, expected: Book, output: Sha,
                        a: Rows, sa: Server, stored: Rows, ss: Server, b: Rows, sb: Server,
                        steady: bool, alone: bool, quiet: bool, sure: bool, still: bool, calm: bool, verified: Option<Book>)
    requires Placed(u, stamps, job, plan, before, expected, output, a, sa, stored, ss, alone, quiet, sure, true)
    requires Verified(u, job, plan, before, output, a, stored, ss, b, sb, still, calm, verified)
    requires (alone ==> steady) && (steady ==> still) && (quiet ==> calm)
    ensures Ended(u, stamps, job, plan, before, expected, a, sa, b, sb, steady, alone, quiet, sure, verified)
  {
  }

  /** Uploads and, when that worked, verifies and commits. */
  method UploadAndCommit(w: World, job: Job, plan: Plan, before: Option<File>, expected: Book, output: Sha, tag: string,
                         prepared: Option<Intent>, authorized: bool) returns (destructive: bool, verified: Option<Book>)
    requires Startable(w, job, plan, before, expected, tag, prepared, authorized)
    modifies w
    ensures Working(w, job, plan.format) && w.Goes() && w.Remembers()
    ensures verified.Some? ==>
              && verified.value.tags <= w.h.observed
              && (destructive <==> Replacing(plan, before))
              && Closed(old(w.rows), w.rows, plan.format, if prepared.Some? then prepared.value.tag else tag)
    ensures Ended(w.u, w.stamps, job, plan, before, expected, old(w.rows), old(w.server), w.rows, w.server, old(w.Steady()),
                  old(Alone(w, job, expected)), old(w.Quiet()), old(Finishable(w, job, plan, before, expected, authorized)), verified)
  {
    ghost var rows, server, steady, alone, quiet, sure :=
      w.rows, w.server, w.Steady(), Alone(w, job, expected), w.Quiet(), Finishable(w, job, plan, before, expected, authorized);
    var i := AttemptIntent(w.u, job, plan, expected, output, tag, prepared);
    assert i.tag == if prepared.Some? then prepared.value.tag else tag;
    var ok;
    destructive, ok := PlaceUpload(w, job, plan, before, expected, output, tag, prepared, authorized);
    if !ok {
      NotPlacedIsEnded(w.u, w.stamps, job, plan, before, expected, output, rows, server, w.rows, w.server, steady, alone, quiet, sure);
      return destructive, None;
    }
    ghost var stored, ss, still, calm := w.rows, w.server, w.Steady(), w.Quiet();
    verified := VerifyStored(w, job, plan, before, output, i, rows);
    VerifiedIsEnded(w.u, w.stamps, job, plan, before, expected, output, rows, server, stored, ss, w.rows, w.server,
                    steady, alone, quiet, sure, still, calm, verified);
  }
}
