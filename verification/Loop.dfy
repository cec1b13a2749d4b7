/** The derivative loop shared by Sync and createMissingMain (service.go): one format at a time,
    the owner of an unfinished replacement before any other. */
module Loop {
  import opened Inventory
  import opened Checkpoints
  import opened ArtifactName
  import opened Planner
  import opened World
  import opened Recovery
  import opened Resume
  import opened Upload
  import opened Derivative

  // ---- Adoption of what an earlier run uploaded ----

  lemma AdoptedIsCommitted(u: Unicode, job: Job, plan: Plan, i: Intent, x: File, rows: Rows, server: Server)
    requires JobFits(u, job, plan) && i.sourceSha == Some(job.sha) && i.gen == plan.gen
    requires ShowsCandidate(u, job, plan, StableFingerprint(server.book.files, plan.format), server.book.files)
    requires BytesFit(job, plan, i, server.book.files) && FilesFor(server.book.files, plan.format)[0] == x
    requires plan.format in rows.derived && rows.derived[plan.format] == AdoptedDerivedState(plan, x, i)
    requires plan.format !in rows.intents
    ensures Committed(u, job, rows, server, plan.format)
  {
  }

  /** Nothing was uploaded or deleted. */
  ghost predicate OnlyLooked(a: History, b: History) { a.uploads == b.uploads && a.deletes == b.deletes }

  /** The rows are as they were, or a row of this format was committed and nobody owns a phase. */
  ghost predicate KeptOrClosed(a: Rows, b: Rows, f: Format, tag: string) {
    SameElsewhere(a, b, f) && (b == a || Closed(a, b, f, tag))
  }

  lemma SeeingKeepsWorking(rows: Rows, a: History, b: History, job: Job, f: Format)
    requires WorkingAt(rows, a, job, f) && Mandated(job, a) && Sees(a, b) && Good(rows, b)
    ensures WorkingAt(rows, b, job, f) && Mandated(job, b) && b.uploads == a.uploads && b.deletes == a.deletes
  {
  }

  /** Commits the row of a file whose adoption is backed. */
  method CommitAdopted(w: World, job: Job, plan: Plan, i: Intent, x: File) returns (ok: bool)
    requires Working(w, job, plan.format) && Mandated(job, w.h) && JobFits(w.u, job, plan)
    requires plan.format in w.rows.intents && w.rows.intents[plan.format] == i
    requires i.gen == plan.gen && AdoptionBacked(w.u, job, plan, i, x, w.rows.Row(), w.h.sights)
    modifies w
    ensures Working(w, job, plan.format) && w.LeavesServer() && w.Remembers()
    ensures OnlyLooked(old(w.h), w.h) && KeptOrClosed(old(w.rows), w.rows, plan.format, i.tag)
    ensures ok ==>
              && Closed(old(w.rows), w.rows, plan.format, i.tag) && plan.format !in w.rows.intents
              && plan.format in w.rows.derived && w.rows.derived[plan.format] == AdoptedDerivedState(plan, x, i)
    ensures old(w.Quiet()) ==> ok
  {
    assert IntentOK(w.rows, plan.format);
    ghost var rows := w.rows;
    ok := CommitRow(w, job, plan, AdoptedDerivedState(plan, x, i), i.tag);
    AttemptCloses(rows, rows, w.rows, i, plan, None);
  }

  /** Not ok: the server or the store failed. Nothing adopted: the evidence does not agree. */
  method Adopt(w: World, job: Job, plan: Plan, i: Intent, expected: Book) returns (ok: bool, adopted: Option<Book>)
    requires Working(w, job, plan.format) && Mandated(job, w.h) && JobFits(w.u, job, plan)
    requires plan.format in w.rows.intents && w.rows.intents[plan.format] == i
    modifies w
    ensures Working(w, job, plan.format) && w.Goes() && w.Remembers()
    ensures OnlyLooked(old(w.h), w.h) && KeptOrClosed(old(w.rows), w.rows, plan.format, i.tag)
    ensures adopted.Some? ==>
              && ok && adopted.value.tags <= w.h.observed && Closed(old(w.rows), w.rows, plan.format, i.tag)
    ensures ok && adopted.None? ==> w.rows == old(w.rows) && w.h.used == old(w.h.used)
    ensures old(w.Steady()) ==> w.server == old(w.server)
    ensures old(w.Steady()) && adopted.Some? ==>
              adopted.value == w.server.book && Committed(w.u, job, w.rows, w.server, plan.format) && ValidateCanonicalBook(job, w.server.book)
    ensures old(w.Quiet()) ==> ok
    ensures (old(w.Quiet()) && IntentFits(w.u, job, plan, i, expected.files)
            && Adoptable(w.u, job, plan, i, ExpectedStable(plan, i, expected.files), old(w.server.book.files))) ==> adopted.Some?
  {
    ghost var steady, rows, h := w.Steady(), w.rows, w.h;
    var found;
    ok, found := RecoverableIntentCandidate(w, job, expected, plan, i);
    if !ok || found.None? {
      return ok, None;
    }
    SeeingKeepsWorking(rows, h, w.h, job, plan.format);
    ok := CommitAdopted(w, job, plan, i, found.value.0);
    if !ok {
      return false, None;
    }
    if steady {
      AdoptedIsCommitted(w.u, job, plan, i, found.value.0, w.rows, w.server);
    }
    return true, Some(found.value.1);
  }

  // ---- The loop's own copy of the durable columns ----

  /** What a run carries from one format to the next. `inProgress` and `ipTag` copy the stored
      columns of those names; the run decides by the copies. */
  datatype Vol = Vol(expected: Book, inProgress: bool, ipTag: string, pendingCleanup: string, authorized: bool, phaseCleared: bool)

  /** The copies agree with the store. */
  predicate Mirrors(row: BookRow, vol: Vol) {
    && row.inProgress == vol.inProgress && row.ipTag == vol.ipTag
    && vol.pendingCleanup == vol.ipTag
    && vol.authorized == (vol.inProgress || vol.ipTag != "")
  }

  ghost predicate SyncedAt(rows: Rows, h: History, job: Job, vol: Vol) {
    && Good(rows, h) && rows.book.Some? && rows.Row().pendingTag == "" && Based(rows.Row(), job)
    && Mirrors(rows.Row(), vol) && TagKept(rows, h)
    && vol.expected.tags <= h.observed
  }

  ghost predicate Synced(w: World, job: Job, vol: Vol)
    reads w
  {
    SyncedAt(w.rows, w.h, job, vol)
  }

  function TagNoted(vol: Vol, tag: string): Vol {
    if tag != "" then vol.(pendingCleanup := tag, ipTag := tag) else vol
  }

  function PhaseLeft(vol: Vol): Vol {
    vol.(inProgress := false, authorized := vol.pendingCleanup != "", phaseCleared := true)
  }

  function AfterUpload(vol: Vol, tag: string, closing: bool, book: Book): Vol {
    var noted := if tag != "" then TagNoted(vol, tag).(authorized := true) else vol;
    (if closing then PhaseLeft(noted) else noted).(expected := book)
  }

  /** createMissingMain, the loop with a recreated canonical file, does not mark the run as
      authorized when it adopts; Sync does. */
  function AfterAdoption(vol: Vol, tag: string, closing: bool, recreated: bool, book: Book): Vol {
    var noted := if tag != "" && !recreated then TagNoted(vol, tag).(authorized := true) else TagNoted(vol, tag);
    (if closing then PhaseLeft(noted) else noted).(expected := book)
  }

  /** After a commit the copies agree again, in both loops: the tag of an adopted intent is
      already the stored one, so the difference between the two cannot be observed. */
  lemma CopiesFollowCommit(rows: Rows, next: Rows, f: Format, tag: string, vol: Vol, closing: bool, recreated: bool, book: Book)
    requires Mirrors(rows.Row(), vol) && Closed(rows, next, f, tag)
    requires vol.inProgress ==> closing
    ensures Mirrors(next.Row(), AfterUpload(vol, tag, closing, book))
    ensures tag in {"", rows.Row().ipTag} ==>
              && Mirrors(next.Row(), AfterAdoption(vol, tag, closing, recreated, book))
              && AfterAdoption(vol, tag, closing, recreated, book) == AfterAdoption(vol, tag, closing, !recreated, book)
  {
  }

  // ---- Rebuilding a format ----

  /** How the unfinished replacement of this format continues. */
  ghost predicate Continues(rows: Rows, plan: Plan, files: seq<File>, prepared: Option<Intent>) {
    && Owns(rows, plan.format)
    && if prepared.Some? then prepared.value == rows.intents[plan.format] && ReplacementTargetMissing(files, plan.format, prepared.value)
       else plan.blocked && ReplacementTargetMatches(files, plan.format, rows.intents[plan.format])
  }

  /** The recorded target is still there: it can be replaced. */
  lemma ResumeIsReplaceable(u: Unicode, job: Job, plan: Plan, i: Intent, expected: Book, server: Server, x: File)
    requires i.format == plan.format && plan.format != job.main && EvidenceFits(u, i, server, job.main)
    requires expected.files == server.book.files && Grounded(u, job, server)
    requires ReplacementTargetMatches(expected.files, plan.format, i) && x == FilesFor(expected.files, plan.format)[0]
    ensures Unambiguous(job, plan, x, expected) && Replaceable(job, server.book, plan.format, x, true)
  {
    InFilters(server.book.files, job.main, FilesFor(server.book.files, job.main)[0]);
  }

  lemma ContinuesIsFinishable(w: World, job: Job, plan: Plan, prepared: Option<Intent>, expected: Book, before: Option<File>)
    requires w.OK() && JobFits(w.u, job, plan) && Alone(w, job, expected) && Recoverable(w.u, w.rows, w.server, job.main)
    requires Continues(w.rows, plan, expected.files, prepared) && before == FindFile(expected.files, plan.format)
    ensures Finishable(w, job, plan, before, expected, true)
  {
    var i := w.rows.intents[plan.format];
    assert IntentOK(w.rows, plan.format) && RecoverableIntent(w.u, i, w.server, job.main);
    FindFileFinds(expected.files, plan.format);
    if prepared.None? {
      var x := FilesFor(expected.files, plan.format)[0];
      FindOnly(expected.files, plan.format, x);
      ResumeIsReplaceable(w.u, job, plan, i, expected, w.server, x);
    }
  }

  /** A file that may be the upload of an unsettled intent stays, but for force. */
  predicate Spared(rows: Rows, job: Job, plan: Plan, files: seq<File>) {
    plan.blocked && Unsettled(rows, plan.format) && FilesFor(files, plan.format) != [] ==> job.force
  }

  /** What only a tag allows goes under a tag: the one on record, or else the run's own. */
  ghost predicate TagFits(job: Job, plan: Plan, before: Option<File>, ipTag: string, mine: bool, tag: string) {
    && (Replacing(plan, before) && !job.force && !job.cfg.replacePolicy && !mine ==> tag != "" || ipTag != "")
    && (tag != "" ==> tag == if ipTag != "" then ipTag else job.cfg.replacementTag)
  }

  lemma ContinuesIsStartable(w: World, job: Job, plan: Plan, prepared: Option<Intent>, expected: Book, before: Option<File>, tag: string, authorized: bool)
    requires Working(w, job, plan.format) && JobFits(w.u, job, plan) && Mandated(job, w.h)
    requires if Owns(w.rows, plan.format) then Continues(w.rows, plan, expected.files, prepared) && w.h.listed == Some(expected) else prepared.None?
    requires before == FindFile(expected.files, plan.format)
    requires tag != "" ==> tag in w.h.usable && w.rows.Row().ipTag in {"", tag} && Replacing(plan, before)
    requires authorized <==> Owns(w.rows, plan.format) || w.rows.Row().ipTag != ""
    requires TagFits(job, plan, before, w.rows.Row().ipTag, Owns(w.rows, plan.format), tag)
    requires Spared(w.rows, job, plan, expected.files)
    ensures Startable(w, job, plan, before, expected, tag, prepared, authorized)
  {
    FindFileFinds(expected.files, plan.format);
    if Owns(w.rows, plan.format) && prepared.None? {
      FindOnly(expected.files, plan.format, FilesFor(expected.files, plan.format)[0]);
    }
  }

  /** The tag an attempt is recorded under. */
  function AttemptTag(job: Job, plan: Plan, before: Option<File>, vol: Vol): string {
    var requested := HasTag(vol.expected.tags, job.cfg.replacementTag) || vol.ipTag != "";
    var tag := if vol.ipTag != "" then vol.ipTag else job.cfg.replacementTag;
    if requested && !job.force && !job.cfg.replacePolicy && plan.blocked && before.Some? then tag else ""
  }

  lemma GroundedStays(u: Unicode, job: Job, f: Format, a: Server, b: Server)
    requires Grounded(u, job, a) && SameOthers(b, a, f) && f != job.main
    ensures Grounded(u, job, b)
  {
    OtherFormatsAgree(b.book.files, a.book.files, f, job.main);
  }

  /** Making room needs the tags of the listing, or an open phase, or a tag on record. */
  predicate Allowed(job: Job, plan: Plan, vol: Vol) {
    plan.blocked ==> ReplacementAllowedForState(job.cfg, vol.expected.tags, vol.inProgress, vol.ipTag, job.force)
  }

  /** The state in which the loop may rebuild a format. */
  ghost predicate Rebuildable(w: World, job: Job, plan: Plan, prepared: Option<Intent>, vol: Vol)
    reads w
  {
    && Synced(w, job, vol) && Working(w, job, plan.format) && JobFits(w.u, job, plan) && Mandated(job, w.h)
    && (vol.inProgress <==> Owns(w.rows, plan.format)) && Spared(w.rows, job, plan, vol.expected.files)
    && if Owns(w.rows, plan.format) then Continues(w.rows, plan, vol.expected.files, prepared) && w.h.listed == Some(vol.expected) else prepared.None?
  }

  /** What an attempt does to rows and server, nobody interfering (alone) and nothing failing (quiet). */
  ghost predicate AttemptOK(u: Unicode, stamps: (nat, Sha) -> Stamp, job: Job, plan: Plan, vol: Vol, rows0: Rows, server0: Server, rows: Rows, server: Server,
                            alone: bool, quiet: bool, verified: bool) {
    && SameElsewhere(rows0, rows, plan.format)
    && (alone && Recoverable(u, rows0, server0, job.main) ==>
          && Recoverable(u, rows, server, job.main) && SameOthers(server, server0, plan.format) && IdsBelow(server)
          && OnlyAdds(stamps, server0, server, plan.format)
          && (verified && MakesRoom(plan, vol.expected.files) ==> AllNew(stamps, server0, server, plan.format))
          && (quiet && (vol.inProgress || Ripe(job, plan, vol.ipTag != "", server0)) ==> verified))
    && (alone && quiet && !verified ==> rows.Row() == rows0.Row())
  }

  /** The outcome of one attempt at a format. */
  twostate predicate Attempted(w: World, job: Job, plan: Plan, vol: Vol, new verified: Option<Book>, new tag: string)
    reads w
  {
    && Working(w, job, plan.format) && w.Goes() && w.Remembers()
    && (verified.Some? ==> verified.value.tags <= w.h.observed && Closed(old(w.rows), w.rows, plan.format, tag))
    && (vol.ipTag != "" ==> tag in {"", vol.ipTag})
    && (old(w.Steady()) && verified.Some? ==>
          && verified.value == w.server.book && Committed(w.u, job, w.rows, w.server, plan.format) && ValidateCanonicalBook(job, w.server.book))
    && AttemptOK(w.u, w.stamps, job, plan, vol, old(w.rows), old(w.server), w.rows, w.server, old(Alone(w, job, vol.expected)), old(w.Quiet()), verified.Some?)
  }

  lemma AttemptIsOK(u: Unicode, stamps: (nat, Sha) -> Stamp, job: Job, plan: Plan, vol: Vol, before: Option<File>, rows0: Rows, server0: Server,
                    rows: Rows, server: Server, steady: bool, alone: bool, quiet: bool, sure: bool, verified: Option<Book>)
    requires before == FindFile(vol.expected.files, plan.format)
    requires alone ==> steady && vol.expected.files == server0.book.files
    requires Ended(u, stamps, job, plan, before, vol.expected, rows0, server0, rows, server, steady, alone, quiet, sure, verified)
    requires alone && Recoverable(u, rows0, server0, job.main) && (vol.inProgress || Ripe(job, plan, vol.ipTag != "", server0)) ==> sure
    ensures AttemptOK(u, stamps, job, plan, vol, rows0, server0, rows, server, alone, quiet, verified.Some?)
  {
    if alone && Recoverable(u, rows0, server0, job.main) && verified.Some? && MakesRoom(plan, vol.expected.files) {
      VerifiedIsNew(plan, before, vol.expected, stamps, server0, server);
    }
  }

  /** The tag of an attempt is on record, or this run was configured with it and has seen it. */
  lemma AttemptTagIsUsable(rows: Rows, h: History, job: Job, plan: Plan, before: Option<File>, vol: Vol)
    requires SyncedAt(rows, h, job, vol) && Mandated(job, h)
    ensures var tag := AttemptTag(job, plan, before, vol);
            && (tag != "" ==> tag in h.usable && rows.Row().ipTag in {"", tag} && Replacing(plan, before))
            && (Allowed(job, plan, vol) ==> TagFits(job, plan, before, vol.ipTag, vol.inProgress, tag))
  {
    assert TagsOK(h.orders, h.sights, h.observed, h.usable) && RowTagsOK(rows, h.usable, h.spent);
  }

  /** Work on the plan is sure to succeed while nobody interferes and nothing fails: the canonical file
      is alone of its format, ids are unique, and the format has no file, or one which may go. */
  ghost predicate Ripe(job: Job, plan: Plan, tagged: bool, server: Server) {
    && ValidateCanonicalBook(job, server.book)
    && var found := FilesFor(server.book.files, plan.format);
       if found == [] then !plan.blocked
       else plan.blocked && |found| == 1 && (tagged || ReplacementAllowed(job.cfg, server.book.tags, job.force))
  }

  lemma RipeIsReplaceable(u: Unicode, job: Job, plan: Plan, tagged: bool, server: Server, before: Option<File>, authorized: bool)
    requires JobFits(u, job, plan) && Grounded(u, job, server) && Ripe(job, plan, tagged, server) && (tagged ==> authorized)
    requires before == FindFile(server.book.files, plan.format)
    ensures if Replacing(plan, before) then
              Unambiguous(job, plan, before.value, server.book) && Replaceable(job, server.book, plan.format, before.value, authorized)
            else before.None? && FilesFor(server.book.files, plan.format) == []
  {
    FindFileFinds(server.book.files, plan.format);
    if before.Some? {
      var x, c := FilesFor(server.book.files, plan.format)[0], FilesFor(server.book.files, job.main)[0];
      FindOnly(server.book.files, plan.format, x);
      InFilters(server.book.files, plan.format, x);
      InFilters(server.book.files, job.main, c);
    }
  }

  /** The loop may start its attempt; and undisturbed, the owner's attempt is sure to end well. */
  lemma RebuildStarts(w: World, job: Job, plan: Plan, prepared: Option<Intent>, vol: Vol, before: Option<File>, tag: string)
    requires Rebuildable(w, job, plan, prepared, vol) && Allowed(job, plan, vol) && before == FindFile(vol.expected.files, plan.format)
    requires tag == AttemptTag(job, plan, before, vol)
    ensures Startable(w, job, plan, before, vol.expected, tag, prepared, vol.authorized)
    ensures (Alone(w, job, vol.expected) && Recoverable(w.u, w.rows, w.server, job.main)
            && (vol.inProgress || Ripe(job, plan, vol.ipTag != "", w.server))) ==>
              Finishable(w, job, plan, before, vol.expected, vol.authorized)
  {
    AttemptTagIsUsable(w.rows, w.h, job, plan, before, vol);
    ContinuesIsStartable(w, job, plan, prepared, vol.expected, before, tag, vol.authorized);
    if Alone(w, job, vol.expected) && Recoverable(w.u, w.rows, w.server, job.main) && vol.inProgress {
      ContinuesIsFinishable(w, job, plan, prepared, vol.expected, before);
    }
    if Alone(w, job, vol.expected) && !vol.inProgress && Ripe(job, plan, vol.ipTag != "", w.server) {
      RipeIsReplaceable(w.u, job, plan, vol.ipTag != "", w.server, before, vol.authorized);
    }
  }

  /** Uploads, verifies and commits the converted file. */
  method PutOutput(w: World, job: Job, plan: Plan, prepared: Option<Intent>, vol: Vol, output: Sha)
    returns (destructive: bool, verified: Option<Book>, tag: string)
    requires Rebuildable(w, job, plan, prepared, vol) && Allowed(job, plan, vol)
    modifies w
    ensures Attempted(w, job, plan, vol, verified, tag)
  {
    assert prepared.Some? ==> IntentOK(w.rows, plan.format);
    ghost var rows, server, steady, alone, quiet := w.rows, w.server, w.Steady(), Alone(w, job, vol.expected), w.Quiet();
    var before := FindFile(vol.expected.files, plan.format);
    ghost var sure := Finishable(w, job, plan, before, vol.expected, vol.authorized);
    var given := AttemptTag(job, plan, before, vol);
    RebuildStarts(w, job, plan, prepared, vol, before, given);
    destructive, verified := UploadAndCommit(w, job, plan, before, vol.expected, output, given, prepared, vol.authorized);
    AttemptIsOK(w.u, w.stamps, job, plan, vol, before, rows, server, w.rows, w.server, steady, alone, quiet, sure, verified);
    tag := if prepared.Some? then prepared.value.tag else given;
  }

  /** Converts, uploads, verifies and commits one format. */
  method Attempt(w: World, job: Job, plan: Plan, prepared: Option<Intent>, vol: Vol)
    returns (attempted: bool, destructive: bool, verified: Option<Book>, tag: string)
    requires Rebuildable(w, job, plan, prepared, vol) && Allowed(job, plan, vol)
    modifies w
    ensures Attempted(w, job, plan, vol, verified, tag)
    ensures !attempted ==> verified.None? && w.rows == old(w.rows) && !destructive
    ensures !attempted && old(w.Steady()) ==> w.server == old(w.server)
  {
    var output := w.Convert();
    if output.None? {
      return false, false, None, "";
    }
    attempted := true;
    destructive, verified, tag := PutOutput(w, job, plan, prepared, vol, output.value);
  }

  /** What a rebuild does to rows and server: alone, quiet and after as for TurnOK. While nobody
      interferes it leaves other formats alone and what is owed recoverable, and its own format has
      nothing but uploads of this run if no file had to stay. */
  ghost predicate RebuiltOK(u: Unicode, stamps: (nat, Sha) -> Stamp, job: Job, plan: Plan, vol0: Vol, rows0: Rows, server0: Server, rows: Rows, server: Server,
                            alone: bool, quiet: bool, after: bool, stop: bool, failed: bool) {
    && SameElsewhere(rows0, rows, plan.format)
    && (alone && Recoverable(u, rows0, server0, job.main) ==>
          && Recoverable(u, rows, server, job.main) && SameOthers(server, server0, plan.format) && IdsBelow(server)
          && OnlyAdds(stamps, server0, server, plan.format)
          && (!stop ==> after)
          && (!failed && MakesRoom(plan, vol0.expected.files) ==> AllNew(stamps, server0, server, plan.format))
          && (quiet && (vol0.inProgress || Ripe(job, plan, vol0.ipTag != "", server0)) ==> !failed))
    && (alone && !failed ==> Committed(u, job, rows, server, plan.format) && ValidateCanonicalBook(job, server.book))
    && (alone && quiet && rows.Row().inProgress ==> rows0.Row().inProgress)
  }

  lemma AttemptIsRebuilt(u: Unicode, stamps: (nat, Sha) -> Stamp, job: Job, plan: Plan, vol0: Vol, rows0: Rows, server0: Server, rows: Rows, server: Server,
                         alone: bool, quiet: bool, after: bool, stop: bool, verified: bool)
    requires AttemptOK(u, stamps, job, plan, vol0, rows0, server0, rows, server, alone, quiet, verified)
    requires verified ==> !rows.Row().inProgress && (alone ==> Committed(u, job, rows, server, plan.format) && ValidateCanonicalBook(job, server.book))
    requires alone && Recoverable(u, rows0, server0, job.main) && !stop ==> after
    ensures RebuiltOK(u, stamps, job, plan, vol0, rows0, server0, rows, server, alone, quiet, after, stop, !verified)
  {
  }

  lemma NothingIsRebuilt(u: Unicode, stamps: (nat, Sha) -> Stamp, job: Job, plan: Plan, vol0: Vol, rows: Rows, server: Server, alone: bool, quiet: bool)
    requires !Allowed(job, plan, vol0) && (alone ==> vol0.expected == server.book && IdsBelow(server))
    ensures RebuiltOK(u, stamps, job, plan, vol0, rows, server, rows, server, alone, quiet, alone, false, true)
  {
  }

  /** The copies after a verified attempt. */
  lemma VerifiedIsSynced(rows0: Rows, rows: Rows, h: History, job: Job, f: Format, tag: string, vol0: Vol, vol: Vol, book: Book)
    requires Mirrors(rows0.Row(), vol0) && WorkingAt(rows, h, job, f) && Closed(rows0, rows, f, tag) && book.tags <= h.observed
    requires vol == vol0.(inProgress := vol.inProgress) && (vol0.inProgress ==> vol.inProgress)
    requires vol0.ipTag != "" ==> tag in {"", vol0.ipTag}
    ensures var next := AfterUpload(vol, tag, vol.inProgress, book);
            SyncedAt(rows, h, job, next) && !next.inProgress && next.expected == book && (vol0.ipTag != "" ==> next.ipTag == vol0.ipTag)
  {
    CopiesFollowCommit(rows0, rows, f, tag, vol0, vol.inProgress, false, book);
  }

  /** A verified attempt leaves the copies in step, and the rebuild done. */
  lemma VerifiedIsRebuilt(u: Unicode, stamps: (nat, Sha) -> Stamp, job: Job, plan: Plan, vol0: Vol, vol: Vol, tag: string, book: Book,
                          rows0: Rows, server0: Server, rows: Rows, h: History, server: Server, alone: bool, quiet: bool, steady: bool)
    requires Mirrors(rows0.Row(), vol0) && WorkingAt(rows, h, job, plan.format) && Closed(rows0, rows, plan.format, tag) && book.tags <= h.observed
    requires vol == vol0.(inProgress := vol.inProgress) && (vol0.inProgress ==> vol.inProgress) && (vol0.ipTag != "" ==> tag in {"", vol0.ipTag})
    requires AttemptOK(u, stamps, job, plan, vol0, rows0, server0, rows, server, alone, quiet, true) && plan.format != job.main
    requires alone ==> steady && book == server.book && Grounded(u, job, server0) && Committed(u, job, rows, server, plan.format) && ValidateCanonicalBook(job, server.book)
    ensures var next := AfterUpload(vol, tag, vol.inProgress, book);
            && SyncedAt(rows, h, job, next) && !next.inProgress && next.expected == book && (vol0.ipTag != "" ==> next.ipTag == vol0.ipTag)
            && RebuiltOK(u, stamps, job, plan, vol0, rows0, server0, rows, server, alone, quiet,
                         steady && UpToDate(book, server) && Grounded(u, job, server), false, false)
  {
    VerifiedIsSynced(rows0, rows, h, job, plan.format, tag, vol0, vol, book);
    if SameOthers(server, server0, plan.format) && Grounded(u, job, server0) {
      GroundedStays(u, job, plan.format, server0, server);
    }
    AttemptIsRebuilt(u, stamps, job, plan, vol0, rows0, server0, rows, server, alone, quiet,
                     steady && UpToDate(book, server) && Grounded(u, job, server), false, true);
  }

  /** Converts, uploads, verifies and commits one format, unless that needs an authorization the
      run does not have. */
  method RebuildFormat(w: World, job: Job, plan: Plan, prepared: Option<Intent>, vol0: Vol) returns (vol: Vol, stop: bool, failed: bool)
    requires Rebuildable(w, job, plan, prepared, vol0)
    modifies w
    ensures Working(w, job, plan.format) && w.Goes() && w.Remembers()
    ensures !stop ==> Synced(w, job, vol) && if failed then w.rows == old(w.rows) && vol == vol0 else !vol.inProgress
    ensures stop ==> failed
    ensures plan.blocked && !ReplacementAllowedForState(job.cfg, vol0.expected.tags, vol0.inProgress, vol0.ipTag, job.force) ==>
              failed && !stop && w.rows == old(w.rows) && w.server == old(w.server) && w.h == old(w.h) && w.made == old(w.made)
    ensures vol0.ipTag != "" ==> vol.ipTag == vol0.ipTag
    ensures RebuiltOK(w.u, w.stamps, job, plan, vol0, old(w.rows), old(w.server), w.rows, w.server,
                      old(Alone(w, job, vol0.expected)), old(w.Quiet()), Alone(w, job, vol.expected), stop, failed)
  {
    if !Allowed(job, plan, vol0) {
      NothingIsRebuilt(w.u, w.stamps, job, plan, vol0, w.rows, w.server, Alone(w, job, vol0.expected), w.Quiet());
      return vol0, false, true;
    }
    vol, stop, failed := RebuildAllowed(w, job, plan, prepared, vol0);
  }

  /** The rebuild itself. */
  method RebuildAllowed(w: World, job: Job, plan: Plan, prepared: Option<Intent>, vol0: Vol) returns (vol: Vol, stop: bool, failed: bool)
    requires Rebuildable(w, job, plan, prepared, vol0) && Allowed(job, plan, vol0)
    modifies w
    ensures Working(w, job, plan.format) && w.Goes() && w.Remembers()
    ensures !stop ==> Synced(w, job, vol) && if failed then w.rows == old(w.rows) && vol == vol0 else !vol.inProgress
    ensures stop ==> failed
    ensures vol0.ipTag != "" ==> vol.ipTag == vol0.ipTag
    ensures RebuiltOK(w.u, w.stamps, job, plan, vol0, old(w.rows), old(w.server), w.rows, w.server,
                      old(Alone(w, job, vol0.expected)), old(w.Quiet()), Alone(w, job, vol.expected), stop, failed)
  {
    ghost var rows, server, alone, quiet := w.rows, w.server, Alone(w, job, vol0.expected), w.Quiet();
    var attempted, destructive, verified, tag := Attempt(w, job, plan, prepared, vol0);
    vol := if destructive then vol0.(inProgress := true) else vol0;
    if verified.None? {
      AttemptIsRebuilt(w.u, w.stamps, job, plan, vol0, rows, server, w.rows, w.server, alone, quiet, Alone(w, job, vol.expected), attempted, false);
      return vol, attempted, true;
    }
    VerifiedIsRebuilt(w.u, w.stamps, job, plan, vol0, vol, tag, verified.value, rows, server, w.rows, w.h, w.server, alone, quiet, w.Steady());
    return AfterUpload(vol, tag, vol.inProgress, verified.value), false, false;
  }

  // ---- One plan ----

  /** The intents read when the run started still hold for this format. */
  ghost predicate AgreeAt(intents: map<Format, Intent>, rows: Rows, f: Format) {
    (f in intents <==> f in rows.intents) && (f in intents ==> intents[f] == rows.intents[f])
  }

  ghost predicate OwnerKnown(rows: Rows, owner: Option<Format>) {
    forall g :: Owns(rows, g) ==> owner == Some(g)
  }

  ghost predicate PlanMatches(plan: Plan, files: seq<File>) {
    plan.action == Create <==> FilesFor(files, plan.format) == []
  }

  /** A file that arrived before the interruption passes every check of its adoption. */
  lemma IntendedIsAdoptable(u: Unicode, job: Job, plan: Plan, i: Intent, expected: Book, server: Server)
    requires JobFits(u, job, plan) && i.format == plan.format && EvidenceFits(u, i, server, job.main)
    requires expected.files == server.book.files && Grounded(u, job, server)
    requires |FilesFor(server.book.files, plan.format)| == 1 && IsIntended(i, FilesFor(server.book.files, plan.format)[0])
    ensures IntentFits(u, job, plan, i, expected.files)
    ensures Adoptable(u, job, plan, i, ExpectedStable(plan, i, expected.files), server.book.files)
  {
    var files := server.book.files;
    var c, x := FilesFor(files, job.main)[0], FilesFor(files, plan.format)[0];
    InFilters(files, job.main, c);
    InFilters(files, plan.format, x);
  }

  /** An unfinished replacement resumes, restores or adopts; there is no fourth case. */
  lemma OwnerHasAWayOn(u: Unicode, job: Job, plan: Plan, i: Intent, expected: Book, server: Server)
    requires JobFits(u, job, plan) && i.format == plan.format && RecoverableIntent(u, i, server, job.main)
    requires expected.files == server.book.files && Grounded(u, job, server)
    ensures || ReplacementTargetMatches(expected.files, plan.format, i)
            || ReplacementTargetMissing(expected.files, plan.format, i)
            || (IntentFits(u, job, plan, i, expected.files)
                && Adoptable(u, job, plan, i, ExpectedStable(plan, i, expected.files), server.book.files))
  {
    var found := FilesFor(server.book.files, plan.format);
    if |found| == 1 && IsIntended(i, found[0]) {
      IntendedIsAdoptable(u, job, plan, i, expected, server);
    }
  }

  /** An unchanged plan of the format that owns the phase is rebuilt all the same. */
  function Effective(plan: Plan, mine: bool): Plan {
    if mine && plan.action == Unchanged
    then plan.(action := Rebuild, reason := ReplacementInProgress, blocked := true)
    else plan
  }

  /** An intent whose evidence has to be looked at before anything else is done. */
  predicate NeedsRecovery(job: Job, plan: Plan, i: Intent, files: seq<File>, mine: bool) {
    && !(mine && ReplacementTargetMatches(files, plan.format, i))
    && !(mine && ReplacementTargetMissing(files, plan.format, i))
    && (mine || (plan.blocked && !job.force) || plan.action == Create)
  }

  /** What one turn does for its plan while nobody interferes and nothing fails. */
  ghost predicate Turned(u: Unicode, stamps: (nat, Sha) -> Stamp, job: Job, plan: Plan, intents: map<Format, Intent>, a: Rows, sa: Server, b: Rows, sb: Server) {
    || (Committed(u, job, b, sb, plan.format) && (AllNew(stamps, sa, sb, plan.format) || plan.format in intents))
    || (plan.action == Unchanged && b == a && sb == sa)
  }

  /** What an earlier run uploaded for this plan is there, and all evidence of it agrees. */
  ghost predicate Arrived(u: Unicode, job: Job, intents: map<Format, Intent>, plan: Plan, server: Server) {
    && plan.format in intents && plan.blocked && !job.force && FilesFor(server.book.files, plan.format) != []
    && IntentFits(u, job, plan, intents[plan.format], server.book.files)
    && Adoptable(u, job, plan, intents[plan.format], ExpectedStable(plan, intents[plan.format], server.book.files), server.book.files)
  }

  /** Work on the plan is ripe, and no file is in its way that an earlier run may have uploaded. */
  ghost predicate Free(job: Job, intents: map<Format, Intent>, plan: Plan, tagged: bool, server: Server) {
    Ripe(job, plan, tagged, server) && (plan.format in intents && plan.blocked ==> job.force)
  }

  /** A plan with work to do that is sure to succeed. */
  ghost predicate Workworthy(u: Unicode, job: Job, intents: map<Format, Intent>, plan: Plan, vol: Vol, server: Server) {
    plan.action != Unchanged && !vol.inProgress && (Free(job, intents, plan, vol.ipTag != "", server) || Arrived(u, job, intents, plan, server))
  }

  /** What a turn does to rows and server: alone, quiet and after say whether nobody interfered
      and nothing failed before it, and whether nobody has interfered after it. */
  ghost predicate TurnOK(u: Unicode, stamps: (nat, Sha) -> Stamp, job: Job, intents: map<Format, Intent>, plan: Plan, vol0: Vol,
                         rows0: Rows, server0: Server, rows: Rows, server: Server, alone: bool, quiet: bool, after: bool, stop: bool, failed: bool) {
    && rows.book.Some? && rows.Row().pendingTag == "" && SameElsewhere(rows0, rows, plan.format)
    && (alone && Recoverable(u, rows0, server0, job.main) ==>
          && Recoverable(u, rows, server, job.main) && SameOthers(server, server0, plan.format) && IdsBelow(server)
          && OnlyAdds(stamps, server0, server, plan.format)
          && (!stop ==> after)
          && (!stop && !failed && PlanMatches(plan, vol0.expected.files) ==> Turned(u, stamps, job, plan, intents, rows0, server0, rows, server)))
    && (quiet && alone && rows.Row().inProgress ==> rows0.Row().inProgress)
    && (quiet && alone && Recoverable(u, rows0, server0, job.main) && Workworthy(u, job, intents, plan, vol0, server0) ==>
          !stop && !failed && Committed(u, job, rows, server, plan.format) && ValidateCanonicalBook(job, server.book))
  }

  /** The outcome of one turn of the loop, whatever the plan. */
  twostate predicate TurnedOn(w: World, job: Job, intents: map<Format, Intent>, plan: Plan, vol0: Vol, new vol: Vol, stop: bool, failed: bool)
    reads w
  {
    && w.OK() && w.Goes() && w.Remembers()
    && (!stop ==> Synced(w, job, vol) && (vol.inProgress ==> failed && vol0.inProgress))
    && (vol0.ipTag != "" ==> vol.ipTag == vol0.ipTag)
    && TurnOK(w.u, w.stamps, job, intents, plan, vol0, old(w.rows), old(w.server), w.rows, w.server,
              old(Alone(w, job, vol0.expected)), old(w.Quiet()), Alone(w, job, vol.expected), stop, failed)
  }

  /** The state in which the loop takes up a format that needs work. */
  ghost predicate WorkableAt(u: Unicode, rows: Rows, h: History, job: Job, intents: map<Format, Intent>, plan: Plan, mine: bool, vol: Vol) {
    && SyncedAt(rows, h, job, vol) && WorkingAt(rows, h, job, plan.format) && JobFits(u, job, plan) && Mandated(job, h)
    && AgreeAt(intents, rows, plan.format) && (mine <==> vol.inProgress) && (mine <==> Owns(rows, plan.format))
    && plan.action != Unchanged && (plan.blocked <==> plan.action == Rebuild)
    && (mine ==> PlanMatches(plan, vol.expected.files) && h.listed == Some(vol.expected))
  }

  ghost predicate Workable(w: World, job: Job, intents: map<Format, Intent>, plan: Plan, mine: bool, vol: Vol)
    reads w
  {
    WorkableAt(w.u, w.rows, w.h, job, intents, plan, mine, vol)
  }

  /** A format nobody owns may be worked on after more has been seen. */
  lemma StaysWorkable(u: Unicode, rows: Rows, a: History, b: History, job: Job, intents: map<Format, Intent>, plan: Plan, vol: Vol)
    requires WorkableAt(u, rows, a, job, intents, plan, false, vol) && Good(rows, b)
    requires b.orders == a.orders && b.failureTag == a.failureTag && a.observed <= b.observed && b.used == a.used
    ensures WorkableAt(u, rows, b, job, intents, plan, false, vol)
  {
  }

  /** The interrupted replacement whose target is gone, if this is one. */
  function ToRestore(intents: map<Format, Intent>, plan: Plan, mine: bool, files: seq<File>): Option<Intent> {
    if mine && plan.format in intents && ReplacementTargetMissing(files, plan.format, intents[plan.format])
    then Some(intents[plan.format]) else None
  }

  /** What becomes of the run when an intent is settled. */
  twostate predicate Settling(w: World, job: Job, plan: Plan, tag: string, vol0: Vol, new vol: Vol, stop: bool, adopted: bool)
    reads w
  {
    && KeptOrClosed(old(w.rows), w.rows, plan.format, tag)
    && (vol0.ipTag != "" ==> vol.ipTag == vol0.ipTag)
    && (!stop && adopted ==> Synced(w, job, vol) && !vol.inProgress)
    && (old(w.Steady()) && !stop && adopted ==> 
          vol.expected == w.server.book && Committed(w.u, job, w.rows, w.server, plan.format) && ValidateCanonicalBook(job, w.server.book))
  }

  lemma SettledIsTurned(u: Unicode, stamps: (nat, Sha) -> Stamp, job: Job, intents: map<Format, Intent>, plan: Plan, tag: string, vol0: Vol,
                        rows0: Rows, rows: Rows, server0: Server, server: Server, alone: bool, quiet: bool, after: bool, stop: bool)
    requires KeptOrClosed(rows0, rows, plan.format, tag) && RowsOK(rows)
    requires rows.book.Some? && rows.Row().pendingTag == "" && plan.format in intents
    requires alone ==> server == server0 && IdsBelow(server)
    requires alone && !stop ==> after && Committed(u, job, rows, server, plan.format) && ValidateCanonicalBook(job, server.book)
    requires quiet && alone && Workworthy(u, job, intents, plan, vol0, server0) ==> !stop
    ensures TurnOK(u, stamps, job, intents, plan, vol0, rows0, server0, rows, server, alone, quiet, after, stop, stop)
  {
    if Unowned(rows) {
      CommittedIsRecoverable(u, rows, server, job.main);
    }
  }

  /** After an adoption the copies follow the row. */
  lemma AdoptionIsSettled(rows0: Rows, rows: Rows, h: History, job: Job, plan: Plan, tag: string, vol0: Vol, book: Book)
    requires Mirrors(rows0.Row(), vol0) && tag in {"", rows0.Row().ipTag}
    requires WorkingAt(rows, h, job, plan.format) && Closed(rows0, rows, plan.format, tag) && book.tags <= h.observed
    ensures var vol := AfterAdoption(vol0, tag, vol0.inProgress, job.recreated, book);
            SyncedAt(rows, h, job, vol) && !vol.inProgress && vol.expected == book && (vol0.ipTag != "" ==> vol.ipTag == vol0.ipTag)
  {
    CopiesFollowCommit(rows0, rows, plan.format, tag, vol0, vol0.inProgress, job.recreated, book);
  }

  /** Settles an intent of an earlier run: adopted, stopped, or left to a rebuild. */
  method RecoverIntent(w: World, job: Job, intents: map<Format, Intent>, plan: Plan, mine: bool, vol0: Vol) returns (vol: Vol, stop: bool, adopted: bool)
    requires Workable(w, job, intents, plan, mine, vol0) && plan.format in intents
    modifies w
    ensures Working(w, job, plan.format) && w.Goes() && w.Remembers()
    ensures OnlyLooked(old(w.h), w.h) && Settling(w, job, plan, intents[plan.format].tag, vol0, vol, stop, adopted)
    ensures !stop && !adopted ==>
              && Workable(w, job, intents, plan, mine, vol0) && w.rows == old(w.rows) && vol == vol0 && !mine
              && Spared(w.rows, job, plan, vol0.expected.files)
    ensures old(w.Steady()) ==> w.server == old(w.server)
    ensures (old(w.Quiet()) && IntentFits(w.u, job, plan, intents[plan.format], vol0.expected.files)
            && Adoptable(w.u, job, plan, intents[plan.format], ExpectedStable(plan, intents[plan.format], vol0.expected.files), old(w.server.book.files))) ==>
              adopted && !stop
    ensures old(w.Quiet()) && !mine && !plan.blocked ==> !stop
  {
    var i := intents[plan.format];
    assert IntentOK(w.rows, plan.format);
    ghost var rows, h := w.rows, w.h;
    var ok, book := Adopt(w, job, plan, i, vol0.expected);
    if book.Some? {
      AdoptionIsSettled(rows, w.rows, w.h, job, plan, i.tag, vol0, book.value);
      return AfterAdoption(vol0, i.tag, mine, job.recreated, book.value), false, true;
    }
    stop := !ok || mine || (plan.blocked && !job.force && FilesFor(vol0.expected.files, plan.format) != []);
    if !stop {
      StaysWorkable(w.u, rows, h, w.h, job, intents, plan, vol0);
    }
    return vol0, stop, false;
  }

  /** What the loop knows about a format before it deals with it. */
  ghost predicate Ready(w: World, job: Job, intents: map<Format, Intent>, owner: Option<Format>, plan: Plan, vol: Vol)
    reads w
  {
    && Synced(w, job, vol) && JobFits(w.u, job, plan) && Mandated(job, w.h)
    && AgreeAt(intents, w.rows, plan.format) && OwnerKnown(w.rows, owner)
    && (plan.blocked <==> plan.action == Rebuild)
    && (vol.inProgress && owner == Some(plan.format) ==> PlanMatches(plan, vol.expected.files) && w.h.listed == Some(vol.expected))
  }

  /** Nothing else is open, or this very format is. */
  lemma ReadyIsWorking(w: World, job: Job, intents: map<Format, Intent>, owner: Option<Format>, plan: Plan, vol: Vol)
    requires Ready(w, job, intents, owner, plan, vol)
    requires vol.inProgress ==> owner == Some(plan.format)
    ensures Working(w, job, plan.format) && (vol.inProgress <==> Owns(w.rows, plan.format))
    ensures vol.inProgress ==> plan.format in intents && intents[plan.format] == w.rows.intents[plan.format]
    ensures plan.format in w.rows.intents ==> w.rows.intents[plan.format].format == plan.format
  {
    if plan.format in w.rows.intents { assert IntentOK(w.rows, plan.format); }
  }

  /** Undisturbed, the owner's format is rebuilt or its intent is adopted. */
  lemma OwnerGoesOn(w: World, job: Job, intents: map<Format, Intent>, plan: Plan, mine: bool, vol: Vol)
    requires w.OK() && JobFits(w.u, job, plan) && AgreeAt(intents, w.rows, plan.format) && (mine ==> Owns(w.rows, plan.format))
    ensures mine && plan.format in intents && Recoverable(w.u, w.rows, w.server, job.main) && Alone(w, job, vol.expected) ==>
              var i := intents[plan.format];
              || ReplacementTargetMatches(vol.expected.files, plan.format, i)
              || ReplacementTargetMissing(vol.expected.files, plan.format, i)
              || (IntentFits(w.u, job, plan, i, vol.expected.files)
                  && Adoptable(w.u, job, plan, i, ExpectedStable(plan, i, vol.expected.files), w.server.book.files))
  {
    if mine && plan.format in intents && Recoverable(w.u, w.rows, w.server, job.main) && Alone(w, job, vol.expected) {
      assert IntentOK(w.rows, plan.format);
      OwnerHasAWayOn(w.u, job, plan, intents[plan.format], vol.expected, w.server);
    }
  }

  /** An owner is rebuilt only where its intent needs no recovery, and no file is that may be the upload
      of another intent, but for force. */
  predicate GoesOnWithout(job: Job, intents: map<Format, Intent>, plan: Plan, mine: bool, vol: Vol) {
    && (mine && plan.format in intents ==> !NeedsRecovery(job, plan, intents[plan.format], vol.expected.files, mine))
    && (!mine && plan.format in intents && plan.blocked && FilesFor(vol.expected.files, plan.format) != [] ==> job.force)
  }

  lemma WorkableIsRebuildable(w: World, job: Job, intents: map<Format, Intent>, plan: Plan, mine: bool, vol: Vol)
    requires Workable(w, job, intents, plan, mine, vol) && GoesOnWithout(job, intents, plan, mine, vol)
    ensures Rebuildable(w, job, plan, ToRestore(intents, plan, mine, vol.expected.files), vol)
  {
    if mine { assert IntentOK(w.rows, plan.format); }
  }

  /** Looks at the intent of an earlier run, where there is one to look at. Not done: the format
      is to be rebuilt. */
  method RecoverFirst(w: World, job: Job, intents: map<Format, Intent>, plan: Plan, mine: bool, vol0: Vol) returns (vol: Vol, stop: bool, done: bool)
    requires Workable(w, job, intents, plan, mine, vol0)
    modifies w
    ensures Working(w, job, plan.format) && w.Goes() && w.Remembers() && OnlyLooked(old(w.h), w.h)
    ensures old(w.Steady()) ==> w.server == old(w.server)
    ensures done ==> TurnedOn(w, job, intents, plan, vol0, vol, stop, stop)
    ensures !done ==> !stop && Workable(w, job, intents, plan, mine, vol0) && GoesOnWithout(job, intents, plan, mine, vol0) && w.rows == old(w.rows)
    ensures (old(w.Quiet()) && old(Alone(w, job, vol0.expected)) && old(Recoverable(w.u, w.rows, w.server, job.main)) && mine && done) ==>
              !stop && Committed(w.u, job, w.rows, w.server, plan.format)
  {
    OwnerGoesOn(w, job, intents, plan, mine, vol0);
    if !(plan.format in intents && NeedsRecovery(job, plan, intents[plan.format], vol0.expected.files, mine)) {
      return vol0, false, false;
    }
    ghost var rows, server, alone, quiet := w.rows, w.server, Alone(w, job, vol0.expected), w.Quiet();
    var adopted;
    vol, stop, adopted := RecoverIntent(w, job, intents, plan, mine, vol0);
    done := stop || adopted;
    if done {
      SettledIsTurned(w.u, w.stamps, job, intents, plan, intents[plan.format].tag, vol0, rows, w.rows, server, w.server, alone, quiet, Alone(w, job, vol.expected), stop);
    }
  }

  lemma RebuiltIsTurned(u: Unicode, stamps: (nat, Sha) -> Stamp, job: Job, intents: map<Format, Intent>, plan: Plan, vol0: Vol,
                        rows0: Rows, server0: Server, rows: Rows, server: Server, alone: bool, quiet: bool, after: bool, stop: bool, failed: bool)
    requires RebuiltOK(u, stamps, job, plan, vol0, rows0, server0, rows, server, alone, quiet, after, stop, failed)
    requires rows.book.Some? && rows.Row().pendingTag == "" && plan.action != Unchanged && (plan.blocked <==> plan.action == Rebuild)
    requires (stop ==> failed) && (Arrived(u, job, intents, plan, server0) && alone ==> vol0.inProgress)
    ensures TurnOK(u, stamps, job, intents, plan, vol0, rows0, server0, rows, server, alone, quiet, after, stop, failed)
  {
  }

  /** Rebuilds a format whose intent needs no recovery. */
  method RebuildWorkable(w: World, job: Job, intents: map<Format, Intent>, plan: Plan, mine: bool, vol0: Vol) returns (vol: Vol, stop: bool, failed: bool)
    requires Workable(w, job, intents, plan, mine, vol0) && GoesOnWithout(job, intents, plan, mine, vol0)
    modifies w
    ensures TurnedOn(w, job, intents, plan, vol0, vol, stop, failed) && (stop ==> failed)
    ensures Working(w, job, plan.format)
    ensures (old(w.Quiet()) && old(Alone(w, job, vol0.expected)) && old(Recoverable(w.u, w.rows, w.server, job.main)) && mine) ==>
              !stop && !failed && Committed(w.u, job, w.rows, w.server, plan.format)
  {
    ghost var rows, server, alone, quiet := w.rows, w.server, Alone(w, job, vol0.expected), w.Quiet();
    WorkableIsRebuildable(w, job, intents, plan, mine, vol0);
    vol, stop, failed := RebuildFormat(w, job, plan, ToRestore(intents, plan, mine, vol0.expected.files), vol0);
    RebuiltIsTurned(w.u, w.stamps, job, intents, plan, vol0, rows, server, w.rows, w.server, alone, quiet, Alone(w, job, vol.expected), stop, failed);
  }

  /** A turn that began by only looking. */
  lemma LookingFirst(u: Unicode, stamps: (nat, Sha) -> Stamp, job: Job, intents: map<Format, Intent>, plan: Plan, vol0: Vol,
                     rows0: Rows, server0: Server, looked: Server, rows: Rows, server: Server,
                     alone: bool, quiet: bool, still: bool, calm: bool, after: bool, stop: bool, failed: bool)
    requires TurnOK(u, stamps, job, intents, plan, vol0, rows0, looked, rows, server, still, calm, after, stop, failed)
    requires (alone ==> still && looked == server0) && (quiet ==> calm)
    ensures TurnOK(u, stamps, job, intents, plan, vol0, rows0, server0, rows, server, alone, quiet, after, stop, failed)
  {
  }

  /** Deals with a format that needs work. `plan` is the effective plan. */
  method WorkOn(w: World, job: Job, intents: map<Format, Intent>, plan: Plan, mine: bool, vol0: Vol) returns (vol: Vol, stop: bool, failed: bool)
    requires Workable(w, job, intents, plan, mine, vol0)
    modifies w
    ensures TurnedOn(w, job, intents, plan, vol0, vol, stop, failed) && (stop ==> failed)
    ensures Working(w, job, plan.format)
    ensures (old(w.Quiet()) && old(Alone(w, job, vol0.expected)) && old(Recoverable(w.u, w.rows, w.server, job.main)) && mine) ==>
              !stop && !failed && Committed(w.u, job, w.rows, w.server, plan.format)
  {
    ghost var server, alone, quiet := w.server, Alone(w, job, vol0.expected), w.Quiet();
    var done;
    vol, stop, done := RecoverFirst(w, job, intents, plan, mine, vol0);
    if done {
      return vol, stop, stop;
    }
    ghost var rows, looked, still, calm := w.rows, w.server, Alone(w, job, vol0.expected), w.Quiet();
    vol, stop, failed := RebuildWorkable(w, job, intents, plan, mine, vol0);
    LookingFirst(w.u, w.stamps, job, intents, plan, vol0, rows, server, looked, w.rows, w.server, alone, quiet, still, calm, Alone(w, job, vol.expected), stop, failed);
  }

  /** One turn of the loop. The owner's branch for a missing intent cannot be reached: the owner
      is the format of an intent. */
  method ProcessPlan(w: World, job: Job, intents: map<Format, Intent>, owner: Option<Format>, plan0: Plan, vol0: Vol)
    returns (vol: Vol, stop: bool, failed: bool)
    requires Ready(w, job, intents, owner, plan0, vol0)
    modifies w
    ensures TurnedOn(w, job, intents, plan0, vol0, vol, stop, failed)
    ensures !stop ==> OwnerKnown(w.rows, owner)
    ensures stop && !failed ==> vol0.inProgress && owner != Some(plan0.format)
    ensures plan0.action == Unchanged && !vol0.inProgress ==>
              !stop && !failed && vol == vol0 && w.rows == old(w.rows) && w.server == old(w.server) && w.h == old(w.h)
    ensures (old(w.Quiet()) && old(Alone(w, job, vol0.expected)) && old(Recoverable(w.u, w.rows, w.server, job.main))
            && vol0.inProgress && owner == Some(plan0.format)) ==>
              !stop && !failed && Committed(w.u, job, w.rows, w.server, plan0.format)
  {
    if vol0.inProgress && owner.Some? && owner.value != plan0.format {
      return vol0, true, false;
    }
    ReadyIsWorking(w, job, intents, owner, plan0, vol0);
    var mine := vol0.inProgress && owner == Some(plan0.format);
    var plan := Effective(plan0, mine);
    if plan.action == Unchanged {
      return vol0, false, false;
    }
    vol, stop, failed := WorkOn(w, job, intents, plan, mine, vol0);
  }

  // ---- The loop ----

  /** The row and the files of format g are what they were. */
  ghost predicate KeptAt(rows0: Rows, server0: Server, rows: Rows, server: Server, g: Format) {
    && (g in rows0.derived <==> g in rows.derived) && (g in rows0.derived ==> rows0.derived[g] == rows.derived[g])
    && FilesFor(server0.book.files, g) == FilesFor(server.book.files, g)
  }

  /** The format is committed, with an upload of this run or one that an earlier run left an intent
      for; or its plan found nothing to do and nothing was done. */
  ghost predicate Dealt(u: Unicode, stamps: (nat, Sha) -> Stamp, job: Job, plan: Plan, intents: map<Format, Intent>,
                        rows0: Rows, server0: Server, rows: Rows, server: Server) {
    || (Committed(u, job, rows, server, plan.format) && (AllNew(stamps, server0, server, plan.format) || plan.format in intents))
    || (plan.action == Unchanged && KeptAt(rows0, server0, rows, server, plan.format))
  }

  /** Work on one format leaves every other format dealt with. */
  lemma DealtStays(u: Unicode, stamps: (nat, Sha) -> Stamp, job: Job, plan: Plan, intents: map<Format, Intent>,
                   rows0: Rows, server0: Server, a: Rows, sa: Server, b: Rows, sb: Server, f: Format)
    requires plan.format != f && SameElsewhere(a, b, f) && SameOthers(sb, sa, f) && sa.nextId <= sb.nextId
    ensures Dealt(u, stamps, job, plan, intents, rows0, server0, a, sa) ==> Dealt(u, stamps, job, plan, intents, rows0, server0, b, sb)
    ensures Committed(u, job, a, sa, plan.format) ==> Committed(u, job, b, sb, plan.format)
  {
    OtherFormatsAgree(sb.book.files, sa.book.files, f, plan.format);
  }

  lemma KeptStays(rows0: Rows, server0: Server, a: Rows, sa: Server, b: Rows, sb: Server, f: Format, g: Format)
    requires KeptAt(rows0, server0, a, sa, g) && g != f && SameElsewhere(a, b, f) && SameOthers(sb, sa, f)
    ensures KeptAt(rows0, server0, b, sb, g)
  {
    OtherFormatsAgree(sb.book.files, sa.book.files, f, g);
  }

  ghost predicate DistinctFormats(plans: seq<Plan>) {
    forall i, j :: 0 <= i < j < |plans| ==> plans[i].format != plans[j].format
  }

  ghost predicate PlansMatch(plans: seq<Plan>, files: seq<File>) {
    forall k :: 0 <= k < |plans| ==> PlanMatches(plans[k], files)
  }

  /** What stays fixed while the loop runs: the job, the intents read when the run started, the
      owner of an unfinished replacement, the plans, and the copies the loop started with. */
  datatype Course = Course(job: Job, intents: map<Format, Intent>, owner: Option<Format>, plans: seq<Plan>, vol: Vol)

  /** Plans of the job, one for a format, the owner's plan first if there is an owner. */
  ghost predicate Lined(u: Unicode, c: Course) {
    && DistinctFormats(c.plans) && !c.vol.phaseCleared
    && (forall k :: 0 <= k < |c.plans| ==> JobFits(u, c.job, c.plans[k]) && (c.plans[k].blocked <==> c.plans[k].action == Rebuild))
    && PlansMatch(c.plans, c.vol.expected.files)
    && (c.vol.inProgress ==> c.plans != [] && c.owner == Some(c.plans[0].format))
  }

  /** What the loop starts from. */
  ghost predicate Queued(w: World, c: Course)
    reads w
  {
    && Synced(w, c.job, c.vol) && OwnerKnown(w.rows, c.owner) && Mandated(c.job, w.h) && c.intents == w.rows.intents
    && Lined(w.u, c) && (c.vol.inProgress ==> w.h.listed == Some(c.vol.expected))
  }

  /** How a run ends. TagLeft: everything is done but the failure tag could not be removed. */
  datatype Status = Completed | TagLeft | Partial | Ignored | Failed

  predicate Finished(status: Status) { status.Completed? || status.TagLeft? }

  /** How the tail of a run can end. */
  type Ending = s: Status | Finished(s) || s.Partial? witness Partial

  ghost predicate Untouched(plans: seq<Plan>, g: Format) {
    forall k :: 0 <= k < |plans| ==> plans[k].format != g
  }

  /** After k plans: formats without a plan are as they were, and unless something failed the
      first k are dealt with and the others are as they were. */
  ghost predicate Framed(u: Unicode, stamps: (nat, Sha) -> Stamp, job: Job, plans: seq<Plan>, k: nat, intents: map<Format, Intent>,
                         rows0: Rows, server0: Server, rows: Rows, server: Server, failed: bool)
    requires k <= |plans|
  {
    && server0.nextId <= server.nextId
    && (forall g :: Untouched(plans, g) ==> KeptAt(rows0, server0, rows, server, g))
    && (!failed ==> forall j :: 0 <= j < k ==> Dealt(u, stamps, job, plans[j], intents, rows0, server0, rows, server))
    && (!failed ==> forall j :: k <= j < |plans| ==> KeptAt(rows0, server0, rows, server, plans[j].format))
  }

  lemma FrameAdvances(u: Unicode, stamps: (nat, Sha) -> Stamp, job: Job, plans: seq<Plan>, k: nat, intents: map<Format, Intent>,
                      rows0: Rows, server0: Server, a: Rows, sa: Server, b: Rows, sb: Server, failed0: bool, failed: bool)
    requires k < |plans| && DistinctFormats(plans) && Framed(u, stamps, job, plans, k, intents, rows0, server0, a, sa, failed0)
    requires SameElsewhere(a, b, plans[k].format) && SameOthers(sb, sa, plans[k].format) && sa.nextId <= sb.nextId
    requires !failed ==> !failed0 && Turned(u, stamps, job, plans[k], intents, a, sa, b, sb)
    ensures Framed(u, stamps, job, plans, k + 1, intents, rows0, server0, b, sb, failed)
  {
    forall g | g != plans[k].format && KeptAt(rows0, server0, a, sa, g) ensures KeptAt(rows0, server0, b, sb, g) {
      KeptStays(rows0, server0, a, sa, b, sb, plans[k].format, g);
    }
    forall g | Untouched(plans, g) ensures KeptAt(rows0, server0, b, sb, g) {
      assert plans[k].format != g && KeptAt(rows0, server0, a, sa, g);
    }
    if !failed {
      forall j | 0 <= j < k ensures Dealt(u, stamps, job, plans[j], intents, rows0, server0, b, sb) {
        DealtStays(u, stamps, job, plans[j], intents, rows0, server0, a, sa, b, sb, plans[k].format);
      }
      assert KeptAt(rows0, server0, a, sa, plans[k].format);
    }
  }

  ghost predicate AgreeFrom(intents: map<Format, Intent>, rows: Rows, plans: seq<Plan>, k: nat) {
    forall j :: k <= j < |plans| ==> AgreeAt(intents, rows, plans[j].format)
  }

  lemma AgreeAdvances(intents: map<Format, Intent>, a: Rows, b: Rows, plans: seq<Plan>, k: nat)
    requires k < |plans| && DistinctFormats(plans) && AgreeFrom(intents, a, plans, k) && SameElsewhere(a, b, plans[k].format)
    ensures AgreeFrom(intents, b, plans, k + 1)
  {
    forall j | k + 1 <= j < |plans| ensures AgreeAt(intents, b, plans[j].format) {
      assert AgreeAt(intents, a, plans[j].format) && plans[j].format != plans[k].format;
    }
  }

  /** The state of the loop before the kth plan: the copies mirror the store, and a phase that
      is still open then belongs to a run that has already failed. */
  ghost predicate TurningAt(rows: Rows, h: History, c: Course, k: nat, vol: Vol, failed: bool) {
    && SyncedAt(rows, h, c.job, vol) && OwnerKnown(rows, c.owner) && AgreeFrom(c.intents, rows, c.plans, k)
    && (vol.inProgress ==> c.vol.inProgress && (k == 0 || failed))
    && (k == 0 ==> vol == c.vol) && (k == 0 && vol.inProgress ==> h.listed == Some(vol.expected))
    && (c.vol.ipTag != "" ==> vol.ipTag == c.vol.ipTag)
  }

  ghost predicate Turning(w: World, c: Course, k: nat, vol: Vol, failed: bool)
    reads w
  {
    TurningAt(w.rows, w.h, c, k, vol, failed)
  }

  /** Where the loop started; whether nobody interferes; whether the listing is known then and what is
      owed recoverable; whether nothing fails either; whether there was nothing to do; and whether all
      there is to do is ripe. */
  datatype Origin = Origin(rows: Rows, server: Server, uploads: seq<UploadRecord>, deletes: seq<DeleteRecord>, bound: set<string>,
                           steady: bool, calm: bool, quiet: bool, idle: bool, ripe: bool)

  /** The jth plan finds nothing to do, or is free to go; or it will adopt what an earlier run uploaded,
      and until then, from the kth on, no plan finds anything to do. */
  ghost predicate RipeAt(u: Unicode, c: Course, k: nat, j: nat, tagged: bool, server: Server)
    requires j < |c.plans|
  {
    || c.plans[j].action == Unchanged || Free(c.job, c.intents, c.plans[j], tagged, server)
    || (Arrived(u, c.job, c.intents, c.plans[j], server) && NothingBetween(c, k, j))
  }

  ghost predicate NothingBetween(c: Course, k: nat, j: nat)
    requires j < |c.plans|
  {
    forall m :: k <= m < j ==> c.plans[m].action == Unchanged
  }

  /** All plans from the kth on are ripe, and the book is not to be ignored. */
  ghost predicate AllRipe(u: Unicode, c: Course, k: nat, tagged: bool, server: Server) {
    && ValidateCanonicalBook(c.job, server.book) && !HasTag(server.book.tags, c.job.cfg.ignoreTag)
    && forall j :: k <= j < |c.plans| ==> RipeAt(u, c, k, j, tagged, server)
  }

  /** Work on the kth plan leaves the others ripe. */
  lemma RipeAdvances(u: Unicode, c: Course, k: nat, tagged: bool, sa: Server, after: bool, sb: Server)
    requires k < |c.plans| && DistinctFormats(c.plans) && AllRipe(u, c, k, tagged, sa) && (tagged ==> after) && (c.plans[k].action == Unchanged ==> sb == sa)
    requires SameOthers(sb, sa, c.plans[k].format) && ValidateCanonicalBook(c.job, sb.book)
    ensures AllRipe(u, c, k + 1, after, sb)
  {
    var next := k + 1;
    forall j | next <= j < |c.plans| ensures RipeAt(u, c, next, j, after, sb) {
      assert RipeAt(u, c, k, j, tagged, sa);
      OtherFormatsAgree(sb.book.files, sa.book.files, c.plans[k].format, c.plans[j].format);
    }
  }

  ghost predicate NothingPlanned(c: Course) {
    !c.vol.inProgress && forall k :: 0 <= k < |c.plans| ==> c.plans[k].action == Unchanged
  }

  ghost function OriginOf(w: World, c: Course): Origin
    reads w
  {
    Origin(w.rows, w.server, w.h.uploads, w.h.deletes, w.bound, w.Steady() && w.Bounded(),
           Alone(w, c.job, c.vol.expected) && Recoverable(w.u, w.rows, w.server, c.job.main), w.Quiet(), NothingPlanned(c),
           !c.vol.inProgress && AllRipe(w.u, c, 0, c.vol.ipTag != "", w.server))
  }

  /** Nobody has interfered since the loop started. */
  ghost predicate Following(u: Unicode, stamps: (nat, Sha) -> Stamp, c: Course, from: Origin, k: nat, rows: Rows, server: Server, failed: bool)
    requires k <= |c.plans|
  {
    && Recoverable(u, rows, server, c.job.main) && IdsBelow(server) && PlansMatch(c.plans, from.server.book.files)
    && Framed(u, stamps, c.job, c.plans, k, c.intents, from.rows, from.server, rows, server, failed)
  }

  /** The phase is closed and its owner committed. */
  ghost predicate Resumed(u: Unicode, c: Course, rows: Rows, server: Server) {
    !rows.Row().inProgress && (c.vol.inProgress && c.plans != [] ==> Committed(u, c.job, rows, server, c.plans[0].format))
  }

  /** One turn, in terms of rows and server. */
  lemma TurnFollows(u: Unicode, stamps: (nat, Sha) -> Stamp, c: Course, from: Origin, k: nat, vol: Vol, a: Rows, sa: Server, b: Rows, sb: Server,
                    quiet: bool, after: bool, failed0: bool, stop: bool, failed: bool)
    requires k < |c.plans| && DistinctFormats(c.plans) && Following(u, stamps, c, from, k, a, sa, failed0)
    requires TurnOK(u, stamps, c.job, c.intents, c.plans[k], vol, a, sa, b, sb, true, quiet, after, stop, failed) && vol.expected.files == sa.book.files
    ensures Following(u, stamps, c, from, k + 1, b, sb, failed0 || failed || stop) && (!stop ==> after)
    ensures k > 0 && quiet && Resumed(u, c, a, sa) ==> Resumed(u, c, b, sb)
  {
    if !failed0 {
      assert KeptAt(from.rows, from.server, a, sa, c.plans[k].format) && PlanMatches(c.plans[k], from.server.book.files);
    }
    FrameAdvances(u, stamps, c.job, c.plans, k, c.intents, from.rows, from.server, a, sa, b, sb, failed0, failed0 || failed || stop);
    if k > 0 {
      DealtStays(u, stamps, c.job, c.plans[0], c.intents, a, sa, a, sa, b, sb, c.plans[k].format);
    }
  }

  /** What holds before the kth plan while nobody interferes; and, quiet, while nothing fails. */
  ghost predicate CalmAt(u: Unicode, stamps: (nat, Sha) -> Stamp, c: Course, from: Origin, k: nat, rows: Rows, server: Server, vol: Vol,
                         alone: bool, quiet: bool, stop: bool, failed: bool)
    requires k <= |c.plans|
  {
    from.calm ==>
      && Following(u, stamps, c, from, k, rows, server, failed) && (!stop ==> alone)
      && (from.quiet ==> quiet && (k > 0 ==> Resumed(u, c, rows, server)))
      && (from.quiet && from.ripe ==> !stop && !failed && !vol.inProgress && AllRipe(u, c, k, vol.ipTag != "", server))
  }

  ghost predicate Calm(w: World, c: Course, from: Origin, k: nat, vol: Vol, stop: bool, failed: bool)
    requires k <= |c.plans|
    reads w
  {
    CalmAt(w.u, w.stamps, c, from, k, w.rows, w.server, vol, Alone(w, c.job, vol.expected), w.Quiet(), stop, failed)
  }

  /** One turn, where all that is left is ripe. */
  lemma TurnIsDone(u: Unicode, stamps: (nat, Sha) -> Stamp, c: Course, k: nat, vol0: Vol, vol: Vol, a: Rows, sa: Server, b: Rows, sb: Server,
                   after: bool, stop: bool, failed: bool)
    requires k < |c.plans| && DistinctFormats(c.plans) && Recoverable(u, a, sa, c.job.main)
    requires TurnOK(u, stamps, c.job, c.intents, c.plans[k], vol0, a, sa, b, sb, true, true, after, stop, failed)
    requires !vol0.inProgress && AllRipe(u, c, k, vol0.ipTag != "", sa) && (vol0.ipTag != "" ==> vol.ipTag == vol0.ipTag)
    requires c.plans[k].action == Unchanged ==> !stop && !failed && sb == sa
    ensures !stop && !failed && AllRipe(u, c, k + 1, vol.ipTag != "", sb)
  {
    if c.plans[k].action != Unchanged {
      assert RipeAt(u, c, k, k, vol0.ipTag != "", sa) && Workworthy(u, c.job, c.intents, c.plans[k], vol0, sa);
    }
    RipeAdvances(u, c, k, vol0.ipTag != "", sa, vol.ipTag != "", sb);
  }

  lemma TurnKeepsCalm(u: Unicode, stamps: (nat, Sha) -> Stamp, c: Course, from: Origin, k: nat, vol1: Vol, vol: Vol, a: Rows, sa: Server, b: Rows, sb: Server,
                      alone: bool, quiet: bool, after: bool, still: bool, failed1: bool, stop: bool, failed: bool)
    requires k < |c.plans| && DistinctFormats(c.plans) && (alone ==> vol1.expected == sa.book) && (quiet ==> still)
    requires TurnOK(u, stamps, c.job, c.intents, c.plans[k], vol1, a, sa, b, sb, alone, quiet, after, stop, failed)
    requires (vol1.ipTag != "" ==> vol.ipTag == vol1.ipTag) && (!stop && !failed ==> !vol.inProgress) && (stop ==> failed1 || failed)
    requires c.plans[k].action == Unchanged && !vol1.inProgress ==> !stop && !failed && sb == sa
    requires k == 0 && quiet && alone && Recoverable(u, a, sa, c.job.main) && vol1.inProgress ==>
               !b.Row().inProgress && Committed(u, c.job, b, sb, c.plans[0].format)
    requires k == 0 ==> vol1 == c.vol && a.Row().inProgress == vol1.inProgress
    requires CalmAt(u, stamps, c, from, k, a, sa, vol1, alone, quiet, false, failed1)
    ensures CalmAt(u, stamps, c, from, k + 1, b, sb, vol, after, still, stop, failed1 || failed)
  {
    if from.calm {
      TurnFollows(u, stamps, c, from, k, vol1, a, sa, b, sb, quiet, after, failed1, stop, failed);
      if from.quiet && from.ripe {
        TurnIsDone(u, stamps, c, k, vol1, vol, a, sa, b, sb, after, stop, failed);
      }
    }
  }

  /** With nothing to do, nothing is done. */
  ghost predicate Resting(w: World, c: Course, from: Origin, vol: Vol, failed: bool)
    reads w
  {
    from.idle ==>
      && NothingPlanned(c) && !failed && vol == c.vol && w.rows == from.rows && w.h.uploads == from.uploads && w.h.deletes == from.deletes
      && w.server == from.server
  }

  /** While nobody interferes the book has no tag that it did not have. */
  ghost predicate Within(w: World, from: Origin)
    reads w
  {
    from.steady ==> w.Steady() && w.Bounded() && w.bound == from.bound
  }

  /** A run stops for the ignore tag only of a book that has it. */
  ghost predicate StopsRightly(c: Course, from: Origin, early: Option<Status>) {
    from.steady && early == Some(Ignored) ==> HasTag(from.bound, c.job.cfg.ignoreTag)
  }

  method Turn(w: World, c: Course, k: nat, vol1: Vol, failed1: bool, ghost from: Origin) returns (vol: Vol, stop: bool, failed: bool)
    requires k < |c.plans| && Lined(w.u, c) && Mandated(c.job, w.h) && Turning(w, c, k, vol1, failed1)
    modifies w
    ensures w.OK() && w.rows.book.Some? && w.rows.Row().pendingTag == "" && w.Goes() && w.Remembers()
    ensures (failed1 ==> failed) && (stop ==> failed)
    ensures !stop ==> Turning(w, c, k + 1, vol, failed)
    ensures old(Calm(w, c, from, k, vol1, false, failed1)) ==> Calm(w, c, from, k + 1, vol, stop, failed)
    ensures c.plans[k].action == Unchanged && !vol1.inProgress ==>
              !stop && failed == failed1 && vol == vol1 && w.rows == old(w.rows) && w.server == old(w.server) && w.h == old(w.h)
  {
    ghost var rows, server, alone, quiet := w.rows, w.server, Alone(w, c.job, vol1.expected), w.Quiet();
    ghost var calm := Calm(w, c, from, k, vol1, false, failed1);
    assert AgreeAt(c.intents, w.rows, c.plans[k].format);
    vol, stop, failed := ProcessPlan(w, c.job, c.intents, c.owner, c.plans[k], vol1);
    AgreeAdvances(c.intents, rows, w.rows, c.plans, k);
    if calm {
      TurnKeepsCalm(w.u, w.stamps, c, from, k, vol1, vol, rows, server, w.rows, w.server,
                    alone, quiet, Alone(w, c.job, vol.expected), w.Quiet(), failed1, stop, failed);
    }
    failed := failed1 || failed;
  }

  lemma SeenMoreStaysTurning(w: World, c: Course, k: nat, vol0: Vol, vol: Vol, failed: bool, rows: Rows, h: History)
    requires w.rows == rows && Good(w.rows, w.h) && h.observed <= w.h.observed && vol.expected.tags <= w.h.observed && w.h.used == h.used
    requires TurningAt(rows, h, c, k, vol0, failed) && (k == 0 ==> vol == vol0 && w.h.listed == h.listed)
    requires vol == vol0.(expected := vol.expected, phaseCleared := false)
    ensures Turning(w, c, k, vol, failed)
  {
  }

  /** Another look at the book changes nothing; it stops a ripe run only for the ignore tag. */
  lemma LookKeepsCalm(u: Unicode, stamps: (nat, Sha) -> Stamp, c: Course, from: Origin, k: nat, rows: Rows, server0: Server, server: Server, vol0: Vol, vol: Vol,
                      alone: bool, quiet: bool, after: bool, still: bool, stop: bool, failed: bool)
    requires k <= |c.plans| && CalmAt(u, stamps, c, from, k, rows, server0, vol0, alone, quiet, false, failed)
    requires vol == vol0.(expected := vol.expected, phaseCleared := vol.phaseCleared)
    requires (alone ==> server == server0 && (!stop ==> after)) && (quiet ==> still)
    requires stop && alone && quiet ==> HasTag(server0.book.tags, c.job.cfg.ignoreTag)
    ensures CalmAt(u, stamps, c, from, k, rows, server, vol, after, still, stop, failed)
  {
  }

  /** The look failed, or it found the ignore tag. */
  lemma LookStops(w: World, c: Course, from: Origin, k: nat, rows: Rows, server: Server, vol0: Vol, vol: Vol, alone: bool, quiet: bool, failed: bool)
    requires k <= |c.plans| && w.rows == rows && CalmAt(w.u, w.stamps, c, from, k, rows, server, vol0, alone, quiet, false, failed)
    requires vol == vol0.(expected := vol.expected, phaseCleared := vol.phaseCleared)
    requires (alone ==> w.server == server) && (quiet ==> w.Quiet())
    requires alone && quiet ==> HasTag(server.book.tags, c.job.cfg.ignoreTag)
    ensures Calm(w, c, from, k, vol, true, failed)
  {
    LookKeepsCalm(w.u, w.stamps, c, from, k, rows, server, w.server, vol0, vol, alone, quiet, Alone(w, c.job, vol.expected), w.Quiet(), true, failed);
  }

  /** The look found a book to go on with. */
  lemma LookGoesOn(w: World, c: Course, from: Origin, k: nat, rows: Rows, h: History, server: Server, vol0: Vol, vol: Vol, alone: bool, quiet: bool, failed: bool)
    requires 0 < k <= |c.plans| && w.rows == rows && CalmAt(w.u, w.stamps, c, from, k, rows, server, vol0, alone, quiet, false, failed)
    requires Good(w.rows, w.h) && h.observed <= w.h.observed && vol.expected.tags <= w.h.observed && w.h.used == h.used
    requires TurningAt(rows, h, c, k, vol0, failed) && vol == vol0.(expected := vol.expected, phaseCleared := false)
    requires (alone ==> w.server == server && Alone(w, c.job, vol.expected)) && (quiet ==> w.Quiet())
    ensures Turning(w, c, k, vol, failed) && Calm(w, c, from, k, vol, false, failed)
  {
    SeenMoreStaysTurning(w, c, k, vol0, vol, failed, rows, h);
    LookKeepsCalm(w.u, w.stamps, c, from, k, rows, server, w.server, vol0, vol, alone, quiet, Alone(w, c.job, vol.expected), w.Quiet(), false, failed);
  }

  /** Looks at the book again after a replacement, when there is a tag that could stop the run. */
  method RefreshBeforeNext(w: World, c: Course, k: nat, vol0: Vol, failed: bool, ghost from: Origin) returns (vol: Vol, early: Option<Status>)
    requires k < |c.plans| && Lined(w.u, c) && Turning(w, c, k, vol0, failed)
    requires Calm(w, c, from, k, vol0, false, failed) && Resting(w, c, from, vol0, failed) && Within(w, from)
    modifies w
    ensures w.OnlyReads() && Within(w, from)
    ensures if early.None? then Turning(w, c, k, vol, failed) && Resting(w, c, from, vol, failed) && Calm(w, c, from, k, vol, false, failed)
            else Calm(w, c, from, k, vol, true, failed)
    ensures k == 0 || from.idle || (from.calm && from.quiet && from.ripe) ==> early.None?
    ensures early.Some? ==> early.value.Partial? || early.value.Ignored?
    ensures StopsRightly(c, from, early)
    ensures vol0.phaseCleared && early.None? ==> !HasTag(vol.expected.tags, c.job.cfg.ignoreTag)
    ensures vol0.phaseCleared && early.None? && c.job.cfg.ignoreTag != "" ==> w.h.sights == old(w.h.sights) + [SawBook(vol.expected)]
  {
    vol := vol0.(phaseCleared := false);
    if !vol0.phaseCleared || c.job.cfg.ignoreTag == "" {
      SeenMoreStaysTurning(w, c, k, vol0, vol, failed, w.rows, w.h);
      return vol, None;
    }
    vol, early := LookAgain(w, c, k, vol0, failed, from);
  }

  /** The look itself. */
  method LookAgain(w: World, c: Course, k: nat, vol0: Vol, failed: bool, ghost from: Origin) returns (vol: Vol, early: Option<Status>)
    requires 0 < k < |c.plans| && Turning(w, c, k, vol0, failed) && Calm(w, c, from, k, vol0, false, failed) && Within(w, from)
    modifies w
    ensures w.OnlyReads() && Within(w, from) && StopsRightly(c, from, early)
    ensures if early.None? then Turning(w, c, k, vol, failed) && Calm(w, c, from, k, vol, false, failed) else Calm(w, c, from, k, vol, true, failed)
    ensures early.Some? ==> early.value.Partial? || early.value.Ignored?
    ensures early.None? ==> !HasTag(vol.expected.tags, c.job.cfg.ignoreTag) && w.h.sights == old(w.h.sights) + [SawBook(vol.expected)]
  {
    vol := vol0.(phaseCleared := false);
    ghost var rows, h, server, alone, quiet := w.rows, w.h, w.server, Alone(w, c.job, vol0.expected), w.Quiet();
    var book := w.GetLibraryBook();
    if book.None? {
      LookStops(w, c, from, k, rows, server, vol0, vol, alone, quiet, failed);
      return vol, Some(Partial);
    }
    vol := vol.(expected := book.value);
    if HasTag(book.value.tags, c.job.cfg.ignoreTag) {
      LookStops(w, c, from, k, rows, server, vol0, vol, alone, quiet, failed);
      return vol, Some(Ignored);
    }
    LookGoesOn(w, c, from, k, rows, h, server, vol0, vol, alone, quiet, failed);
    early := None;
  }

  lemma CalmEitherWay(w: World, c: Course, from: Origin, k: nat, vol: Vol, stop: bool, failed: bool)
    requires k <= |c.plans| && Calm(w, c, from, k, vol, stop, failed)
    ensures if stop then Calm(w, c, from, k, vol, true, failed) else Calm(w, c, from, k, vol, false, failed)
  {
  }

  /** One turn, after a look at the book where one is due; `next` counts the plans dealt with. */
  method RefreshAndTurn(w: World, c: Course, k: nat, vol1: Vol, failed1: bool, ghost from: Origin)
    returns (vol: Vol, stop: bool, failed: bool, early: Option<Status>, next: nat)
    requires k < |c.plans| && Lined(w.u, c) && Mandated(c.job, w.h) && Turning(w, c, k, vol1, failed1)
    requires Calm(w, c, from, k, vol1, false, failed1) && Resting(w, c, from, vol1, failed1) && Within(w, from)
    modifies w
    ensures w.OK() && w.rows.book.Some? && w.rows.Row().pendingTag == "" && w.Goes() && w.Remembers()
    ensures (stop ==> failed || early.Some?) && (early.Some? ==> stop && (early.value.Partial? || early.value.Ignored?))
    ensures Within(w, from) && StopsRightly(c, from, early)
    ensures k <= next <= |c.plans| && 0 < next
    ensures !stop ==> next == k + 1 && Turning(w, c, next, vol, failed)
    ensures Calm(w, c, from, next, vol, stop, failed)
    ensures from.idle ==> !stop && Resting(w, c, from, vol, failed)
  {
    failed, next := failed1, k;
    vol, early := RefreshBeforeNext(w, c, k, vol1, failed1, from);
    if early.Some? {
      stop := true;
      return;
    }
    vol, stop, failed := Turn(w, c, k, vol, failed1, from);
    next := k + 1;
  }

  /** What a loop that ended leaves. */
  ghost predicate Through(w: World, c: Course, from: Origin, vol: Vol, done: bool)
    reads w
  {
    && Following(w.u, w.stamps, c, from, |c.plans|, w.rows, w.server, !done)
    && (done ==> Alone(w, c.job, vol.expected))
  }

  lemma CalmIsThrough(w: World, c: Course, from: Origin, k: nat, vol: Vol, stop: bool, failed: bool, done: bool)
    requires k <= |c.plans| && Calm(w, c, from, k, vol, stop, failed) && from.calm
    requires done ==> k == |c.plans| && !failed && !stop
    ensures Through(w, c, from, vol, done)
    ensures from.quiet && k > 0 ==> Resumed(w.u, c, w.rows, w.server)
    ensures from.quiet && from.ripe ==> !stop && !failed
  {
  }

  lemma QueuedIsTurning(w: World, c: Course)
    requires Queued(w, c)
    ensures Turning(w, c, 0, c.vol, false) && Calm(w, c, OriginOf(w, c), 0, c.vol, false, false) && Resting(w, c, OriginOf(w, c), c.vol, false)
  {
    forall j | 0 <= j < |c.plans| ensures AgreeAt(c.intents, w.rows, c.plans[j].format) {}
  }

  /** One plan after the other, until the run has to stop; k of them were dealt with. */
  method TurnThrough(w: World, c: Course, ghost from: Origin) returns (vol: Vol, stop: bool, failed: bool, early: Option<Status>, k: nat)
    requires Queued(w, c) && Turning(w, c, 0, c.vol, false)
    requires Calm(w, c, from, 0, c.vol, false, false) && Resting(w, c, from, c.vol, false) && Within(w, from)
    modifies w
    ensures w.OK() && w.rows.book.Some? && w.rows.Row().pendingTag == "" && w.Goes() && w.Remembers()
    ensures early.Some? ==> stop && (early.value.Partial? || early.value.Ignored?)
    ensures StopsRightly(c, from, early)
    ensures k <= |c.plans| && (c.plans != [] ==> k > 0) && (!stop ==> k == |c.plans| && Turning(w, c, k, vol, failed))
    ensures stop ==> failed || early.Some?
    ensures if stop then Calm(w, c, from, k, vol, true, failed) else Calm(w, c, from, k, vol, false, failed)
    ensures from.idle ==> !stop && Resting(w, c, from, vol, failed)
  {
    vol, stop, failed, early, k := c.vol, false, false, None, 0;
    while k < |c.plans|
      invariant 0 <= k <= |c.plans| && early.None? && !stop
      invariant w.Goes() && w.Remembers() && Within(w, from)
      invariant Turning(w, c, k, vol, failed) && Calm(w, c, from, k, vol, false, failed) && Resting(w, c, from, vol, failed)
    {
      vol, stop, failed, early, k := RefreshAndTurn(w, c, k, vol, failed, from);
      CalmEitherWay(w, c, from, k, vol, stop, failed);
      if stop {
        return;
      }
    }
  }

  method ProcessPlans(w: World, c: Course) returns (vol: Vol, failed: bool, early: Option<Status>)
    requires Queued(w, c)
    modifies w
    ensures w.OK() && w.rows.book.Some? && w.rows.Row().pendingTag == "" && w.Goes() && w.Remembers()
    ensures early.None? && !failed ==> Synced(w, c.job, vol) && !vol.inProgress && (c.vol.ipTag != "" ==> vol.ipTag == c.vol.ipTag)
    ensures early.Some? ==> early.value.Partial? || early.value.Ignored?
    ensures old(w.Steady()) && old(w.Bounded()) && early == Some(Ignored) ==> HasTag(old(w.bound), c.job.cfg.ignoreTag)
    ensures old(OriginOf(w, c)).calm ==> Through(w, c, old(OriginOf(w, c)), vol, early.None? && !failed)
    ensures old(OriginOf(w, c)).calm && old(w.Quiet()) && c.plans != [] ==> Resumed(w.u, c, w.rows, w.server)
    ensures old(OriginOf(w, c)).calm && old(w.Quiet()) && old(OriginOf(w, c)).ripe ==> early.None? && !failed
    ensures old(OriginOf(w, c)).idle ==> early.None? && Resting(w, c, old(OriginOf(w, c)), vol, failed)
  {
    ghost var from := OriginOf(w, c);
    QueuedIsTurning(w, c);
    var k, stop;
    vol, stop, failed, early, k := TurnThrough(w, c, from);
    if from.calm {
      CalmIsThrough(w, c, from, k, vol, stop, failed, early.None? && !failed);
    }
  }
}
