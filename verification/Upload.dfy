/** Putting one derivative on the server: a plain upload behind a durable intent, or the
    prepare - delete - probe - upload sequence; and its verified commit (service.go). */
module Upload {
  import opened Inventory
  import opened Checkpoints
  import opened ArtifactName
  import opened Planner
  import opened World
  import opened Recovery
  import Safety
  import opened Resume

  /** The row still has the tag that commits of this run used. */
  ghost predicate TagKept(rows: Rows, h: History) {
    "" !in h.used && forall t {:trigger Stray(h.used, rows.Row().ipTag, t)} :: !Stray(h.used, rows.Row().ipTag, t)
  }

  predicate Stray(used: set<string>, tag: string, t: string) { t in used && t != tag }

  /** The rows while a format may be worked on: no cleanup is due, no other format is owed, and
      the canonical source on record is the job's. */
  ghost predicate WorkingAt(rows: Rows, h: History, job: Job, f: Format) {
    && Good(rows, h) && rows.book.Some? && rows.Row().pendingTag == "" && Based(rows.Row(), job)
    && TagKept(rows, h) && forall g :: Owns(rows, g) ==> g == f
  }

  ghost predicate Working(w: World, job: Job, f: Format)
    reads w
  {
    WorkingAt(w.rows, w.h, job, f)
  }

  function TargetOf(before: File, format: Format): Target { Target(before.id, before.name, format, before.kind) }

  function Aimed(i: Intent, before: File): Intent { i.(target := TargetOf(before, i.format)) }

  /** What the sequence demands of the listing its plan was made from. */
  predicate Unambiguous(job: Job, plan: Plan, before: File, initial: Book) {
    && before.id != 0 && job.canon.id != 0
    && |FilesFor(initial.files, plan.format)| == 1 && |FilesFor(initial.files, job.main)| == 1
    && UniqueIds(initial.files)
  }

  /** The run's own orders are on record. */
  ghost predicate Mandated(job: Job, h: History) { UnderOrders(job.cfg, job.force, job.main, h) }

  /** The preflight of the service is what every grant must show. */
  lemma PreflightIsProof(job: Job, before: File, authorized: bool, g: Grant)
    requires SawPreflight(job, g.format, before, authorized, g.sights) && Based(g.rows.Row(), job) && g.target == before.id
    ensures Preflighted(g)
  {
    assert ShowsBoth(g.sights[|g.sights| - 4], g) && ShowsBoth(g.sights[|g.sights| - 2], g);
  }

  /** Whatever lets the loop replace a file lets it do so on record. */
  lemma AuthorizationIsOriginal(job: Job, before: File, authorized: bool, g: Grant, h: History)
    requires Good(g.rows, h) && Mandated(job, h) && g.run == LatestRun(h.orders)
    requires SawPreflight(job, g.format, before, authorized, g.sights)
    requires g.sights == h.sights && (authorized ==> g.rows.Row().ipTag != "")
    ensures Original(g, h.orders, h.usable)
  {
    var latest := g.sights[|g.sights| - 2];
    assert latest in h.sights && latest.book.tags <= h.observed;
  }

  /** What the service demands before it records a target. */
  ghost predicate MayRecord(rows: Rows, h: History, job: Job, i: Intent, before: File, authorized: bool) {
    && WorkingAt(rows, h, job, i.format) && Mandated(job, h) && i.target == TargetOf(before, i.format)
    && (i.tag != "" ==> i.tag in h.usable && rows.Row().ipTag in {"", i.tag})
    && (Owns(rows, i.format) ==> rows.intents[i.format].target.id == before.id)
    && (authorized && !Owns(rows, i.format) ==> rows.Row().ipTag != "")
    && (!job.force && !job.cfg.replacePolicy && !Owns(rows, i.format) ==> i.tag != "" || rows.Row().ipTag != "")
    && (i.tag != "" && rows.Row().ipTag == "" ==> i.tag == job.cfg.replacementTag)
    && (Unsettled(rows, i.format) ==> job.force)
  }

  lemma GrantIsTagged(rows: Rows, h: History, job: Job, before: File, i: Intent, authorized: bool)
    requires MayRecord(rows, h, job, i, before, authorized)
    ensures TaggedRightly(GrantNow(rows, i, h), Orders(job.cfg, job.force, Some(job.main)))
    ensures SparesUnsettled(GrantNow(rows, i, h), Orders(job.cfg, job.force, Some(job.main)))
  {
  }

  lemma GrantIsOK(rows: Rows, h: History, job: Job, before: File, i: Intent, authorized: bool)
    requires MayRecord(rows, h, job, i, before, authorized) && SawPreflight(job, i.format, before, authorized, h.sights)
    ensures GrantOK(GrantNow(rows, i, h), h.orders, h.usable)
  {
    var g := GrantNow(rows, i, h);
    GrantIsTagged(rows, h, job, before, i, authorized);
    PreflightIsProof(job, before, authorized, g);
    if !Owns(rows, i.format) {
      AuthorizationIsOriginal(job, before, authorized, g, h);
    }
  }

  /** The new grant was given under these rows, after the preflight. */
  ghost predicate GivenOnProof(a: seq<Grant>, b: seq<Grant>, job: Job, f: Format, before: File, authorized: bool, rows: Rows) {
    exists g :: b == a + [g] && g.rows == rows && g.format == f && g.target == before.id
                && SawPreflight(job, f, before, authorized, g.sights)
  }

  lemma PrepareKeepsTag(rows: Rows, h: History, i: Intent)
    requires TagKept(rows, h) && Prepare(rows, i).Some? && (i.tag != "" ==> rows.Row().ipTag in {"", i.tag})
    ensures TagKept(Prepare(rows, i).value, h.(grants := h.grants + [GrantNow(rows, i, h)]))
  {
    var next := Prepare(rows, i).value;
    forall t ensures !Stray(h.used, next.Row().ipTag, t) {
      assert !Stray(h.used, rows.Row().ipTag, t);
    }
  }

  lemma PrepareIsGood(rows: Rows, h: History, job: Job, before: File, i: Intent, authorized: bool)
    requires MayRecord(rows, h, job, i, before, authorized) && SawPreflight(job, i.format, before, authorized, h.sights)
    requires Prepare(rows, i).Some?
    ensures var h' := h.(grants := h.grants + [GrantNow(rows, i, h)]);
            && WorkingAt(Prepare(rows, i).value, h', job, i.format)
            && Cleared(h'.grants, LatestRun(h'.orders), i.format, before.id)
            && GivenOnProof(h.grants, h'.grants, job, i.format, before, authorized, rows)
  {
    GrantIsOK(rows, h, job, before, i, authorized);
    Safety.PrepareKeepsGood(rows, h, i, GrantNow(rows, i, h));
    PrepareOK(rows, i);
    PrepareKeepsTag(rows, h, i);
  }

  /** The grants and the rows are as they were, or the target was recorded after the preflight. */
  ghost predicate RecordedOnProof(rows: Rows, grants: seq<Grant>, rows': Rows, grants': seq<Grant>, job: Job, i: Intent, before: File, authorized: bool) {
    || (rows' == rows && grants' == grants)
    || (Prepare(rows, i) == Some(rows') && GivenOnProof(grants, grants', job, i.format, before, authorized, rows))
  }

  /** Records the intent, the target and the phase, after a preflight that has just passed. */
  method RecordTarget(w: World, job: Job, before: File, i: Intent, authorized: bool) returns (ok: bool)
    requires MayRecord(w.rows, w.h, job, i, before, authorized) && SawPreflight(job, i.format, before, authorized, w.h.sights)
    modifies w
    ensures Working(w, job, i.format) && w.Goes() && w.Remembers() && (old(w.Steady()) ==> w.server == old(w.server))
    ensures w.h.uploads == old(w.h.uploads) && w.h.deletes == old(w.h.deletes)
    ensures RecordedOnProof(old(w.rows), old(w.h.grants), w.rows, w.h.grants, job, i, before, authorized)
    ensures ok ==> Prepare(old(w.rows), i) == Some(w.rows) && Cleared(w.h.grants, LatestRun(w.h.orders), i.format, before.id)
    ensures old(w.Quiet()) && Prepare(old(w.rows), i).Some? ==> ok
    ensures old(w.Quiet()) && !ok ==> w.rows == old(w.rows)
  {
    if Prepare(w.rows, i).Some? {
      PrepareIsGood(w.rows, w.h, job, before, i, authorized);
    }
    ghost var did;
    ok, did := w.PrepareReplacement(i);
    if ok {
      ok := w.LocalCheck();   // the caller has not been cancelled
    }
  }

  lemma PreflightSparesCanonical(job: Job, f: Format, before: File, authorized: bool, sights: seq<Sight>)
    requires SawPreflight(job, f, before, authorized, sights)
    ensures before.id != job.canon.id
  {
  }

  /** Everything is checked once more against the server. */
  method Preflight(w: World, job: Job, plan: Plan, before: File, initial: Book, authorized: bool) returns (ok: bool)
    modifies w
    ensures w.OnlyReads() && w.h.grants == old(w.h.grants)
    ensures ok ==>
              && SawPreflight(job, plan.format, before, authorized, w.h.sights)
              && Unambiguous(job, plan, before, initial) && before.id != job.canon.id
    ensures old(w.Steady()) && ok ==> Replaceable(job, w.server.book, plan.format, before, authorized)
    ensures (old(w.Quiet()) && Unambiguous(job, plan, before, initial)
            && Replaceable(job, w.server.book, plan.format, before, authorized)) ==> ok
  {
    if !Unambiguous(job, plan, before, initial) {
      return false;
    }
    ok := w.LocalCheck();   // the converted file is still what was hashed
    if !ok {
      return;
    }
    var found := RevalidateReplacementInventory(w, job, plan.format, before, authorized);
    ok := found.Some?;
    if ok {
      PreflightSparesCanonical(job, plan.format, before, authorized, w.h.sights);
    }
  }

  /** Checks everything once more against the server, then records intent, target and phase. */
  method PrepareTarget(w: World, job: Job, plan: Plan, before: File, initial: Book, i: Intent, authorized: bool)
    returns (ok: bool, prepared: Intent)
    requires i.format == plan.format && MayRecord(w.rows, w.h, job, Aimed(i, before), before, authorized)
    modifies w
    ensures Working(w, job, plan.format) && w.Goes() && w.Remembers()
    ensures w.h.uploads == old(w.h.uploads) && w.h.deletes == old(w.h.deletes)
    ensures prepared == Aimed(i, before)
    ensures RecordedOnProof(old(w.rows), old(w.h.grants), w.rows, w.h.grants, job, prepared, before, authorized)
    ensures ok ==>
              && Prepare(old(w.rows), prepared) == Some(w.rows) && before.id != job.canon.id && Unambiguous(job, plan, before, initial)
              && Cleared(w.h.grants, LatestRun(w.h.orders), plan.format, before.id)
    ensures old(w.Steady()) ==> w.server == old(w.server)
    ensures old(w.Steady()) && (ok || w.rows != old(w.rows)) ==>
              Unambiguous(job, plan, before, initial) && Replaceable(job, w.server.book, plan.format, before, authorized)
    ensures (old(w.Quiet()) && Unambiguous(job, plan, before, initial) && ValidIntent(i)
            && Replaceable(job, old(w.server.book), plan.format, before, authorized)) ==> ok
    ensures old(w.Quiet()) && !ok ==> w.rows == old(w.rows)
  {
    prepared := Aimed(i, before);
    ok := Preflight(w, job, plan, before, initial, authorized);
    if !ok {
      return;
    }
    ok := RecordTarget(w, job, before, prepared, authorized);
  }

  /** The file has what the server gives to an upload with its id and content. */
  ghost predicate Stamped(stamps: (nat, Sha) -> Stamp, x: File) {
    var s := stamps(x.id, x.content);
    x.kind == s.kind && x.sizeKB == s.sizeKB && x.advertised == s.advertised && x.mtime == s.mtime
  }

  /** Of this format, b has files of a and later uploads. */
  ghost predicate OnlyAdds(stamps: (nat, Sha) -> Stamp, a: Server, b: Server, format: Format) {
    && a.nextId <= b.nextId
    && forall x :: x in FilesFor(b.book.files, format) ==> x in FilesFor(a.book.files, format) || (x.id >= a.nextId && Stamped(stamps, x))
  }

  lemma UploadOnlyAdds(stamps: (nat, Sha) -> Stamp, server: Server, format: Format, name: string, content: Sha)
    ensures OnlyAdds(stamps, server, AddFile(server, NewFile(stamps, server.nextId, format, name, content)), format)
  {
    AddOnly(server.book.files, NewFile(stamps, server.nextId, format, name, content));
  }

  ghost predicate SoleTarget(i: Intent, server: Server) {
    |FilesFor(server.book.files, i.format)| == 1 && FilesFor(server.book.files, i.format)[0].id == i.target.id
  }

  ghost predicate SoleIntended(i: Intent, server: Server) {
    |FilesFor(server.book.files, i.format)| == 1 && IsIntended(i, FilesFor(server.book.files, i.format)[0])
  }

  /** The files of other formats and the tags are the same. */
  ghost predicate SameOthers(a: Server, b: Server, format: Format) {
    Others(a.book.files, format) == Others(b.book.files, format) && a.book.tags == b.book.tags
  }

  /** The intent is on record as the owner's, and this run went through the preflight for it. */
  ghost predicate SequenceAt(rows: Rows, h: History, job: Job, plan: Plan, i: Intent) {
    && WorkingAt(rows, h, job, plan.format)
    && Owns(rows, plan.format) && rows.intents[plan.format] == i
    && i.format == plan.format && i.target.id != job.canon.id
    && Cleared(h.grants, LatestRun(h.orders), plan.format, i.target.id)
  }

  ghost predicate Sequence(w: World, job: Job, plan: Plan, i: Intent)
    reads w
  {
    SequenceAt(w.rows, w.h, job, plan, i)
  }

  lemma PreparedIsSequence(rows0: Rows, rows: Rows, h: History, job: Job, plan: Plan, i: Intent)
    requires Prepare(rows0, i) == Some(rows) && i.format == plan.format && i.target.id != job.canon.id
    requires WorkingAt(rows, h, job, plan.format) && Cleared(h.grants, LatestRun(h.orders), plan.format, i.target.id)
    ensures SequenceAt(rows, h, job, plan, i)
  {
  }

  /** Deletes exactly the recorded target. An error may hide a file that is already the new one. */
  method DeleteTarget(w: World, job: Job, plan: Plan, initial: Book, i: Intent) returns (ok: bool, recovered: bool)
    requires Sequence(w, job, plan, i)
    modifies w
    ensures Sequence(w, job, plan, i) && w.Goes() && w.rows == old(w.rows) && w.Remembers()
    ensures w.h.uploads == old(w.h.uploads)
    ensures recovered ==> ok
    ensures old(w.Steady()) && RecoverableIntent(w.u, i, old(w.server), job.main) && SoleTarget(i, old(w.server)) ==>
              && RecoverableIntent(w.u, i, w.server, job.main) && SameOthers(w.server, old(w.server), plan.format)
              && OnlyAdds(w.stamps, old(w.server), w.server, plan.format)
    ensures (old(w.Quiet()) && RecoverableIntent(w.u, i, old(w.server), job.main) && SoleTarget(i, old(w.server))) ==>
              ok && !recovered && w.server == DropFile(old(w.server), i.target.id) && FilesFor(w.server.book.files, plan.format) == []
  {
    if w.Steady() && RecoverableIntent(w.u, i, w.server, job.main) && SoleTarget(i, w.server) {
      DropIsRecoverable(w.u, i, w.server, job.main);
      FindOnlyFormat(w.server.book.files, plan.format, FilesFor(w.server.book.files, plan.format)[0]);
    }
    ok := DeleteRecorded(w, job, plan, i);
    recovered := false;
    if !ok {
      var found;
      ok, found := RecoverableIntentCandidate(w, job, initial, plan, i);
      recovered := found.Some?;
    }
  }

  /** The delete itself: on record before it is sent, with the rows that account for it. */
  method DeleteRecorded(w: World, job: Job, plan: Plan, i: Intent) returns (ok: bool)
    requires Sequence(w, job, plan, i)
    modifies w
    ensures Sequence(w, job, plan, i) && w.LeavesRows() && w.Remembers() && w.h.uploads == old(w.h.uploads)
    ensures old(w.Steady()) ==> w.server == old(w.server) || w.server == DropFile(old(w.server), i.target.id)
    ensures old(w.Quiet()) ==>
              w.server == DropFile(old(w.server), i.target.id) && (ok <==> exists x :: x in old(w.server.book.files) && x.id == i.target.id)
  {
    ghost var rows, h := w.rows, w.h;
    ghost var did, before;
    ok, did, before := w.Delete(i.target.id);
    Safety.DeleteKeepsGood(rows, h, plan.format, i.target.id, did, if did then FormatsOf(before.book.files, i.target.id) else {});
  }

  /** The upload may be sent: a durable intent names it, or the library lacks its main file. */
  ghost predicate Sendable(w: World, format: Format, name: string, content: Sha)
    reads w
  {
    w.OK() && UploadOK(UploadRecord(LatestRun(w.h.orders), format, name, content, w.rows, w.h.listed), w.h.orders)
  }

  /** The client and its multipart writer each sanitize the name that the service derived: the
      server gets the derived name all the same. */
  method SendFile(w: World, format: Format, sourceName: string, content: Sha) returns (ok: bool, ghost did: bool)
    requires w.u.Valid() && ValidFormat(format) && Sendable(w, format, OutputName(w.u, sourceName, format), content)
    modifies w
    ensures w.OK() && w.LeavesRows() && w.Remembers()
    ensures w.h == if old(w.crashed) then old(w.h) else
              old(w.h).(uploads := old(w.h.uploads) + [UploadRecord(LatestRun(w.h.orders), format, OutputName(w.u, sourceName, format), content, w.rows, w.h.listed)])
    ensures old(w.Steady()) ==>
              w.server == if did then AddFile(old(w.server), NewFile(w.stamps, old(w.server).nextId, format, OutputName(w.u, sourceName, format), content))
                          else old(w.server)
    ensures ok ==> did && !w.crashed
    ensures old(w.Quiet()) ==> ok
  {
    var name := OutputName(w.u, sourceName, format);
    var filed := OutputName(w.u, OutputName(w.u, name, format), format);
    ThreeLayersAreOne(w.u, sourceName, format);
    Safety.UploadKeepsGood(w.rows, w.h, UploadRecord(LatestRun(w.h.orders), format, name, content, w.rows, w.h.listed));
    ok, did := w.Upload(format, filed, content);
  }

  /** No upload, or one, sent after a listing without any file of the format. */
  ghost predicate UploadedOnceGone(a: History, b: History, format: Format) {
    || b.uploads == a.uploads
    || (|b.uploads| == |a.uploads| + 1 && a.uploads <= b.uploads && ListedNone(b.uploads[|a.uploads|].listed, format))
  }

  /** Uploads into a format that was just seen empty; an error may hide a file that arrived. */
  method UploadInPlace(w: World, job: Job, plan: Plan, initial: Book, i: Intent, output: Sha) returns (ok: bool)
    requires Sequence(w, job, plan, i) && w.u.Valid() && ValidFormat(plan.format) && ListedNone(w.h.listed, plan.format)
    requires i.outputSha == Some(output) && i.outputName == OutputName(w.u, job.name, plan.format)
    modifies w
    ensures Sequence(w, job, plan, i) && w.Goes() && w.rows == old(w.rows) && w.Remembers()
    ensures UploadedOnceGone(old(w.h), w.h, plan.format) && w.h.deletes == old(w.h.deletes)
    ensures old(w.Steady()) && RecoverableIntent(w.u, i, old(w.server), job.main) && FilesFor(old(w.server.book.files), plan.format) == [] ==>
              && RecoverableIntent(w.u, i, w.server, job.main) && SameOthers(w.server, old(w.server), plan.format)
              && OnlyAdds(w.stamps, old(w.server), w.server, plan.format)
    ensures (old(w.Quiet()) && RecoverableIntent(w.u, i, old(w.server), job.main) && FilesFor(old(w.server.book.files), plan.format) == []) ==>
              ok && SoleIntended(i, w.server)
  {
    if RecoverableIntent(w.u, i, w.server, job.main) && FilesFor(w.server.book.files, plan.format) == [] {
      AddIsRecoverable(w.u, w.stamps, i, w.server, job.main);
      UploadOnlyAdds(w.stamps, w.server, plan.format, i.outputName, output);
    }
    ghost var did;
    ok, did := SendFile(w, plan.format, job.name, output);
    if !ok {
      var recoveryOK, found := RecoverableIntentCandidate(w, job, initial, plan, i);
      ok := recoveryOK && found.Some?;
    }
  }

  /** Uploads only when the target is gone. */
  method ProbeAndUpload(w: World, job: Job, plan: Plan, before: File, initial: Book, i: Intent, output: Sha) returns (destructive: bool, ok: bool)
    requires Sequence(w, job, plan, i) && w.u.Valid() && ValidFormat(plan.format)
    requires i.outputSha == Some(output) && i.outputName == OutputName(w.u, job.name, plan.format)
    modifies w
    ensures Sequence(w, job, plan, i) && w.Goes() && w.rows == old(w.rows) && w.Remembers()
    ensures UploadedOnceGone(old(w.h), w.h, plan.format) && w.h.deletes == old(w.h.deletes)
    ensures ok ==> destructive
    ensures old(w.Steady()) && RecoverableIntent(w.u, i, old(w.server), job.main) ==>
              && RecoverableIntent(w.u, i, w.server, job.main) && SameOthers(w.server, old(w.server), plan.format)
              && OnlyAdds(w.stamps, old(w.server), w.server, plan.format)
    ensures (old(w.Quiet()) && RecoverableIntent(w.u, i, old(w.server), job.main) && CanonicalSole(job, old(w.server.book.files))
            && FilesFor(old(w.server.book.files), plan.format) == []) ==> ok && SoleIntended(i, w.server)
  {
    var probed := w.GetLibraryBook();
    if probed.None? || !ValidateReplacementBook(job, probed.value, plan.format, before, false, true) {
      return false, false;
    }
    var same := w.LocalCheck();
    if !same {
      return false, false;
    }
    destructive := true;
    ok := UploadInPlace(w, job, plan, initial, i, output);
  }

  /** The plan is for another format than the job's canonical file. */
  ghost predicate JobFits(u: Unicode, job: Job, plan: Plan) {
    && u.Valid() && ValidFormat(job.main) && ValidFormat(plan.format) && plan.format != job.main
    && job.canon.format == job.main
    && plan.gen == DesiredGen(u, Some(job.sha), job.name, plan.format)
  }

  /** The listing in hand is the server's. */
  ghost predicate UpToDate(initial: Book, server: Server) {
    initial == server.book && IdsBelow(server)
  }

  /** A sole file of the main format is the canonical file, with the bytes that were downloaded. */
  ghost predicate Grounded(u: Unicode, job: Job, server: Server) {
    && job.name == CanonicalName(u, job.canon, job.main)
    && (|FilesFor(server.book.files, job.main)| == 1 ==>
          FilesFor(server.book.files, job.main)[0] == job.canon && job.canon.content == job.sha)
  }

  /** The prepared intent describes the book, with its target in place. */
  ghost predicate Evident(u: Unicode, job: Job, prepared: Intent, server: Server) {
    RecoverableIntent(u, prepared, server, job.main) && SoleTarget(prepared, server) && CanonicalSole(job, server.book.files)
  }

  lemma PreparedIsEvident(u: Unicode, job: Job, plan: Plan, before: File, initial: Book, i: Intent, output: Sha, tag: string, server: Server, authorized: bool)
    requires JobFits(u, job, plan) && UpToDate(initial, server) && Grounded(u, job, server)
    requires i == UploadIntentFor(u, job, plan, StableFingerprint(initial.files, plan.format), output, tag)
    requires Unambiguous(job, plan, before, initial) && Replaceable(job, server.book, plan.format, before, authorized)
    ensures Evident(u, job, Aimed(i, before), server)
  {
    var files := server.book.files;
    var c, t := FilesFor(files, job.main)[0], FilesFor(files, plan.format)[0];
    InFilters(files, job.main, c);
    InFilters(files, plan.format, t);
  }

  lemma EvidentIsRecoverable(u: Unicode, job: Job, rows: Rows, next: Rows, prepared: Intent, server: Server)
    requires (forall f :: Owns(rows, f) ==> f == prepared.format) && Prepare(rows, prepared) == Some(next)
    requires Evident(u, job, prepared, server)
    ensures Recoverable(u, next, server, job.main)
  {
    forall f | Owns(next, f) ensures RecoverableIntent(u, next.intents[f], server, job.main) {
      if f != prepared.format { assert Owns(rows, f); }
    }
  }

  lemma IntentIsValid(u: Unicode, job: Job, plan: Plan, stable: seq<FileKey>, output: Sha, tag: string)
    requires JobFits(u, job, plan)
    ensures ValidIntent(UploadIntentFor(u, job, plan, stable, output, tag))
  {
    OutputNameIsSafe(u, job.name, plan.format);
  }

  /** Nobody interferes and the service knows the listing. */
  ghost predicate Alone(w: World, job: Job, initial: Book)
    reads w
  {
    w.Steady() && UpToDate(initial, w.server) && Grounded(w.u, job, w.server)
  }

  /** The intended upload is the only file of its format, and the canonical file is as known. */
  ghost predicate Final(u: Unicode, job: Job, i: Intent, server: Server) {
    && SoleIntended(i, server) && RecoverableIntent(u, i, server, job.main)
    && CanonicalSole(job, server.book.files) && FilesFor(server.book.files, job.main)[0].content == job.sha
    && FilesFor(server.book.files, i.format)[0].id != job.canon.id
  }

  lemma IntendedIsFinal(u: Unicode, job: Job, i: Intent, before: Server, after: Server)
    requires Grounded(u, job, before) && SameOthers(after, before, i.format)
    requires RecoverableIntent(u, i, after, job.main) && SoleIntended(i, after)
    ensures Final(u, job, i, after)
  {
    OtherFormatsAgree(after.book.files, before.book.files, i.format, job.main);
    var c, x := FilesFor(after.book.files, job.main)[0], FilesFor(after.book.files, i.format)[0];
    InFilters(after.book.files, job.main, c);
    InFilters(after.book.files, i.format, x);
  }

  /** An undisturbed sequence leaves the owner's evidence and the other formats alone, from
      wherever it is interrupted. */
  twostate predicate SequenceKeeps(w: World, job: Job, plan: Plan, i: Intent)
    reads w
  {
    old(w.Steady()) && RecoverableIntent(w.u, i, old(w.server), job.main) && SoleTarget(i, old(w.server)) ==>
      && RecoverableIntent(w.u, i, w.server, job.main) && SameOthers(w.server, old(w.server), plan.format)
      && OnlyAdds(w.stamps, old(w.server), w.server, plan.format)
  }

  /** Delete, probe and upload, the service being free to die in between. */
  method DeleteAndUpload(w: World, job: Job, plan: Plan, before: File, initial: Book, i: Intent, output: Sha) returns (destructive: bool, ok: bool)
    requires Sequence(w, job, plan, i) && w.u.Valid() && ValidFormat(plan.format)
    requires i.outputSha == Some(output) && i.outputName == OutputName(w.u, job.name, plan.format)
    modifies w
    ensures Sequence(w, job, plan, i) && w.Goes() && w.rows == old(w.rows) && w.Remembers()
    ensures ok ==> destructive
    ensures SequenceKeeps(w, job, plan, i)
    ensures (old(w.Quiet()) && RecoverableIntent(w.u, i, old(w.server), job.main) && CanonicalSole(job, old(w.server.book.files))
            && SoleTarget(i, old(w.server))) ==> ok && SoleIntended(i, w.server)
  {
    ghost var server := w.server;
    var recovered;
    ok, recovered := DeleteTarget(w, job, plan, initial, i);
    if !ok || recovered {
      return recovered, ok;
    }
    if SameOthers(w.server, server, plan.format) && plan.format != job.main {
      OtherFormatsAgree(w.server.book.files, server.book.files, plan.format, job.main);
    }
    destructive, ok := ProbeAndUpload(w, job, plan, before, initial, i, output);
  }

  /** As above; undisturbed it ends with the intended file in place. */
  method CompleteReplacement(w: World, job: Job, plan: Plan, before: File, initial: Book, i: Intent, output: Sha) returns (destructive: bool, ok: bool)
    requires Sequence(w, job, plan, i) && w.u.Valid() && ValidFormat(plan.format)
    requires i.outputSha == Some(output) && i.outputName == OutputName(w.u, job.name, plan.format)
    modifies w
    ensures Sequence(w, job, plan, i) && w.Goes() && w.rows == old(w.rows) && w.Remembers()
    ensures ok ==> destructive
    ensures SequenceKeeps(w, job, plan, i)
    ensures (old(w.Quiet()) && RecoverableIntent(w.u, i, old(w.server), job.main) && CanonicalSole(job, old(w.server.book.files))
            && Grounded(w.u, job, old(w.server)) && SoleTarget(i, old(w.server))) ==> ok && Final(w.u, job, i, w.server)
  {
    ghost var server := w.server;
    ghost var finishing := w.Quiet() && RecoverableIntent(w.u, i, server, job.main) && CanonicalSole(job, server.book.files)
      && Grounded(w.u, job, server) && SoleTarget(i, server);
    destructive, ok := DeleteAndUpload(w, job, plan, before, initial, i, output);
    if finishing {
      IntendedIsFinal(w.u, job, i, server, w.server);
    }
  }

  /** What is owed stays recoverable, other formats stay as they are, and this one gets nothing but
      uploads. */
  ghost predicate UnharmedAt(u: Unicode, stamps: (nat, Sha) -> Stamp, job: Job, f: Format, a: Rows, sa: Server, b: Rows, sb: Server) {
    Recoverable(u, a, sa, job.main) ==>
      Recoverable(u, b, sb, job.main) && SameOthers(sb, sa, f) && IdsBelow(sb) && OnlyAdds(stamps, sa, sb, f)
  }

  twostate predicate Unharmed(w: World, job: Job, expected: Book, f: Format)
    reads w
  {
    old(Alone(w, job, expected)) ==> UnharmedAt(w.u, w.stamps, job, f, old(w.rows), old(w.server), w.rows, w.server)
  }

  /** The preparation leaves evidence that fits the book. */
  method PrepareEvident(w: World, job: Job, plan: Plan, before: File, initial: Book, i: Intent, output: Sha, tag: string, authorized: bool)
    returns (ok: bool, prepared: Intent)
    requires JobFits(w.u, job, plan) && MayRecord(w.rows, w.h, job, Aimed(i, before), before, authorized)
    requires i == UploadIntentFor(w.u, job, plan, StableFingerprint(initial.files, plan.format), output, tag)
    modifies w
    ensures Working(w, job, plan.format) && w.Goes() && w.Remembers()
    ensures prepared == Aimed(i, before)
    ensures w.rows == old(w.rows) || Prepare(old(w.rows), prepared) == Some(w.rows)
    ensures ok ==> Prepare(old(w.rows), prepared) == Some(w.rows) && Sequence(w, job, plan, prepared) && Unambiguous(job, plan, before, initial)
    ensures old(w.Steady()) ==> w.server == old(w.server)
    ensures old(Alone(w, job, initial)) && (ok || w.rows != old(w.rows)) ==>
              Evident(w.u, job, prepared, w.server) && Recoverable(w.u, w.rows, w.server, job.main)
    ensures (old(w.Quiet()) && old(Alone(w, job, initial)) && Unambiguous(job, plan, before, initial)
            && Replaceable(job, old(w.server.book), plan.format, before, authorized)) ==> ok
    ensures old(w.Quiet()) && !ok ==> w.rows == old(w.rows)
  {
    IntentIsValid(w.u, job, plan, StableFingerprint(initial.files, plan.format), output, tag);
    ghost var rows, alone := w.rows, Alone(w, job, initial);
    ok, prepared := PrepareTarget(w, job, plan, before, initial, i, authorized);
    if ok {
      PreparedIsSequence(rows, w.rows, w.h, job, plan, prepared);
    }
    if alone && (ok || w.rows != rows) {
      PreparedIsEvident(w.u, job, plan, before, initial, i, output, tag, w.server, authorized);
      EvidentIsRecoverable(w.u, job, rows, w.rows, prepared, w.server);
    }
  }

  /** The only supported replacement: prepare durably, delete the exact target, probe, upload. */
  method ReplaceFile(w: World, job: Job, plan: Plan, before: File, initial: Book, i: Intent, output: Sha, tag: string, authorized: bool)
    returns (destructive: bool, ok: bool)
    requires JobFits(w.u, job, plan) && MayRecord(w.rows, w.h, job, Aimed(i, before), before, authorized)
    requires i == UploadIntentFor(w.u, job, plan, StableFingerprint(initial.files, plan.format), output, tag)
    modifies w
    ensures Working(w, job, plan.format) && w.Goes() && w.Remembers()
    ensures w.rows == old(w.rows) || Prepare(old(w.rows), Aimed(i, before)) == Some(w.rows)
    ensures ok ==> destructive && Prepare(old(w.rows), Aimed(i, before)) == Some(w.rows) && Unambiguous(job, plan, before, initial)
    ensures Unharmed(w, job, initial, plan.format)
    ensures (old(w.Quiet()) && old(Alone(w, job, initial)) && Unambiguous(job, plan, before, initial)
            && Replaceable(job, old(w.server.book), plan.format, before, authorized)) ==> ok
    ensures (old(w.Quiet()) && old(Alone(w, job, initial)) && !ok) ==> w.rows == old(w.rows) && w.server == old(w.server)
    ensures old(w.Quiet()) && old(Alone(w, job, initial)) && ok ==> Final(w.u, job, Aimed(i, before), w.server)
  {
    var prepared;
    ok, prepared := PrepareEvident(w, job, plan, before, initial, i, output, tag, authorized);
    if !ok {
      return false, false;
    }
    destructive, ok := CompleteReplacement(w, job, plan, before, initial, prepared, output);
  }
}
