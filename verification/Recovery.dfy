/** The checks around one derivative: whether an upload of an earlier run may be adopted, whether
    a file may be replaced, and whether an upload may be committed (service.go). */
module Recovery {
  import opened Inventory
  import opened Checkpoints
  import opened ArtifactName
  import opened Planner
  import opened World

  /** What stays fixed while the derivatives of one run are processed. */
  datatype Job = Job(cfg: Config, force: bool, main: Format, canon: File, sha: Sha, name: string, mtime: Option<int>, recreated: bool)

  /** The row on record is that of the canonical source this run works with. */
  predicate Based(row: BookRow, job: Job) {
    && row.mainFormat == job.main && row.canonicalFileId == job.canon.id
    && row.canonicalSha == Some(job.sha) && row.canonicalMtime == job.mtime
  }

  /** The plan carries the fingerprint of this job. */
  predicate Marked(u: Unicode, job: Job, plan: Plan) { plan.gen == DesiredGen(u, Some(job.sha), job.name, plan.format) }

  predicate ReplacementAllowedForState(cfg: Config, tags: set<string>, inProgress: bool, ipTag: string, force: bool) {
    inProgress || ipTag != "" || ReplacementAllowed(cfg, tags, force)
  }

  /** The latest run on record has these orders. */
  ghost predicate UnderOrders(cfg: Config, force: bool, main: Format, h: History) {
    h.orders != [] && h.orders[|h.orders| - 1] == Orders(cfg, force, Some(main)) && h.failureTag == cfg.failedTag
  }

  // ---- Which file an intent speaks of ----

  function TargetFile(t: Target): File { File(t.id, t.name, t.format, t.kind, 0, None, None, 0) }

  predicate ReplacementTargetMatches(files: seq<File>, format: Format, i: Intent) {
    && i.target.id != 0 && i.target.format == format
    && |FilesFor(files, format)| == 1 && UniqueIds(files)
    && SameIdentity(FilesFor(files, format)[0], TargetFile(i.target))
  }

  predicate ReplacementTargetMissing(files: seq<File>, format: Format, i: Intent) {
    && i.target.id != 0 && i.target.format == format
    && UniqueIds(files) && FilesFor(files, format) == []
  }

  function UploadIntentFor(u: Unicode, job: Job, plan: Plan, stable: seq<FileKey>, output: Sha, tag: string): Intent {
    Intent(plan.format, OutputName(u, job.name, plan.format), Some(output), Some(job.sha), plan.gen,
           job.canon.id, job.canon.name, job.canon.format, Some(stable), tag, NO_TARGET)
  }

  /** A renewed intent keeps what the interrupted replacement recorded. */
  function PreservePreparedReplacementEvidence(prepared: Intent, regenerated: Intent): Intent {
    regenerated.(tag := prepared.tag, target := prepared.target)
  }

  // ---- Adoption ----

  /** The intent still describes this plan and this canonical source. */
  predicate IntentFits(u: Unicode, job: Job, plan: Plan, i: Intent, initial: seq<File>) {
    && i.format == plan.format
    && i.outputName == OutputName(u, job.name, plan.format)
    && i.outputSha.Some? && i.sourceSha == Some(job.sha) && i.gen != NoGen && i.gen == plan.gen
    && (i.sourceFileId == 0 || i.sourceFileId == job.canon.id)
    && (i.sourceFileName == "" || i.sourceFileName == job.canon.name)
    && (i.sourceFormat == "" || i.sourceFormat == job.main)
    && StableFingerprint(initial, plan.format) == ExpectedStable(plan, i, initial)
  }

  /** Rows of older releases lack the fingerprint; the listing at hand then stands in for it. */
  function ExpectedStable(plan: Plan, i: Intent, initial: seq<File>): seq<FileKey> {
    if i.stable.Some? then i.stable.value else StableFingerprint(initial, plan.format)
  }

  predicate CanonicalSole(job: Job, files: seq<File>) {
    |FilesFor(files, job.main)| == 1 && SameIdentity(FilesFor(files, job.main)[0], job.canon)
  }

  function UniqueIntentCandidate(files: seq<File>, format: Format, expected: string, canonicalId: nat): Option<File> {
    var found := FilesFor(files, format);
    if |found| == 1 && UniqueIds(files) && found[0].id != 0 && found[0].id != canonicalId && found[0].name == expected
    then Some(found[0]) else None
  }

  function AdoptedDerivedState(plan: Plan, candidate: File, i: Intent): Derived {
    Derived(plan.format, candidate.id, i.sourceSha, i.outputSha, i.gen, candidate.mtime)
  }

  /** What a listing must show before a candidate's bytes are looked at. */
  predicate ShowsCandidate(u: Unicode, job: Job, plan: Plan, expected: seq<FileKey>, files: seq<File>) {
    && UniqueIds(files) && CanonicalSole(job, files)
    && StableFingerprint(files, plan.format) == expected
    && UniqueIntentCandidate(files, plan.format, OutputName(u, job.name, plan.format), job.canon.id).Some?
  }

  predicate BytesFit(job: Job, plan: Plan, i: Intent, files: seq<File>) {
    && FilesFor(files, plan.format) != [] && Some(FilesFor(files, plan.format)[0].content) == i.outputSha
    && FilesFor(files, job.main) != [] && Some(FilesFor(files, job.main)[0].content) == i.sourceSha
  }

  ghost predicate Adoptable(u: Unicode, job: Job, plan: Plan, i: Intent, expected: seq<FileKey>, files: seq<File>) {
    ShowsCandidate(u, job, plan, expected, files) && BytesFit(job, plan, i, files)
  }

  method SeeCandidate(w: World, job: Job, plan: Plan, expected: seq<FileKey>) returns (ok: bool, seen: Option<Book>)
    modifies w
    ensures w.OnlyReads() && w.made == old(w.made)
    ensures seen.Some? ==>
              && ok && ShowsCandidate(w.u, job, plan, expected, seen.value.files)
              && w.h == Seen(old(w.h), seen.value)
    ensures old(w.Steady()) && seen.Some? ==> seen.value == w.server.book
    ensures old(w.Quiet()) ==> ok && (seen.Some? <==> ShowsCandidate(w.u, job, plan, expected, w.server.book.files))
  {
    var current := w.GetLibraryBook();
    if current.None? {
      return false, None;
    }
    if !ShowsCandidate(w.u, job, plan, expected, current.value.files) {
      return true, None;
    }
    return true, current;
  }

  /** The bytes of the candidate and of the canonical source. */
  method CheckBytes(w: World, job: Job, plan: Plan, i: Intent) returns (ok: bool, fit: bool)
    modifies w
    ensures w.OnlyReads() && w.made == old(w.made)
    ensures fit ==>
              && ok && i.outputSha.Some? && i.sourceSha.Some?
              && w.h.sights == old(w.h.sights) + [Fetched(plan.format, i.outputSha.value), Fetched(job.main, i.sourceSha.value)]
    ensures old(w.Steady()) && fit ==> BytesFit(job, plan, i, w.server.book.files)
    ensures old(w.Quiet()) && FilesFor(w.server.book.files, plan.format) != [] && FilesFor(w.server.book.files, job.main) != [] ==>
              ok && (fit <==> BytesFit(job, plan, i, w.server.book.files))
  {
    var output := w.Download(plan.format);
    if output.None? {
      return false, false;
    }
    if output != i.outputSha {
      return true, false;
    }
    var source := w.Download(job.main);
    if source.None? {
      return false, false;
    }
    return true, source == i.sourceSha;
  }

  /** The file of the format, in a listing that shows a candidate. */
  function Candidate(plan: Plan, book: Book): File
    requires FilesFor(book.files, plan.format) != []
  {
    FilesFor(book.files, plan.format)[0]
  }

  lemma AdoptionIsSound(u: Unicode, job: Job, plan: Plan, i: Intent, expected: seq<FileKey>, seen: Book, row: BookRow, before: seq<Sight>, after: seq<Sight>)
    requires ShowsCandidate(u, job, plan, expected, seen.files) && i.outputSha.Some?
    requires i.sourceSha == Some(job.sha) && i.gen == plan.gen && Marked(u, job, plan) && Based(row, job)
    requires after == before + [SawBook(seen)] + [Fetched(plan.format, i.outputSha.value), Fetched(job.main, job.sha)]
    ensures CommitSound(AdoptedDerivedState(plan, Candidate(plan, seen), i), row, after)
  {
    var at := |before|;
    assert after[at] == SawBook(seen) && after[at + 1] == Fetched(plan.format, i.outputSha.value) && after[at + 2] == Fetched(job.main, job.sha);
    assert EvidenceAt(AdoptedDerivedState(plan, Candidate(plan, seen), i), row, after, at, at + 1, at, at + 2);
  }

  /** Evidence does not get worse by seeing more. */
  lemma SoundStaysSound(d: Derived, row: BookRow, sights: seq<Sight>, more: seq<Sight>)
    requires CommitSound(d, row, sights) && sights <= more
    ensures CommitSound(d, row, more)
  {
    var i, j, m, k :| EvidenceAt(d, row, sights, i, j, m, k);
    assert EvidenceAt(d, row, more, i, j, m, k);
  }

  /** An adoption of this file now would be sound, if this run's canonical source is on record. */
  ghost predicate AdoptionBacked(u: Unicode, job: Job, plan: Plan, i: Intent, x: File, row: BookRow, sights: seq<Sight>) {
    Marked(u, job, plan) && Based(row, job) ==> CommitSound(AdoptedDerivedState(plan, x, i), row, sights)
  }

  lemma AdoptionStaysBacked(u: Unicode, job: Job, plan: Plan, i: Intent, x: File, row: BookRow, sights: seq<Sight>, more: seq<Sight>)
    requires AdoptionBacked(u, job, plan, i, x, row, sights) && sights <= more
    ensures AdoptionBacked(u, job, plan, i, x, row, more)
  {
    if Marked(u, job, plan) && Based(row, job) {
      SoundStaysSound(AdoptedDerivedState(plan, x, i), row, sights, more);
    }
  }

  method MatchCandidate(w: World, job: Job, plan: Plan, i: Intent, expected: seq<FileKey>) returns (ok: bool, seen: Option<Book>)
    requires i.sourceSha == Some(job.sha) && i.gen == plan.gen
    modifies w
    ensures w.OnlyReads() && w.made == old(w.made)
    ensures seen.Some? ==>
              && ok && ShowsCandidate(w.u, job, plan, expected, seen.value.files) && i.outputSha.Some?
              && w.h.sights == old(w.h.sights) + [SawBook(seen.value)] + [Fetched(plan.format, i.outputSha.value), Fetched(job.main, job.sha)]
              && AdoptionBacked(w.u, job, plan, i, Candidate(plan, seen.value), w.rows.Row(), w.h.sights)
    ensures old(w.Steady()) && seen.Some? ==> seen.value == w.server.book && BytesFit(job, plan, i, w.server.book.files)
    ensures old(w.Quiet()) ==> ok && (seen.Some? <==> Adoptable(w.u, job, plan, i, expected, w.server.book.files))
  {
    ghost var before := w.h.sights;
    ok, seen := SeeCandidate(w, job, plan, expected);
    if seen.None? {
      return;
    }
    var fit;
    ok, fit := CheckBytes(w, job, plan, i);
    if !fit {
      return ok, None;
    }
    if Marked(w.u, job, plan) && Based(w.rows.Row(), job) {
      AdoptionIsSound(w.u, job, plan, i, expected, seen.value, w.rows.Row(), before, w.h.sights);
    }
  }

  /** The candidate was listed, its bytes and the canonical bytes were fetched, and then the same
      candidate was listed again among the same files. */
  ghost predicate SawCandidateTwice(u: Unicode, job: Job, plan: Plan, i: Intent, expected: seq<FileKey>, candidate: File, latest: Book,
                                    before: seq<Sight>, after: seq<Sight>) {
    var n := |before|;
    && |after| == n + 4 && before <= after && after[n].SawBook? && after[n + 3] == SawBook(latest)
    && ShowsCandidate(u, job, plan, expected, after[n].book.files) && ShowsCandidate(u, job, plan, expected, latest.files)
    && FilesFor(after[n].book.files, plan.format) == [candidate]
    && |FilesFor(latest.files, plan.format)| == 1 && FilesFor(latest.files, plan.format)[0].id == candidate.id
    && SameInventory(latest.files, after[n].book.files)
    && i.outputSha.Some? && after[n + 1] == Fetched(plan.format, i.outputSha.value) && after[n + 2] == Fetched(job.main, job.sha)
  }

  lemma SeenAgain(u: Unicode, job: Job, plan: Plan, i: Intent, expected: seq<FileKey>, current: Book, latest: Book, before: seq<Sight>, after: seq<Sight>)
    requires ShowsCandidate(u, job, plan, expected, current.files) && ShowsCandidate(u, job, plan, expected, latest.files) && i.outputSha.Some?
    requires after == before + [SawBook(current)] + [Fetched(plan.format, i.outputSha.value), Fetched(job.main, job.sha)] + [SawBook(latest)]
    requires Candidate(plan, latest).id == Candidate(plan, current).id && SameInventory(latest.files, current.files)
    ensures SawCandidateTwice(u, job, plan, i, expected, Candidate(plan, current), latest, before, after)
  {
    assert FilesFor(current.files, plan.format) == [Candidate(plan, current)];
  }

  /** Adopts only a candidate whose evidence still agrees with the intent; changes nothing. */
  method RecoverableIntentCandidate(w: World, job: Job, initial: Book, plan: Plan, i: Intent)
    returns (ok: bool, found: Option<(File, Book)>)
    modifies w
    ensures w.OnlyReads() && w.made == old(w.made)
    ensures found.Some? ==>
              && ok && IntentFits(w.u, job, plan, i, initial.files)
              && found.value.1.tags <= w.h.observed
              && SawCandidateTwice(w.u, job, plan, i, ExpectedStable(plan, i, initial.files), found.value.0, found.value.1, old(w.h.sights), w.h.sights)
              && AdoptionBacked(w.u, job, plan, i, found.value.0, w.rows.Row(), w.h.sights)
    ensures old(w.Steady()) && found.Some? ==>
              && found.value.1 == w.server.book
              && Adoptable(w.u, job, plan, i, ExpectedStable(plan, i, initial.files), w.server.book.files)
              && FilesFor(w.server.book.files, plan.format)[0] == found.value.0
    ensures old(w.Quiet()) ==> ok
    ensures (old(w.Quiet()) && IntentFits(w.u, job, plan, i, initial.files)
            && Adoptable(w.u, job, plan, i, ExpectedStable(plan, i, initial.files), w.server.book.files)) ==> found.Some?
  {
    found := None;
    if !IntentFits(w.u, job, plan, i, initial.files) {
      return true, None;
    }
    var expected := ExpectedStable(plan, i, initial.files);
    ghost var before := w.h.sights;
    var current, latest;
    ok, current := MatchCandidate(w, job, plan, i, expected);
    if current.None? {
      return;
    }
    var candidate := Candidate(plan, current.value);
    ghost var sofar := w.h.sights;
    ok, latest := SeeCandidate(w, job, plan, expected);
    if latest.None? {
      return;
    }
    AdoptionStaysBacked(w.u, job, plan, i, candidate, w.rows.Row(), sofar, w.h.sights);
    var same := SameFileInventory(latest.value.files, current.value.files);
    if same && Candidate(plan, latest.value).id == candidate.id {
      SeenAgain(w.u, job, plan, i, expected, current.value, latest.value, before, w.h.sights);
      found := Some((candidate, latest.value));
    }
  }

  // ---- Replacement preflight ----

  predicate ValidateReplacementBook(job: Job, current: Book, target: Format, before: File, targetPresent: bool, authorized: bool) {
    && UniqueIds(current.files)
    && CanonicalSole(job, current.files)
    && (authorized || ReplacementAllowed(job.cfg, current.tags, job.force))
    && var targets := FilesFor(current.files, target);
       if targetPresent then |targets| == 1 && SameIdentity(targets[0], before) && targets[0].id != job.canon.id
       else targets == []
  }

  /** Downloads the canonical source again and compares it. */
  method VerifyCanonicalUnchanged(w: World, job: Job) returns (ok: bool)
    modifies w
    ensures w.OnlyReads() && w.made == old(w.made)
    ensures ok ==> !w.crashed && w.h == old(w.h).(sights := old(w.h.sights) + [Fetched(job.main, job.sha)])
    ensures old(w.Steady()) && ok ==> FilesFor(w.server.book.files, job.main) != [] && FilesFor(w.server.book.files, job.main)[0].content == job.sha
    ensures old(w.Quiet()) && FilesFor(w.server.book.files, job.main) != [] && FilesFor(w.server.book.files, job.main)[0].content == job.sha ==> ok
  {
    var sha := w.Download(job.main);
    return sha == Some(job.sha);
  }

  /** What the preflight accepts when nobody interferes. */
  ghost predicate Replaceable(job: Job, book: Book, target: Format, before: File, authorized: bool) {
    && ValidateReplacementBook(job, book, target, before, true, authorized)
    && FilesFor(book.files, job.main)[0].content == job.sha
  }

  /** The last four things seen: an acceptable listing, the canonical bytes, the same files in an
      acceptable listing again, and the canonical bytes again. */
  ghost predicate SawPreflight(job: Job, target: Format, before: File, authorized: bool, sights: seq<Sight>) {
    var n := |sights|;
    && n >= 4 && sights[n - 4].SawBook? && sights[n - 2].SawBook?
    && ValidateReplacementBook(job, sights[n - 4].book, target, before, true, authorized)
    && ValidateReplacementBook(job, sights[n - 2].book, target, before, true, authorized)
    && SameInventory(sights[n - 2].book.files, sights[n - 4].book.files)
    && sights[n - 3] == Fetched(job.main, job.sha) && sights[n - 1] == Fetched(job.main, job.sha)
  }

  /** One look: the listing, and then the canonical bytes. */
  method LookAtTarget(w: World, job: Job, target: Format, before: File, authorized: bool, expected: Option<Book>) returns (seen: Option<Book>)
    modifies w
    ensures w.OnlyReads() && w.made == old(w.made)
    ensures seen.Some? ==>
              && !w.crashed && ValidateReplacementBook(job, seen.value, target, before, true, authorized) && seen.value.tags <= w.h.observed
              && (expected.Some? ==> SameInventory(seen.value.files, expected.value.files))
              && w.h.sights == old(w.h.sights) + [SawBook(seen.value), Fetched(job.main, job.sha)]
    ensures old(w.Steady()) && seen.Some? ==> seen.value == w.server.book && Replaceable(job, w.server.book, target, before, authorized)
    ensures (old(w.Quiet()) && (expected.Some? ==> SameInventory(w.server.book.files, expected.value.files))) ==>
              (seen.Some? <==> Replaceable(job, w.server.book, target, before, authorized))
  {
    var current := w.GetLibraryBook();
    if current.None? {
      return None;
    }
    var same := true;
    if expected.Some? {
      same := SameFileInventory(current.value.files, expected.value.files);
    }
    if !same || !ValidateReplacementBook(job, current.value, target, before, true, authorized) {
      return None;
    }
    var intact := VerifyCanonicalUnchanged(w, job);
    return if intact then current else None;
  }

  /** Whatever the others do meanwhile, the book is accepted only on two complete looks at it. */
  method RevalidateReplacementInventory(w: World, job: Job, target: Format, before: File, authorized: bool) returns (found: Option<Book>)
    modifies w
    ensures w.OnlyReads() && w.made == old(w.made)
    ensures found.Some? ==>
              && !w.crashed && found.value.tags <= w.h.observed
              && SawPreflight(job, target, before, authorized, w.h.sights) && w.h.sights[|w.h.sights| - 2] == SawBook(found.value)
    ensures old(w.Steady()) && found.Some? ==> found.value == w.server.book && Replaceable(job, w.server.book, target, before, authorized)
    ensures old(w.Quiet()) ==> (found.Some? <==> Replaceable(job, w.server.book, target, before, authorized))
  {
    var current := LookAtTarget(w, job, target, before, authorized, None);
    if current.None? {
      return None;
    }
    found := LookAtTarget(w, job, target, before, authorized, current);
  }

  // ---- Verification of an upload ----

  predicate ValidateCanonicalBook(job: Job, current: Book) {
    UniqueIds(current.files) && CanonicalSole(job, current.files)
  }

  /** One look at the canonical source: in a listing with the expected files, and its bytes. */
  method LookAtCanonical(w: World, job: Job, expected: Book) returns (seen: Option<Book>)
    modifies w
    ensures w.OnlyReads() && w.made == old(w.made)
    ensures seen.Some? ==>
              && !w.crashed && ValidateCanonicalBook(job, seen.value) && SameInventory(seen.value.files, expected.files)
              && w.h.sights == old(w.h.sights) + [SawBook(seen.value), Fetched(job.main, job.sha)]
    ensures old(w.Steady()) && seen.Some? ==>
              && seen.value == w.server.book && ValidateCanonicalBook(job, w.server.book)
              && FilesFor(w.server.book.files, job.main)[0].content == job.sha
    ensures (old(w.Quiet()) && SameInventory(w.server.book.files, expected.files) && ValidateCanonicalBook(job, w.server.book)
            && FilesFor(w.server.book.files, job.main)[0].content == job.sha) ==> seen.Some?
  {
    var current := w.GetLibraryBook();
    if current.None? {
      return None;
    }
    var same := SameFileInventory(current.value.files, expected.files);
    if !same || !ValidateCanonicalBook(job, current.value) {
      return None;
    }
    var intact := VerifyCanonicalUnchanged(w, job);
    return if intact then current else None;
  }

  /** Two complete looks at the canonical source: each an acceptable listing and then the canonical
      bytes, the first listing with the expected files, the second with the same again. */
  ghost predicate LookedTwice(job: Job, expected: Book, before: seq<Sight>, after: seq<Sight>) {
    var n := |before|;
    && |after| == n + 4 && before <= after && after[n].SawBook? && after[n + 2].SawBook?
    && ValidateCanonicalBook(job, after[n].book) && SameInventory(after[n].book.files, expected.files)
    && ValidateCanonicalBook(job, after[n + 2].book) && SameInventory(after[n + 2].book.files, after[n].book.files)
    && after[n + 1] == Fetched(job.main, job.sha) && after[n + 3] == Fetched(job.main, job.sha)
  }

  /** The canonical source is the same before and after, in the listing and in its bytes. */
  method RevalidateCanonicalSource(w: World, job: Job, expected: Book) returns (ok: bool, ghost at: nat)
    modifies w
    ensures w.OnlyReads() && w.made == old(w.made)
    ensures ok ==>
              && !w.crashed && |old(w.h.sights)| <= at < |w.h.sights| - 1
              && w.h.sights[at].SawBook? && ValidateCanonicalBook(job, w.h.sights[at].book)
              && SameInventory(w.h.sights[at].book.files, expected.files)
              && w.h.sights[at + 1] == Fetched(job.main, job.sha)
              && LookedTwice(job, expected, old(w.h.sights), w.h.sights)
    ensures old(w.Steady()) && ok ==>
              && ValidateCanonicalBook(job, w.server.book)
              && FilesFor(w.server.book.files, job.main)[0].content == job.sha
    ensures (old(w.Quiet()) && expected == w.server.book && ValidateCanonicalBook(job, w.server.book)
            && FilesFor(w.server.book.files, job.main)[0].content == job.sha) ==> ok
  {
    at := |w.h.sights|;
    ok := w.LocalCheck();
    if !ok {
      return;
    }
    var current := LookAtCanonical(w, job, expected);
    if current.None? {
      return false, at;
    }
    ghost var sofar := w.h.sights;
    assert sofar[at] == SawBook(current.value) && sofar[at + 1] == Fetched(job.main, job.sha);
    var latest := LookAtCanonical(w, job, current.value);
    if latest.None? {
      return false, at;
    }
    assert sofar <= w.h.sights;
    ok := w.LocalCheck();
  }

  function FindUploadedFile(files: seq<File>, format: Format, name: string): Option<File> {
    var found := FilesFor(files, format);
    if |found| == 1 && found[0].name == name then Some(found[0]) else None
  }

  predicate CountedOnce(files: seq<File>, id: nat) {
    exists i :: 0 <= i < |files| && files[i].id == id && forall j :: 0 <= j < |files| && files[j].id == id ==> j == i
  }

  /** An id that is new, and bytes that hash to what was uploaded. */
  method VerifyUploadedFile(w: World, before: Option<File>, after: File, output: Sha, inventory: seq<File>, canonicalId: nat) returns (ok: bool)
    modifies w
    ensures w.OnlyReads() && w.made == old(w.made)
    ensures ok ==>
              && !w.crashed && after.id != 0 && after.id != canonicalId && (before.Some? ==> after.id != before.value.id)
              && w.h == old(w.h).(sights := old(w.h.sights) + [Fetched(after.format, output)])
    ensures old(w.Steady()) && ok ==> FilesFor(w.server.book.files, after.format) != [] && FilesFor(w.server.book.files, after.format)[0].content == output
    ensures (old(w.Quiet()) && after.id != 0 && after.id != canonicalId && (before.Some? ==> after.id != before.value.id)
            && CountedOnce(inventory, after.id)
            && FilesFor(w.server.book.files, after.format) != [] && FilesFor(w.server.book.files, after.format)[0].content == output) ==> ok
  {
    if after.id == 0 || (before.Some? && after.id == before.value.id) || after.id == canonicalId || !CountedOnce(inventory, after.id) {
      return false;
    }
    var sha := w.Download(after.format);
    return sha == Some(output);
  }
}
