/** Everything one book's reconciliation acts on: the durable rows, the server, and an
    environment that decides how each request ends. A run is followed by its effects only,
    so a crash is modelled as freezing them: from then on nothing changes and every call fails. */
module World {
  import opened Inventory
  import opened Checkpoints
  import ArtifactName

  datatype Server = Server(book: Book, nextId: nat)

  /** Done and reported, failed without effect, failed after taking effect, or the process died. */
  datatype Fate = Fine | Lost | Ambiguous | Crash

  /** How one request ends, and what somebody else did to the book just before it. */
  datatype Turn = Turn(fate: Fate, change: Option<Server>)

  /** What the server adds to an uploaded file. */
  datatype Stamp = Stamp(kind: string, sizeKB: int, advertised: Option<Sha>, mtime: Option<int>)

  // ---- What a run is told to do ----

  datatype Config = Config(ignoreTag: string, failedTag: string, replacementTag: string, replacePolicy: bool)

  /** `main` is the main format of the library's policy, if it has one. */
  datatype Orders = Orders(cfg: Config, force: bool, main: Option<Format>)

  predicate HasTag(tags: set<string>, wanted: string) { wanted != "" && wanted in tags }

  /** The ignore tag wins over every authorization. */
  predicate ReplacementAllowed(cfg: Config, tags: set<string>, force: bool) {
    !HasTag(tags, cfg.ignoreTag) && (cfg.replacePolicy || HasTag(tags, cfg.replacementTag) || force)
  }

  // ---- History, kept only to state properties of whole runs ----

  datatype Sight = SawBook(book: Book) | Fetched(format: Format, sha: Sha)

  /** A replacement was prepared: in which run, for which format and target, under which tag, what
      that run had seen by then, and the rows just before. */
  datatype Grant = Grant(run: nat, format: Format, target: nat, tag: string, sights: seq<Sight>, rows: Rows)

  /** A delete was sent: in which run, for which id, under which rows, and the formats of the
      files that vanished from the server with it. */
  datatype DeleteRecord = DeleteRecord(run: nat, id: nat, rows: Rows, gone: set<Format>)

  /** An upload was sent: in which run, of what, under which rows, after which listing. */
  datatype UploadRecord = UploadRecord(run: nat, format: Format, name: string, content: Sha, rows: Rows, listed: Option<Book>)

  /** A row was committed: in which run, under which canonical row, after what the run had seen by then. */
  datatype CommitRecord = CommitRecord(run: nat, row: Derived, canonical: BookRow, sights: seq<Sight>)

  /** A tag was removed under these rows, by a process with this failure tag. */
  datatype TagRemoval = TagRemoval(tag: string, failureTag: string, rows: Rows)

  /** In this run this listing showed the replacement tag that the run was configured with. */
  datatype TagSight = TagSight(run: nat, book: Book)

  /** The orders of all runs so far; what the latest run has seen (all of it, its last listing,
      every tag), and the last listing before it began; the replacement tags that runs saw on the
      book while configured with them, and where; what was done; the formats that are missing
      because of a delete, going by the rows (removed) and by the files that vanished; the tags
      that commits used, those of the latest run apart, and the failure tags of all processes, the
      latest one's first. */
  datatype History = History(orders: seq<Orders>, sights: seq<Sight>, listed: Option<Book>, prior: Option<Book>, observed: set<string>,
                             usable: set<string>, shown: seq<TagSight>,
                             grants: seq<Grant>, deletes: seq<DeleteRecord>, uploads: seq<UploadRecord>, commits: seq<CommitRecord>,
                             removals: seq<TagRemoval>, removed: set<Format>, vanished: set<Format>, spent: set<string>, used: set<string>,
                             failureTag: string, failureTags: set<string>)

  ghost function LatestRun(orders: seq<Orders>): nat { if orders == [] then 0 else |orders| - 1 }

  /** The replacement tag of the latest run. */
  ghost function WantedTag(orders: seq<Orders>): string { if orders == [] then "" else orders[|orders| - 1].cfg.replacementTag }

  const NO_HISTORY := History([], [], None, None, {}, {}, [], [], [], [], [], [], {}, {}, {}, {}, "", {})

  // ---- Why a replacement may be prepared ----

  /** The listing showed one file of the format, the target, and one canonical file, another one. */
  ghost predicate ShowsBoth(s: Sight, g: Grant) {
    && s.SawBook? && UniqueIds(s.book.files)
    && var found, canonical := FilesFor(s.book.files, g.format), FilesFor(s.book.files, g.rows.Row().mainFormat);
    && |found| == 1 && found[0].id == g.target && |canonical| == 1 && canonical[0].id == g.rows.Row().canonicalFileId
    && found[0].id != canonical[0].id
  }

  /** The last the run looked at: the listing, the canonical bytes, and both once more. */
  ghost predicate Preflighted(g: Grant) {
    var n, row := |g.sights|, g.rows.Row();
    && n >= 4 && row.canonicalSha.Some?
    && ShowsBoth(g.sights[n - 4], g) && ShowsBoth(g.sights[n - 2], g)
    && SameInventory(g.sights[n - 2].book.files, g.sights[n - 4].book.files)
    && g.sights[n - 3] == Fetched(row.mainFormat, row.canonicalSha.value)
    && g.sights[n - 1] == Fetched(row.mainFormat, row.canonicalSha.value)
  }

  /** These orders allow it for a book with these tags. */
  ghost predicate Permitted(o: Orders, tags: set<string>, usable: set<string>) {
    && !HasTag(tags, o.cfg.ignoreTag)
    && (o.force || o.cfg.replacePolicy || (HasTag(tags, o.cfg.replacementTag) && o.cfg.replacementTag in usable))
  }

  /** The run's own orders allow it for the listing just seen, or a tag is on record that some run
      was configured with and saw on the book. */
  ghost predicate Original(g: Grant, orders: seq<Orders>, usable: set<string>) {
    || (g.rows.Row().ipTag != "" && g.rows.Row().ipTag in usable)
    || (g.run < |orders| && |g.sights| >= 2 && g.sights[|g.sights| - 2].SawBook?
        && Permitted(orders[g.run], g.sights[|g.sights| - 2].book.tags, usable))
  }

  /** The same target was on record already. */
  ghost predicate Renewal(g: Grant) { Owns(g.rows, g.format) && g.rows.intents[g.format].target.id == g.target }

  /** What only a tag allows is recorded under that tag: the one on record, or else the run's own. */
  ghost predicate TaggedRightly(g: Grant, o: Orders) {
    && (!o.force && !o.cfg.replacePolicy && !Renewal(g) ==> g.tag != "" || g.rows.Row().ipTag != "")
    && (g.tag != "" ==> g.tag == if g.rows.Row().ipTag != "" then g.rows.Row().ipTag else o.cfg.replacementTag)
  }

  /** What may be the upload of an unsettled intent is replaced only by force. */
  ghost predicate SparesUnsettled(g: Grant, o: Orders) { Unsettled(g.rows, g.format) ==> o.force }

  ghost predicate GrantOK(g: Grant, orders: seq<Orders>, usable: set<string>) {
    Preflighted(g) && g.run < |orders| && (Original(g, orders, usable) || Renewal(g))
    && TaggedRightly(g, orders[g.run]) && SparesUnsettled(g, orders[g.run])
  }

  /** Some grant for this target does not rest on another one. */
  ghost predicate Granted(h: History, f: Format, target: nat) {
    exists g :: g in h.grants && g.format == f && g.target == target && Original(g, h.orders, h.usable)
  }

  /** The run itself went through the preflight for this target. */
  ghost predicate Cleared(grants: seq<Grant>, run: nat, f: Format, target: nat) {
    exists g :: g in grants && g.run == run && g.format == f && g.target == target
  }

  // ---- What each effect must rest on ----

  ghost function OwnersOf(rows: Rows, id: nat): set<Format> {
    set f | f in rows.intents && Owns(rows, f) && rows.intents[f].target.id == id
  }

  /** A delete goes only to the recorded target of the recorded owner, which this run has just
      looked at, and never to the canonical file on record. */
  ghost predicate DeleteOK(d: DeleteRecord, h: History) {
    && d.id != 0 && d.rows.Row().inProgress && d.id != d.rows.Row().canonicalFileId
    && exists f :: f in OwnersOf(d.rows, d.id) && Granted(h, f, d.id) && Cleared(h.grants, d.run, f, d.id)
  }

  ghost predicate ListedNone(listed: Option<Book>, format: Format) {
    listed.Some? && FilesFor(listed.value.files, format) == []
  }

  /** A derivative is uploaded behind a durable intent that names it, and in place of a file that
      the service may have deleted only after a look at the book that shows it gone. Otherwise it
      is the main file of the library, of which the last listing had none. */
  ghost predicate UploadOK(r: UploadRecord, orders: seq<Orders>) {
    || (r.format in r.rows.intents
        && r.rows.intents[r.format].outputSha == Some(r.content) && r.rows.intents[r.format].outputName == r.name
        && (Owns(r.rows, r.format) ==> ListedNone(r.listed, r.format)))
    || (r.run < |orders| && orders[r.run].main == Some(r.format) && ListedNone(r.listed, r.format))
  }

  /** The book showed exactly one file of the committed format, the right one. */
  ghost predicate SawSole(s: Sight, d: Derived, b: BookRow) {
    && s.SawBook? && d.gen.V1?
    && var found := FilesFor(s.book.files, d.format);
    && |found| == 1 && found[0].id == d.fileId && found[0].name == d.gen.name
    && found[0].id != 0 && found[0].id != b.canonicalFileId
  }

  ghost predicate SawCanonical(s: Sight, b: BookRow) {
    && s.SawBook? && UniqueIds(s.book.files)
    && var found := FilesFor(s.book.files, b.mainFormat);
    && |found| == 1 && found[0].id == b.canonicalFileId
  }

  /** Seen at i, its bytes fetched afterwards at j; the same listing with its canonical file seen
      at m, the canonical bytes fetched afterwards at k. */
  ghost predicate EvidenceAt(d: Derived, b: BookRow, sights: seq<Sight>, i: nat, j: nat, m: nat, k: nat) {
    && i < j < |sights| && i <= m < k < |sights|
    && SawSole(sights[i], d, b)
    && SawCanonical(sights[m], b) && SameInventory(sights[m].book.files, sights[i].book.files)
    && d.outputSha.Some? && sights[j] == Fetched(d.format, d.outputSha.value)
    && d.sourceSha.Some? && sights[k] == Fetched(b.mainFormat, d.sourceSha.value)
  }

  /** The row names the canonical content on record, and everything in it was seen. */
  ghost predicate CommitSound(d: Derived, b: BookRow, sights: seq<Sight>) {
    && d.sourceSha == b.canonicalSha
    && d.gen.V1? && d.gen.content == d.sourceSha && d.gen.format == d.format
    && exists i, j, m, k :: EvidenceAt(d, b, sights, i, j, m, k)
  }

  /** A sound commit, by a run whose library has the canonical row's main format. */
  ghost predicate CommitRecordOK(c: CommitRecord, orders: seq<Orders>) {
    && c.run < |orders| && orders[c.run].main == Some(c.canonical.mainFormat)
    && CommitSound(c.row, c.canonical, c.sights)
  }

  ghost predicate Backed(commits: seq<CommitRecord>, row: Derived) {
    exists c :: c in commits && c.row == row
  }

  /** A tag goes because it is the failure tag, or else only while its pending marker is durable
      and no phase is open, and after a commit that used it. */
  ghost predicate RemovalOK(r: TagRemoval, spent: set<string>, failureTags: set<string>) {
    || (r.tag == r.failureTag && r.tag in failureTags)
    || (r.rows.Row().pendingTag == r.tag && !r.rows.Row().inProgress && (forall f :: !Owns(r.rows, f)) && r.tag in spent)
  }

  /** Every tag a run saw counts, if the run was configured with it. */
  ghost predicate TagsOK(orders: seq<Orders>, sights: seq<Sight>, observed: set<string>, usable: set<string>) {
    && (HasTag(observed, WantedTag(orders)) ==> WantedTag(orders) in usable)
    && (forall s :: s in sights && s.SawBook? ==> s.book.tags <= observed)
  }

  /** A listing of a run configured with this tag showed it. */
  ghost predicate Shown(orders: seq<Orders>, shown: seq<TagSight>, tag: string) {
    exists s :: s in shown && s.run < |orders| && orders[s.run].cfg.replacementTag == tag && HasTag(s.book.tags, tag)
  }

  /** A delete took away a file of this format under an id that was recorded for another one. */
  ghost predicate Swapped(deletes: seq<DeleteRecord>, f: Format) {
    exists d :: d in deletes && f in d.gone && f !in OwnersOf(d.rows, d.id)
  }

  /** Every usable tag was shown to a run that was configured with it; and what vanished is what
      the rows say was removed, unless a file had another format than its id was recorded for. */
  ghost predicate TracesOK(h: History) {
    && (forall t {:trigger Shown(h.orders, h.shown, t)} :: t in h.usable ==> Shown(h.orders, h.shown, t))
    && (forall f {:trigger Swapped(h.deletes, f)} :: f in h.vanished ==> f in h.removed || Swapped(h.deletes, f))
  }

  ghost predicate RowTagsOK(rows: Rows, usable: set<string>, spent: set<string>) {
    && (rows.Row().ipTag != "" ==> rows.Row().ipTag in usable)
    && (rows.Row().pendingTag != "" ==> rows.Row().pendingTag in usable && rows.Row().pendingTag in spent)
    && (rows.Row().ipTag != "" && !rows.Row().inProgress ==> rows.Row().ipTag in spent)
    && (spent != {} ==> rows.derived != map[])
  }

  ghost predicate GrantsOK(h: History) {
    forall g {:trigger GrantOK(g, h.orders, h.usable)} :: g in h.grants ==> GrantOK(g, h.orders, h.usable) && Granted(h, g.format, g.target)
  }

  ghost predicate DeletesOK(h: History) {
    forall d {:trigger DeleteOK(d, h)} :: d in h.deletes ==> DeleteOK(d, h)
  }

  ghost predicate RemovalsOK(h: History) {
    forall r {:trigger RemovalOK(r, h.spent, h.failureTags)} :: r in h.removals ==> RemovalOK(r, h.spent, h.failureTags)
  }

  ghost predicate EffectsOK(h: History) {
    && GrantsOK(h) && DeletesOK(h) && RemovalsOK(h)
    && (forall r {:trigger UploadOK(r, h.orders)} :: r in h.uploads ==> UploadOK(r, h.orders))
    && (forall c {:trigger CommitRecordOK(c, h.orders)} :: c in h.commits ==> CommitRecordOK(c, h.orders))
  }

  ghost predicate HistoryOK(rows: Rows, h: History) {
    && TagsOK(h.orders, h.sights, h.observed, h.usable) && RowTagsOK(rows, h.usable, h.spent) && EffectsOK(h) && TracesOK(h)
    && (forall f {:trigger Granted(h, f, rows.intents[f].target.id)} :: Owns(rows, f) ==> Granted(h, f, rows.intents[f].target.id))
    && (forall f {:trigger Backed(h.commits, rows.derived[f])} :: f in rows.derived ==> rows.derived[f].format == f && Backed(h.commits, rows.derived[f]))
    && (forall f :: f in h.removed ==> Owns(rows, f))
    && h.failureTag in h.failureTags + {""}
  }

  ghost predicate Good(rows: Rows, h: History) { RowsOK(rows) && HistoryOK(rows, h) }

  // ---- The history only grows ----

  /** The same grants, orders and usable tags, or more. */
  ghost predicate Grows(a: History, b: History) {
    && a.orders <= b.orders && a.usable <= b.usable && a.spent <= b.spent && a.failureTags <= b.failureTags
    && a.grants <= b.grants
  }

  lemma StillGranted(a: History, b: History, f: Format, target: nat)
    requires Grows(a, b) && Granted(a, f, target)
    ensures Granted(b, f, target)
  {
    var g :| g in a.grants && g.format == f && g.target == target && Original(g, a.orders, a.usable);
    assert g in b.grants && Original(g, b.orders, b.usable);
  }

  lemma StillCleared(a: seq<Grant>, b: seq<Grant>, run: nat, f: Format, target: nat)
    requires a <= b && Cleared(a, run, f, target)
    ensures Cleared(b, run, f, target)
  {
    var g :| g in a && g.run == run && g.format == f && g.target == target;
    assert g in b;
  }

  lemma StillDeleteOK(a: History, b: History, d: DeleteRecord)
    requires Grows(a, b) && DeleteOK(d, a)
    ensures DeleteOK(d, b)
  {
    var f :| f in OwnersOf(d.rows, d.id) && Granted(a, f, d.id) && Cleared(a.grants, d.run, f, d.id);
    StillGranted(a, b, f, d.id);
    StillCleared(a.grants, b.grants, d.run, f, d.id);
  }

  lemma StillBacked(a: seq<CommitRecord>, b: seq<CommitRecord>, row: Derived)
    requires a <= b && Backed(a, row)
    ensures Backed(b, row)
  {
    var c :| c in a && c.row == row;
    assert c in b;
  }

  lemma GrantsStayOK(a: History, b: History)
    requires Grows(a, b) && GrantsOK(a) && a.grants == b.grants
    ensures GrantsOK(b)
  {
    forall g | g in b.grants ensures GrantOK(g, b.orders, b.usable) && Granted(b, g.format, g.target) {
      assert GrantOK(g, a.orders, a.usable);
      StillGranted(a, b, g.format, g.target);
    }
  }

  lemma DeletesStayOK(a: History, b: History)
    requires Grows(a, b) && DeletesOK(a) && a.deletes == b.deletes
    ensures DeletesOK(b)
  {
    forall d | d in b.deletes ensures DeleteOK(d, b) {
      assert DeleteOK(d, a);
      StillDeleteOK(a, b, d);
    }
  }

  /** What was done stays accounted for. */
  lemma EffectsStayOK(a: History, b: History)
    requires Grows(a, b) && EffectsOK(a) && a.grants == b.grants && a.deletes == b.deletes
    requires forall r :: r in b.uploads ==> UploadOK(r, b.orders)
    requires forall c :: c in b.commits ==> CommitRecordOK(c, b.orders)
    requires forall r :: r in b.removals ==> RemovalOK(r, b.spent, b.failureTags)
    ensures EffectsOK(b)
  {
    GrantsStayOK(a, b);
    DeletesStayOK(a, b);
  }

  lemma HistoryStaysOK(rows: Rows, a: History, b: History)
    requires HistoryOK(rows, a) && Grows(a, b) && EffectsOK(b) && TracesOK(b) && a.commits <= b.commits
    requires a.spent == b.spent && TagsOK(b.orders, b.sights, b.observed, b.usable) && b.failureTag in b.failureTags + {""}
    requires forall f :: f in b.removed ==> Owns(rows, f)
    ensures HistoryOK(rows, b)
  {
    forall f | Owns(rows, f) ensures Granted(b, f, rows.intents[f].target.id) {
      assert Granted(a, f, rows.intents[f].target.id);
      StillGranted(a, b, f, rows.intents[f].target.id);
    }
    forall f | f in rows.derived ensures rows.derived[f].format == f && Backed(b.commits, rows.derived[f]) {
      assert Backed(a.commits, rows.derived[f]);
      StillBacked(a.commits, b.commits, rows.derived[f]);
    }
  }

  lemma GrowingKeepsGood(rows: Rows, a: History, b: History)
    requires Good(rows, a) && Grows(a, b) && TagsOK(b.orders, b.sights, b.observed, b.usable) && b.failureTag in b.failureTags + {""}
    requires a.grants == b.grants && a.deletes == b.deletes && a.uploads == b.uploads && a.commits == b.commits && a.removals == b.removals
    requires a.removed == b.removed && a.spent == b.spent && TracesOK(b)
    ensures Good(rows, b)
  {
    forall c | c in b.commits ensures CommitRecordOK(c, b.orders) {
      assert CommitRecordOK(c, a.orders);
    }
    forall r | r in b.uploads ensures UploadOK(r, b.orders) {
      assert UploadOK(r, a.orders);
    }
    forall r | r in b.removals ensures RemovalOK(r, b.spent, b.failureTags) {
      assert RemovalOK(r, a.spent, a.failureTags);
    }
    EffectsStayOK(a, b);
    HistoryStaysOK(rows, a, b);
  }

  /** The second history only saw more. */
  ghost predicate Sees(h0: History, h1: History) {
    && h0.observed <= h1.observed && h0.usable <= h1.usable && h0.sights <= h1.sights
    && h1 == h0.(observed := h1.observed, usable := h1.usable, shown := h1.shown, sights := h1.sights, listed := h1.listed)
  }

  /** The history after a listing. */
  ghost function Seen(h: History, book: Book): History {
    var wanted := WantedTag(h.orders);
    h.(sights := h.sights + [SawBook(book)], listed := Some(book), observed := h.observed + book.tags,
       usable := if HasTag(book.tags, wanted) then h.usable + {wanted} else h.usable,
       shown := if HasTag(book.tags, wanted) then h.shown + [TagSight(LatestRun(h.orders), book)] else h.shown)
  }

  lemma TracesStayOK(a: History, b: History)
    requires TracesOK(a) && a.orders <= b.orders && a.shown <= b.shown && a.usable == b.usable
    requires a.deletes == b.deletes && a.vanished == b.vanished && a.removed == b.removed
    ensures TracesOK(b)
  {
    forall t | t in b.usable ensures Shown(b.orders, b.shown, t) {
      assert Shown(a.orders, a.shown, t);
      var s :| s in a.shown && s.run < |a.orders| && a.orders[s.run].cfg.replacementTag == t && HasTag(s.book.tags, t);
      assert s in b.shown;
    }
  }

  lemma SeenIsTraced(h: History, book: Book)
    requires TracesOK(h)
    ensures TracesOK(Seen(h, book))
  {
    var b, wanted := Seen(h, book), WantedTag(h.orders);
    TracesStayOK(h, b.(usable := h.usable));
    if HasTag(book.tags, wanted) {
      assert TagSight(LatestRun(h.orders), book) in b.shown;
      assert Shown(b.orders, b.shown, wanted);
    }
    forall t | t in b.usable ensures Shown(b.orders, b.shown, t) {
      if t in h.usable { assert Shown(b.(usable := h.usable).orders, b.(usable := h.usable).shown, t); }
    }
  }

  lemma SeenKeepsGood(rows: Rows, h: History, book: Book)
    requires Good(rows, h)
    ensures Good(rows, Seen(h, book))
  {
    SeenIsTraced(h, book);
    GrowingKeepsGood(rows, h, Seen(h, book));
  }

  ghost function Began(h: History, o: Orders): History {
    h.(orders := h.orders + [o], sights := [], listed := None, prior := h.listed, observed := {}, used := {},
       failureTag := o.cfg.failedTag, failureTags := h.failureTags + {o.cfg.failedTag})
  }

  /** A commit that closes a phase has used the tag that was recorded for it. */
  ghost function Spent(before: Rows, after: Rows, h: History): History {
    if before.Row().inProgress then h.(spent := h.spent + {after.Row().ipTag}, used := h.used + ({after.Row().ipTag} - {""})) else h
  }

  /** The history after a delete for this id that took these formats away, if it was done. */
  ghost function Deleting(h: History, id: nat, rows: Rows, did: bool, gone: set<Format>): History {
    h.(deletes := h.deletes + [DeleteRecord(LatestRun(h.orders), id, rows, gone)],
       removed := if did then h.removed + OwnersOf(rows, id) else h.removed, vanished := h.vanished + gone)
  }

  ghost function CommitNow(rows: Rows, d: Derived, h: History): CommitRecord {
    CommitRecord(LatestRun(h.orders), d, rows.Row(), h.sights)
  }

  /** The history after a commit of row d between these rows. */
  ghost function Committing(before: Rows, after: Rows, d: Derived, h: History): History {
    Spent(before, after, h.(commits := h.commits + [CommitNow(before, d, h)],
                            removed := h.removed - {d.format}, vanished := h.vanished - {d.format}))
  }

  ghost function GrantNow(rows: Rows, i: Intent, h: History): Grant {
    Grant(LatestRun(h.orders), i.format, i.target.id, i.tag, h.sights, rows)
  }

  // ---- Effects on the server ----

  function NewFile(stamps: (nat, Sha) -> Stamp, id: nat, format: Format, name: string, content: Sha): File {
    var s := stamps(id, content);
    File(id, name, format, s.kind, s.sizeKB, s.advertised, s.mtime, content)
  }

  function AddFile(server: Server, file: File): Server {
    server.(book := server.book.(files := server.book.files + [file]), nextId := server.nextId + 1)
  }

  function DropFile(server: Server, id: nat): Server {
    server.(book := server.book.(files := RemoveId(server.book.files, id)))
  }

  ghost function FormatsOf(files: seq<File>, id: nat): set<Format> { set x | x in files && x.id == id :: x.format }

  /** The server issues ids it has not used, and 0 is none of them. */
  ghost predicate IdsBelow(server: Server) {
    && server.nextId > 0
    && forall x :: x in server.book.files ==> x.id < server.nextId
  }

  predicate Disturbs(script: seq<Turn>, t: Turn) { t in script && t.change.Some? }

  /** Nobody else touches the book. */
  ghost predicate HandsOff(script: seq<Turn>) {
    forall t {:trigger Disturbs(script, t)} :: !Disturbs(script, t)
  }

  /** All that others make of the book has its tags within the limit. */
  ghost predicate ChangesWithin(script: seq<Turn>, limit: set<string>) {
    forall t {:trigger Disturbs(script, t)} :: Disturbs(script, t) ==> t.change.value.book.tags <= limit
  }

  lemma RestOfScript(script: seq<Turn>, limit: set<string>)
    requires script != []
    ensures HandsOff(script) ==> HandsOff(script[1..]) && script[0].change.None?
    ensures ChangesWithin(script, limit) ==>
              ChangesWithin(script[1..], limit) && (script[0].change.Some? ==> script[0].change.value.book.tags <= limit)
  {
    forall t ensures Disturbs(script[1..], t) ==> Disturbs(script, t) {}
    assert script[0].change.Some? ==> Disturbs(script, script[0]);
  }

  class World {
    const u: ArtifactName.Unicode
    const stamps: (nat, Sha) -> Stamp
    const calibre: nat -> Sha     // the nth conversion's output; conversion need not be repeatable
    var rows: Rows
    var server: Server
    var script: seq<Turn>
    var crashed: bool
    var made: nat
    ghost var h: History
    ghost var bound: set<string>   // the tags the book had when the run began, and what was added since
    ghost const limit: set<string> // a set of tags to speak of all that others may put on the book

    constructor (u: ArtifactName.Unicode, stamps: (nat, Sha) -> Stamp, calibre: nat -> Sha, server: Server, ghost limit: set<string>)
      ensures this.u == u && this.stamps == stamps && this.calibre == calibre && this.server == server && this.limit == limit
      ensures rows == EMPTY && h == NO_HISTORY && OK() && Quiet()
    {
      this.u, this.stamps, this.calibre, this.server, this.limit := u, stamps, calibre, server, limit;
      rows, script, crashed, made, h, bound := EMPTY, [], false, 0, NO_HISTORY, server.book.tags;
    }

    ghost predicate OK() reads this { Good(rows, h) }

    /** Nothing fails from here on and nobody else touches the book. */
    predicate Quiet() reads this { !crashed && script == [] }

    /** Requests may fail and the process may die, but nobody else touches the book. */
    ghost predicate Steady() reads this { HandsOff(script) }

    /** Calm environments stay calm, and the dead stay dead. */
    twostate predicate GoesOn() reads this {
      && (old(Steady()) ==> Steady())
      && (old(Quiet()) ==> Quiet())
      && (old(crashed) ==> crashed)
    }

    ghost predicate Bounded() reads this { server.book.tags <= bound }

    /** Neither the book nor what others will make of it nor any usable tag goes beyond the limit. */
    ghost predicate Contained() reads this {
      server.book.tags <= limit && h.usable <= limit && ChangesWithin(script, limit)
    }

    /** As above; while nobody interferes the book gets no tag that it did not have; and whoever
        interferes, the service brings in no tag. */
    twostate predicate Goes() reads this {
      && GoesOn() && (old(Bounded()) ==> Bounded() && (old(Steady()) ==> bound == old(bound)))
      && (old(Contained()) ==> Contained())
    }

    /** The run goes on under its orders, and remembers the tags it has seen. */
    twostate predicate Remembers() reads this {
      && h.orders == old(h.orders) && h.prior == old(h.prior) && h.failureTag == old(h.failureTag) && h.failureTags == old(h.failureTags)
      && old(h.observed) <= h.observed && old(h.usable) <= h.usable
    }

    twostate predicate OnlyReads() reads this {
      && Goes() && rows == old(rows) && Sees(old(h), h)
      && (old(Steady()) ==> server == old(server))
      && (old(OK()) ==> OK())
    }

    method NextTurn() returns (fate: Fate)
      modifies this`script, this`server, this`crashed, this`bound
      ensures Goes() && (old(Steady()) ==> server == old(server))
      ensures old(Quiet()) ==> fate == Fine
      ensures fate == Crash <==> crashed
      ensures !old(crashed) && old(script) != [] ==>
                && fate == old(script)[0].fate && script == old(script)[1..]
                && (old(script)[0].change.Some? ==> server == old(script)[0].change.value)
    {
      if crashed {
        return Crash;
      }
      if script == [] {
        return Fine;
      }
      RestOfScript(script, limit);
      var turn := script[0];
      script := script[1..];
      if turn.change.Some? {
        server, bound := turn.change.value, turn.change.value.book.tags;
      }
      crashed := turn.fate == Crash;
      return turn.fate;
    }

    // ---- Reading the server ----

    method GetLibraryBook() returns (book: Option<Book>)
      modifies this
      ensures OnlyReads() && made == old(made)
      ensures old(Quiet()) ==> book.Some?
      ensures book.Some? ==> !crashed && book.value == server.book && h == Seen(old(h), book.value)
      ensures book.None? ==> h == old(h)
    {
      var fate := NextTurn();
      if fate != Fine {
        return None;
      }
      ghost var h0 := h;
      h := Seen(h, server.book);
      if old(OK()) { SeenKeepsGood(rows, h0, server.book); }
      return Some(server.book);
    }

    /** The content endpoint answers by format, with the first file it lists. */
    method Download(format: Format) returns (sha: Option<Sha>)
      modifies this
      ensures OnlyReads() && made == old(made)
      ensures old(Quiet()) && FilesFor(old(server.book.files), format) != [] ==> sha.Some?
      ensures sha.Some? ==> !crashed && FilesFor(server.book.files, format) != [] && sha.value == FilesFor(server.book.files, format)[0].content
      ensures sha.Some? ==> h == old(h).(sights := old(h.sights) + [Fetched(format, sha.value)])
      ensures sha.None? ==> h == old(h)
    {
      var fate := NextTurn();
      var files := FilesFor(server.book.files, format);
      if fate != Fine || files == [] {
        return None;
      }
      ghost var h0 := h;
      h := h.(sights := h.sights + [Fetched(format, files[0].content)]);
      if old(OK()) { GrowingKeepsGood(rows, h0, h); }
      return Some(files[0].content);
    }

    // ---- Local steps that can fail: a conversion, a file check, a cancelled context ----

    method Convert() returns (output: Option<Sha>)
      modifies this
      ensures OnlyReads() && h == old(h)
      ensures old(Quiet()) ==> output.Some?
      ensures output.Some? ==> !crashed
    {
      var fate := NextTurn();
      if fate != Fine {
        return None;
      }
      made := made + 1;
      return Some(calibre(made));
    }

    method LocalCheck() returns (ok: bool)
      modifies this
      ensures OnlyReads() && h == old(h) && made == old(made)
      ensures old(Quiet()) ==> ok
      ensures ok ==> !crashed
    {
      var fate := NextTurn();
      return fate == Fine;
    }

    // ---- Changing the server ----

    twostate predicate LeavesRows() reads this { Goes() && rows == old(rows) && made == old(made) }

    method Upload(format: Format, name: string, content: Sha) returns (ok: bool, ghost did: bool)
      modifies this
      ensures LeavesRows()
      ensures h == if old(crashed) then old(h) else
                old(h).(uploads := old(h.uploads) + [UploadRecord(LatestRun(old(h.orders)), format, name, content, rows, old(h.listed))])
      ensures old(Steady()) ==> server == if did then AddFile(old(server), NewFile(stamps, old(server).nextId, format, name, content)) else old(server)
      ensures ok ==> did && !crashed
      ensures old(crashed) ==> !did
      ensures old(Quiet()) ==> ok
    {
      did := false;
      if crashed {
        return false, false;
      }
      var fate := NextTurn();
      h := h.(uploads := h.uploads + [UploadRecord(LatestRun(h.orders), format, name, content, rows, h.listed)]);
      if fate == Fine || fate == Ambiguous {
        server := AddFile(server, NewFile(stamps, server.nextId, format, name, content));
        did := true;
      }
      ok := fate == Fine;
    }

    /** `before` is the server when the request arrives. */
    method Delete(id: nat) returns (ok: bool, ghost did: bool, ghost before: Server)
      modifies this
      ensures LeavesRows()
      ensures h == if old(crashed) then old(h) else Deleting(old(h), id, rows, did, if did then FormatsOf(before.book.files, id) else {})
      ensures server == if did then DropFile(before, id) else before
      ensures old(Steady()) ==> before == old(server)
      ensures ok ==> did && !crashed
      ensures old(crashed) ==> !did
      ensures old(Quiet()) ==> did && (ok <==> exists x :: x in old(server.book.files) && x.id == id)
    {
      did, before := false, server;
      if crashed {
        return false, false, server;
      }
      var fate := NextTurn();
      before := server;
      var there := exists x :: x in server.book.files && x.id == id;
      if fate == Fine || fate == Ambiguous {
        server := DropFile(server, id);
        did := true;
      }
      h := Deleting(h, id, rows, did, if did then FormatsOf(before.book.files, id) else {});
      ok := fate == Fine && there;
    }

    method AddTag(tag: string) returns (ok: bool)
      modifies this
      ensures GoesOn() && rows == old(rows) && made == old(made) && h == old(h)
      ensures old(Bounded()) ==> Bounded() && (old(Steady()) ==> bound == old(bound) + {tag})
      ensures old(Contained()) && tag in limit ==> Contained()
      ensures old(Steady()) ==> server.book.files == old(server.book.files) && server.nextId == old(server.nextId)
      ensures old(Steady()) ==> server.book.tags == old(server.book.tags) || server.book.tags == old(server.book.tags) + {tag}
      ensures old(Steady()) && ok ==> tag in server.book.tags
      ensures ok ==> !crashed
      ensures old(Quiet()) ==> ok
    {
      var fate := NextTurn();
      bound := bound + {tag};
      if fate == Fine || fate == Ambiguous {
        server := server.(book := server.book.(tags := server.book.tags + {tag}));
      }
      ok := fate == Fine;
    }

    method RemoveTag(tag: string) returns (ok: bool)
      modifies this
      ensures LeavesRows()
      ensures old(Steady()) ==> server.book.tags == old(server.book.tags) || server.book.tags == old(server.book.tags) - {tag}
      ensures h == old(h) || h == old(h).(removals := old(h.removals) + [TagRemoval(tag, h.failureTag, rows)])
      ensures old(Steady()) ==> server.book.files == old(server.book.files) && server.nextId == old(server.nextId)
      ensures ok ==> !crashed && tag !in server.book.tags
      ensures old(Quiet()) ==> ok
    {
      var fate := NextTurn();
      if fate == Fine || fate == Ambiguous {
        server := server.(book := server.book.(tags := server.book.tags - {tag}));
        h := h.(removals := h.removals + [TagRemoval(tag, h.failureTag, rows)]);
      }
      ok := fate == Fine;
    }

    // ---- The store; a write can fail after it took effect, too ----

    twostate predicate LeavesServer() reads this { Goes() && server == old(server) && made == old(made) }

    method StoreTurn() returns (fate: Fate)
      modifies this`script, this`crashed
      ensures LeavesServer()
      ensures old(Quiet()) ==> fate == Fine
      ensures fate == Crash <==> crashed
    {
      if crashed {
        return Crash;
      }
      if script == [] {
        return Fine;
      }
      RestOfScript(script, limit);
      fate := script[0].fate;
      script := script[1..];
      crashed := fate == Crash;
    }

    method ReadRows() returns (read: Option<Rows>)
      modifies this
      ensures OnlyReads() && LeavesServer() && h == old(h)
      ensures old(Quiet()) ==> read.Some?
      ensures read.Some? ==> read.value == rows && !crashed
    {
      var fate := StoreTurn();
      return if fate == Fine then Some(rows) else None;
    }

    /** Every write: the new rows, if the write is valid and the fate lets it through. */
    method Write(next: Option<Rows>) returns (ok: bool, did: bool)
      modifies this`script, this`crashed, this`rows
      ensures LeavesServer() && h == old(h)
      ensures did ==> next.Some? && rows == next.value && !old(crashed)
      ensures !did ==> rows == old(rows)
      ensures ok ==> did && !crashed
      ensures old(Quiet()) && next.Some? ==> ok
    {
      did := false;
      var fate := StoreTurn();
      if next.Some? && (fate == Fine || fate == Ambiguous) {
        rows := next.value;
        did := true;
      }
      ok := next.Some? && fate == Fine;
    }

    method SetBook(value: BookRow) returns (ok: bool, ghost did: bool)
      modifies this
      ensures LeavesServer() && h == old(h)
      ensures rows == if did then Checkpoints.SetBook(old(rows), value) else old(rows)
      ensures ok ==> did && !crashed
      ensures old(Quiet()) ==> ok
    {
      ok, did := Write(Some(Checkpoints.SetBook(rows, value)));
    }

    method SetIntent(i: Intent) returns (ok: bool, ghost did: bool)
      modifies this
      ensures LeavesServer() && h == old(h)
      ensures if did then Checkpoints.SetIntent(old(rows), i) == Some(rows) else rows == old(rows)
      ensures ok ==> did && !crashed
      ensures old(Quiet()) && Checkpoints.SetIntent(old(rows), i).Some? ==> ok
    {
      ok, did := Write(Checkpoints.SetIntent(rows, i));
    }

    method PrepareReplacement(i: Intent) returns (ok: bool, ghost did: bool)
      modifies this
      ensures LeavesServer()
      ensures if did then Prepare(old(rows), i) == Some(rows) && h == old(h).(grants := old(h.grants) + [GrantNow(old(rows), i, old(h))])
                     else rows == old(rows) && h == old(h)
      ensures ok ==> did && !crashed
      ensures old(Quiet()) && Prepare(old(rows), i).Some? ==> ok
    {
      ghost var g := GrantNow(rows, i, h);
      ok, did := Write(Prepare(rows, i));
      if did {
        h := h.(grants := h.grants + [g]);
      }
    }

    method CommitDerived(d: Derived, tag: string) returns (ok: bool, ghost did: bool)
      modifies this
      ensures LeavesServer()
      ensures if did then Commit(old(rows), d, tag) == Some(rows) && h == Committing(old(rows), rows, d, old(h))
                     else rows == old(rows) && h == old(h)
      ensures ok ==> did && !crashed
      ensures old(Quiet()) && Commit(old(rows), d, tag).Some? ==> ok
    {
      ghost var before := rows;
      ok, did := Write(Commit(rows, d, tag));
      if did {
        h := Committing(before, rows, d, h);
      }
    }

    method MarkPendingReplacementCleanup(tag: string) returns (ok: bool, ghost did: bool)
      modifies this
      ensures LeavesServer() && h == old(h)
      ensures if did then MarkPending(old(rows), tag) == Some(rows) else rows == old(rows)
      ensures ok ==> did && !crashed
      ensures old(Quiet()) && MarkPending(old(rows), tag).Some? ==> ok
    {
      ok, did := Write(MarkPending(rows, tag));
    }

    method ClearPendingReplacementTag(tag: string) returns (ok: bool, ghost did: bool)
      modifies this
      ensures LeavesServer() && h == old(h)
      ensures if did then ClearPending(old(rows), tag) == Some(rows) else rows == old(rows)
      ensures ok ==> did && !crashed
      ensures old(Quiet()) && ClearPending(old(rows), tag).Some? ==> ok
    {
      ok, did := Write(ClearPending(rows, tag));
    }

    /** A new run brings its own orders and remembers nothing of what an earlier one saw. */
    ghost method BeginRun(o: Orders)
      modifies this`h, this`bound
      ensures h == Began(old(h), o) && bound == server.book.tags
      ensures (old(OK()) ==> OK()) && (old(Contained()) ==> Contained())
    {
      ghost var h0 := h;
      h, bound := Began(h, o), server.book.tags;
      if Good(rows, h0) { TracesStayOK(h0, h); GrowingKeepsGood(rows, h0, h); }
    }

    /** The scheduler works with this failure tag. */
    ghost method Serve(failedTag: string)
      modifies this`h
      ensures h == old(h).(failureTag := failedTag, failureTags := old(h.failureTags) + {failedTag})
      ensures (old(OK()) ==> OK()) && (old(Contained()) ==> Contained())
    {
      ghost var h0 := h;
      h := h.(failureTag := failedTag, failureTags := h.failureTags + {failedTag});
      if Good(rows, h0) { GrowingKeepsGood(rows, h0, h); }
    }

    /** The process starts again; the environment of the next run is chosen anew. */
    method Restart(script: seq<Turn>)
      modifies this`script, this`crashed
      ensures this.script == script && !crashed
      ensures old(Contained()) && ChangesWithin(script, limit) ==> Contained()
    {
      this.script, crashed := script, false;
    }
  }
}
