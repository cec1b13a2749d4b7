/** Properties of any number of runs, each with its own configuration, faults and crashes, and of
    the states they can reach. */
module Runs {
  import opened Inventory
  import opened Checkpoints
  import ArtifactName
  import opened Planner
  import opened World
  import opened Loop
  import opened Cleanup
  import opened Reconcile

  /** One run and the environment it meets: how each request ends, where the process dies, what
      somebody else does to the book in between. */
  datatype Episode = Episode(run: Run, script: seq<Turn>)

  ghost predicate ValidEpisodes(episodes: seq<Episode>) {
    forall e :: e in episodes ==> ValidRun(e.run)
  }

  /** The orders on record after these runs. */
  ghost function OrdersAfter(orders: seq<Orders>, episodes: seq<Episode>): seq<Orders> {
    if episodes == [] then orders
    else OrdersAfter(orders, episodes[..|episodes| - 1]) + [OrdersOf(episodes[|episodes| - 1].run)]
  }

  ghost function FailureTagsAfter(tags: set<string>, episodes: seq<Episode>): set<string> {
    if episodes == [] then tags
    else FailureTagsAfter(tags, episodes[..|episodes| - 1]) + {episodes[|episodes| - 1].run.cfg.failedTag}
  }

  lemma {:induction false} OrdersAreTheirs(episodes: seq<Episode>)
    ensures |OrdersAfter([], episodes)| == |episodes|
    ensures forall k :: 0 <= k < |episodes| ==> OrdersAfter([], episodes)[k] == OrdersOf(episodes[k].run)
  {
    if episodes != [] {
      OrdersAreTheirs(episodes[..|episodes| - 1]);
    }
  }

  lemma {:induction false} FailureTagsAreTheirs(episodes: seq<Episode>, tag: string)
    requires forall e :: e in episodes ==> e.run.cfg.failedTag != tag
    ensures tag !in FailureTagsAfter({}, episodes)
  {
    if episodes != [] {
      assert episodes[|episodes| - 1] in episodes;
      FailureTagsAreTheirs(episodes[..|episodes| - 1], tag);
    }
  }

  /** What others make of the book during these runs has its tags within the limit. */
  ghost predicate OthersWithin(episodes: seq<Episode>, limit: set<string>) {
    forall e :: e in episodes ==> ChangesWithin(e.script, limit)
  }

  /** Any runs at all, from any good state: rows and history stay good, and the history has the
      orders of these runs. */
  method Operate(w: World, episodes: seq<Episode>)
    requires w.OK() && w.u.Valid() && ValidEpisodes(episodes)
    modifies w
    ensures w.OK()
    ensures w.h.orders == OrdersAfter(old(w.h.orders), episodes)
    ensures w.h.failureTags == FailureTagsAfter(old(w.h.failureTags), episodes)
    ensures old(w.Contained()) && OthersWithin(episodes, w.limit) ==> w.Contained()
  {
    for k := 0 to |episodes|
      invariant w.OK()
      invariant old(w.Contained()) && OthersWithin(episodes, w.limit) ==> w.Contained()
      invariant w.h.orders == OrdersAfter(old(w.h.orders), episodes[..k])
      invariant w.h.failureTags == FailureTagsAfter(old(w.h.failureTags), episodes[..k])
    {
      assert episodes[..k + 1][..k] == episodes[..k];
      w.Restart(episodes[k].script);
      var status := Sync(w, episodes[k].run);
    }
    assert episodes[..|episodes|] == episodes;
  }

  // ---- What holds in every good state ----

  /** Format f is the owner of the phase, and recovery finds it without any doubt. */
  ghost predicate OwnsAlone(rows: Rows, f: Format) {
    rows.Row().inProgress && Prepared(rows.intents, f) && forall g :: Prepared(rows.intents, g) ==> g == f
  }

  /** Somebody changed the format of a file under the service: the last listing before the delete,
      seen by the same run, had the id as the only file of another format, and what the delete
      took away was of format f. */
  ghost predicate ChangedHands(h: History, f: Format) {
    exists d, g :: d in h.deletes && f in d.gone && g in h.grants && g.run == d.run && g.target == d.id && g.format != f && Preflighted(g)
  }

  lemma SwappedIsChangedHands(h: History, f: Format)
    requires EffectsOK(h) && Swapped(h.deletes, f)
    ensures ChangedHands(h, f)
  {
    var d :| d in h.deletes && f in d.gone && f !in OwnersOf(d.rows, d.id);
    assert DeleteOK(d, h);
    var o :| o in OwnersOf(d.rows, d.id) && Granted(h, o, d.id) && Cleared(h.grants, d.run, o, d.id);
    var g :| g in h.grants && g.run == d.run && g.format == o && g.target == d.id;
    assert GrantOK(g, h.orders, h.usable);
  }

  /** At most one format is ever missing because the service deleted its recorded file: the one that
      the store records as the owner, which recovery finds. A format whose file vanished with a
      delete is that one, unless somebody changed the file's format between look and delete. */
  lemma MissingFormatIsTheOwner(rows: Rows, h: History)
    requires Good(rows, h)
    ensures |h.removed| <= 1 && forall f :: f in h.removed ==> OwnsAlone(rows, f)
    ensures forall f :: f in h.vanished ==> OwnsAlone(rows, f) || ChangedHands(h, f)
  {
    PhaseHasOneOwner(rows);
    if h.removed != {} {
      var f :| f in h.removed;
      assert h.removed == {f};
    }
    forall f | f in h.vanished && f !in h.removed ensures ChangedHands(h, f) {
      assert Swapped(h.deletes, f);
      SwappedIsChangedHands(h, f);
    }
  }

  /** The evidence for row d, committed under the canonical row b, in one run's sights: a listing
      with exactly that file of the format, under the name the fingerprint speaks of and not the
      canonical file; its bytes, fetched after that, hashing to the recorded output; the canonical
      file of the same inventory, seen then or later; and its bytes, fetched after that, hashing to
      the recorded source, which is the canonical content on record. */
  ghost predicate Evidence(d: Derived, b: BookRow, sights: seq<Sight>, i: nat, j: nat, m: nat, k: nat) {
    && i < j < |sights| && i <= m < k < |sights|
    && sights[i].SawBook? && d.gen.V1? && d.gen.content == d.sourceSha == b.canonicalSha && d.gen.format == d.format
    && (var found := FilesFor(sights[i].book.files, d.format);
        |found| == 1 && found[0].id == d.fileId && found[0].name == d.gen.name && found[0].id != b.canonicalFileId)
    && d.outputSha.Some? && sights[j] == Fetched(d.format, d.outputSha.value)
    && sights[m].SawBook? && SameInventory(sights[m].book.files, sights[i].book.files)
    && (var main := FilesFor(sights[m].book.files, b.mainFormat); |main| == 1 && main[0].id == b.canonicalFileId)
    && d.sourceSha.Some? && sights[k] == Fetched(b.mainFormat, d.sourceSha.value)
  }

  /** Some run committed exactly this row, for a library whose main format is that of the canonical
      row on record then, and had seen the evidence for it. */
  ghost predicate CommittedOnEvidence(h: History, d: Derived) {
    exists c, i, j, m, k :: c in h.commits && c.row == d && c.run < |h.orders| && h.orders[c.run].main == Some(c.canonical.mainFormat)
                            && Evidence(d, c.canonical, c.sights, i, j, m, k)
  }

  /** Behind every derivative row in the store there is such a commit. */
  lemma EveryCommitIsBacked(rows: Rows, h: History, f: Format)
    requires Good(rows, h) && f in rows.derived
    ensures rows.derived[f].format == f && CommittedOnEvidence(h, rows.derived[f])
  {
    assert Backed(h.commits, rows.derived[f]);
    var c :| c in h.commits && c.row == rows.derived[f];
    assert CommitRecordOK(c, h.orders);
    var i: nat, j: nat, m: nat, k: nat :| EvidenceAt(c.row, c.canonical, c.sights, i, j, m, k);
    assert Evidence(c.row, c.canonical, c.sights, i, j, m, k);
  }

  /** A tag that is nobody's failure tag was only ever removed while its pending marker was durable,
      no phase was open and nothing was owed, and after a commit had closed a phase under it. */
  lemma EveryRemovalIsCovered(rows: Rows, h: History, r: TagRemoval)
    requires Good(rows, h) && r in h.removals && r.tag !in h.failureTags
    ensures r.rows.Row().pendingTag == r.tag && !r.rows.Row().inProgress && r.tag in h.spent && Unowned(r.rows)
  {
    assert RemovalOK(r, h.spent, h.failureTags);
  }

  /** The run went through the preflight for this target. */
  ghost predicate PreflightedIn(h: History, run: nat, f: Format, target: nat) {
    exists g :: g in h.grants && g.run == run && g.format == f && g.target == target && Preflighted(g)
  }

  lemma ClearedIsPreflighted(h: History, run: nat, f: Format, target: nat)
    requires GrantsOK(h) && Cleared(h.grants, run, f, target)
    ensures PreflightedIn(h, run, f, target)
  {
    var g :| g in h.grants && g.run == run && g.format == f && g.target == target;
    assert GrantOK(g, h.orders, h.usable);
  }

  /** Every delete went to the target recorded for the owner of the phase and never to the
      canonical file on record; the run that sent it had just been through the preflight for that
      target; and the target goes back to an authorization that rests on no other. */
  lemma EveryDeleteIsAccountedFor(rows: Rows, h: History, d: DeleteRecord)
    requires Good(rows, h) && d in h.deletes
    ensures d.rows.Row().inProgress && d.id != d.rows.Row().canonicalFileId
    ensures exists f :: Owns(d.rows, f) && d.rows.intents[f].target.id == d.id && PreflightedIn(h, d.run, f, d.id) && Granted(h, f, d.id)
  {
    assert DeleteOK(d, h);
    var f :| f in OwnersOf(d.rows, d.id) && Granted(h, f, d.id) && Cleared(h.grants, d.run, f, d.id);
    ClearedIsPreflighted(h, d.run, f, d.id);
    assert Owns(d.rows, f);
  }

  /** Whoever prepares a replacement may do so: by the orders of that very run and the tags of the
      listing it has just seen, the ignore tag winning over all; by a tag on record, which a listing
      showed to a run that was configured with it; or because the same target was on record already.
      What only a tag allows is recorded under that tag, and what may be the upload of an earlier run is
      replaced only by force. */
  lemma EveryGrantIsAuthorized(rows: Rows, h: History, g: Grant)
    requires Good(rows, h) && g in h.grants
    ensures Preflighted(g) && g.run < |h.orders|
    ensures (var o, tags := h.orders[g.run], g.sights[|g.sights| - 2].book.tags;
             || (!HasTag(tags, o.cfg.ignoreTag) && (o.force || o.cfg.replacePolicy || HasTag(tags, o.cfg.replacementTag)))
             || (g.rows.Row().ipTag != "" && Shown(h.orders, h.shown, g.rows.Row().ipTag))
             || (Owns(g.rows, g.format) && g.rows.intents[g.format].target.id == g.target))
    ensures TaggedRightly(g, h.orders[g.run]) && (Unsettled(g.rows, g.format) ==> h.orders[g.run].force)
  {
    assert GrantOK(g, h.orders, h.usable);
    if g.rows.Row().ipTag in h.usable { assert Shown(h.orders, h.shown, g.rows.Row().ipTag); }
  }

  /** Every upload is the main file of a library that was just seen without one, or a derivative
      behind a durable intent that names it; and where the service may have deleted a file before,
      only after a listing without any. */
  lemma EveryUploadIsAccountedFor(rows: Rows, h: History, r: UploadRecord)
    requires Good(rows, h) && r in h.uploads
    ensures || (r.format in r.rows.intents
                && r.rows.intents[r.format].outputSha == Some(r.content) && r.rows.intents[r.format].outputName == r.name
                && (Owns(r.rows, r.format) ==> ListedNone(r.listed, r.format)))
            || (r.run < |h.orders| && h.orders[r.run].main == Some(r.format) && ListedNone(r.listed, r.format))
  {
    assert UploadOK(r, h.orders);
  }

  /** No run was forced or had the replace policy. */
  ghost predicate Preserving(orders: seq<Orders>) {
    forall k :: 0 <= k < |orders| ==> !orders[k].force && !orders[k].cfg.replacePolicy
  }

  lemma GrantNeedsATag(h: History, g: Grant)
    requires GrantsOK(h) && g in h.grants && Preserving(h.orders)
    ensures h.usable != {}
  {
    assert GrantOK(g, h.orders, h.usable);
    var o :| o in h.grants && o.format == g.format && o.target == g.target && Original(o, h.orders, h.usable);
  }

  /** No run has been shown the replacement tag that it was configured with. */
  ghost predicate NoneShown(h: History) { forall tag :: !Shown(h.orders, h.shown, tag) }

  /** Without force, without the replace policy, and without a run ever being shown the replacement
      tag it was configured with, nothing is prepared and nothing is deleted. */
  lemma NothingAuthorizedNothingDeleted(rows: Rows, h: History)
    requires Good(rows, h) && Preserving(h.orders) && NoneShown(h)
    ensures h.grants == [] && h.deletes == [] && !rows.Row().inProgress
    ensures rows.Row().ipTag == "" && rows.Row().pendingTag == ""
  {
    assert h.usable == {} by {
      forall t ensures t !in h.usable { assert !Shown(h.orders, h.shown, t); }
    }
    NothingUsableNothingDeleted(rows, h);
  }

  lemma NothingUsableNothingDeleted(rows: Rows, h: History)
    requires Good(rows, h) && Preserving(h.orders) && h.usable == {}
    ensures h.grants == [] && h.deletes == [] && !rows.Row().inProgress
    ensures rows.Row().ipTag == "" && rows.Row().pendingTag == ""
  {
    assert h.grants == [] by {
      if h.grants != [] { GrantNeedsATag(h, h.grants[0]); }
    }
    if h.deletes != [] {
      EveryDeleteIsAccountedFor(rows, h, h.deletes[0]);
    }
    assert forall f {:trigger Owns(rows, f)} :: Owns(rows, f) ==> Granted(h, f, rows.intents[f].target.id);
  }

  /** All tags that the book has at the start or gets from somebody else. */
  ghost function TagsOf(server: Server, episodes: seq<Episode>): set<string> {
    server.book.tags + set e, t, tag | e in episodes && t in e.script && t.change.Some? && tag in t.change.value.book.tags :: tag
  }

  lemma TagsAreWithin(server: Server, episodes: seq<Episode>)
    ensures OthersWithin(episodes, TagsOf(server, episodes))
  {
    forall e, t | e in episodes && Disturbs(e.script, t) ensures t.change.value.book.tags <= TagsOf(server, episodes) {
      forall tag | tag in t.change.value.book.tags ensures tag in TagsOf(server, episodes) {}
    }
  }

  /** Nobody ever puts the replacement tag of any of these runs on the book. */
  ghost predicate Untagged(server: Server, episodes: seq<Episode>) {
    forall e :: e in episodes ==> e.run.cfg.replacementTag !in TagsOf(server, episodes)
  }

  /** A usable tag is the replacement tag of one of the runs. */
  lemma UsableIsConfigured(episodes: seq<Episode>, h: History, tag: string) returns (e: Episode)
    requires h.orders == OrdersAfter([], episodes) && TracesOK(h) && tag in h.usable
    ensures e in episodes && e.run.cfg.replacementTag == tag
  {
    OrdersAreTheirs(episodes);
    assert Shown(h.orders, h.shown, tag);
    var s :| s in h.shown && s.run < |h.orders| && h.orders[s.run].cfg.replacementTag == tag;
    e := episodes[s.run];
  }

  lemma UntaggedIsUnusable(server: Server, episodes: seq<Episode>, h: History)
    requires Untagged(server, episodes) && h.usable <= TagsOf(server, episodes) && h.orders == OrdersAfter([], episodes) && TracesOK(h)
    ensures h.usable == {}
  {
    forall tag ensures tag !in h.usable {
      if tag in h.usable {
        var e := UsableIsConfigured(episodes, h, tag);
        assert false;
      }
    }
  }

  lemma UntaggedIsPreserved(rows: Rows, h: History, server: Server, episodes: seq<Episode>)
    requires Good(rows, h) && h.orders == OrdersAfter([], episodes) && h.usable <= TagsOf(server, episodes)
    requires forall e :: e in episodes ==> !e.run.force && !e.run.cfg.replacePolicy
    ensures NoneShown(h) || Untagged(server, episodes) ==> h.deletes == [] && h.grants == []
  {
    OrdersAreTheirs(episodes);
    assert Preserving(h.orders) by {
      forall k | 0 <= k < |h.orders| ensures !h.orders[k].force && !h.orders[k].cfg.replacePolicy {
        assert episodes[k] in episodes;
      }
    }
    if NoneShown(h) {
      NothingAuthorizedNothingDeleted(rows, h);
    } else if Untagged(server, episodes) {
      UntaggedIsUnusable(server, episodes, h);
      NothingUsableNothingDeleted(rows, h);
    }
  }

  /** From an empty store, whatever fails and whoever interferes: runs that preserve existing
      files, none of them forced, delete nothing unless one was shown its replacement tag; so they
      delete nothing at all if nobody ever puts that tag on the book. */
  method PreserveUnlessTagged(u: ArtifactName.Unicode, stamps: (nat, Sha) -> Stamp, calibre: nat -> Sha, server: Server, episodes: seq<Episode>)
    returns (w: World)
    requires u.Valid() && ValidEpisodes(episodes)
    requires forall e :: e in episodes ==> !e.run.force && !e.run.cfg.replacePolicy
    ensures w.h.orders == OrdersAfter([], episodes)
    ensures NoneShown(w.h) || Untagged(server, episodes) ==> w.h.deletes == [] && w.h.grants == []
  {
    w := new World(u, stamps, calibre, server, TagsOf(server, episodes));
    TagsAreWithin(server, episodes);
    Operate(w, episodes);
    UntaggedIsPreserved(w.rows, w.h, server, episodes);
  }

  /** Any runs from an empty store, with any faults, crashes and interference: if a phase is
      open, exactly one format owns it and recovery finds it; at most one format is missing
      because the service deleted its recorded file, and that format is the owner; and so is any
      whose file vanished with a delete, unless somebody changed the file's format under the service. */
  method RecoverAfterAnything(u: ArtifactName.Unicode, stamps: (nat, Sha) -> Stamp, calibre: nat -> Sha, server: Server, episodes: seq<Episode>)
    returns (w: World, owner: Option<Format>)
    requires u.Valid() && ValidEpisodes(episodes)
    ensures w.h.orders == OrdersAfter([], episodes)
    ensures owner.Some? <==> w.rows.Row().inProgress
    ensures forall f :: Prepared(w.rows.intents, f) <==> owner == Some(f)
    ensures forall f :: f in w.h.removed ==> owner == Some(f)
    ensures forall f :: f in w.h.vanished ==> owner == Some(f) || ChangedHands(w.h, f)
    ensures w.rows.Row().pendingTag != "" ==> owner.None? && w.rows.Row().ipTag == ""
  {
    w := new World(u, stamps, calibre, server, {});
    EmptyOK();
    Operate(w, episodes);
    owner := RecoverOwner(w.rows);
    PhaseHasOneOwner(w.rows);
    MissingFormatIsTheOwner(w.rows, w.h);
  }

  /** The same runs leave an account of everything they did: every committed row, every grant, every
      usable tag, every delete, every upload, and every removed tag that no run is configured with as
      its failure tag, is backed. */
  method AccountForEverything(u: ArtifactName.Unicode, stamps: (nat, Sha) -> Stamp, calibre: nat -> Sha, server: Server, episodes: seq<Episode>)
    returns (w: World)
    requires u.Valid() && ValidEpisodes(episodes)
    ensures |w.h.orders| == |episodes| && forall k :: 0 <= k < |episodes| ==> w.h.orders[k] == OrdersOf(episodes[k].run)
    ensures forall f :: f in w.rows.derived ==> w.rows.derived[f].format == f && CommittedOnEvidence(w.h, w.rows.derived[f])
    ensures forall g :: g in w.h.grants ==> GrantOK(g, w.h.orders, w.h.usable) && Granted(w.h, g.format, g.target)
    ensures forall t :: t in w.h.usable ==> Shown(w.h.orders, w.h.shown, t)
    ensures forall d :: d in w.h.deletes ==> DeleteOK(d, w.h)
    ensures forall r :: r in w.h.uploads ==> UploadOK(r, w.h.orders)
    ensures forall r :: r in w.h.removals && (forall e :: e in episodes ==> e.run.cfg.failedTag != r.tag) ==>
              r.rows.Row().pendingTag == r.tag && !r.rows.Row().inProgress && r.tag in w.h.spent && Unowned(r.rows)
  {
    w := new World(u, stamps, calibre, server, {});
    Operate(w, episodes);
    OrdersAreTheirs(episodes);
    forall f | f in w.rows.derived ensures w.rows.derived[f].format == f && CommittedOnEvidence(w.h, w.rows.derived[f]) {
      EveryCommitIsBacked(w.rows, w.h, f);
    }
    forall r | r in w.h.removals && (forall e :: e in episodes ==> e.run.cfg.failedTag != r.tag)
      ensures r.rows.Row().pendingTag == r.tag && !r.rows.Row().inProgress && r.tag in w.h.spent && Unowned(r.rows)
    {
      FailureTagsAreTheirs(episodes, r.tag);
      EveryRemovalIsCovered(w.rows, w.h, r);
    }
  }

  // ---- Crashes and recovery ----

  /** Requests of the episode may fail and the process may die, but nobody else touches the book,
      and the library keeps its main format. */
  ghost predicate Undisturbing(e: Episode, main: Format) {
    ValidRun(e.run) && RunsOn(e.run, main) && HandsOff(e.script)
  }

  /** Whatever these runs leave half done can be finished. */
  method Endure(w: World, episodes: seq<Episode>, ghost main: Format)
    requires w.OK() && w.u.Valid() && Healthy(w, main)
    requires forall e :: e in episodes ==> Undisturbing(e, main)
    modifies w
    ensures w.OK() && Healthy(w, main) && w.h.orders == OrdersAfter(old(w.h.orders), episodes)
  {
    for k := 0 to |episodes|
      invariant w.OK() && Healthy(w, main) && w.h.orders == OrdersAfter(old(w.h.orders), episodes[..k])
    {
      assert Undisturbing(episodes[k], main) && episodes[..k + 1][..k] == episodes[..k];
      EndureOne(w, episodes[k], main);
    }
    assert episodes[..|episodes|] == episodes;
  }

  method EndureOne(w: World, e: Episode, ghost main: Format)
    requires w.OK() && w.u.Valid() && Healthy(w, main) && Undisturbing(e, main)
    modifies w
    ensures w.OK() && Healthy(w, main) && w.h.orders == old(w.h.orders) + [OrdersOf(e.run)]
  {
    w.Restart(e.script);
    ghost var s := Now(w);
    var status := Sync(w, e.run);
    PromiseKeepsHealth(w.u, w.stamps, e.run, main, status, s, Here(w));
  }

  /** One run in which nothing fails closes the phase that was open and leaves its owner with
      exactly one file, the verified product of the canonical source. Nothing the service removed
      stays missing, but for files that somebody had given another format under the service. */
  method ResumeOnce(w: World, last: Run, p: Policy) returns (status: Status)
    requires w.OK() && w.u.Valid() && Healthy(w, p.main)
    requires ValidRun(last) && last.policy == Some(p)
    requires OwnerIsOutput(w.rows, p) && MainIsTruthful(w.server, p.main)
    modifies w
    ensures w.OK() && Healthy(w, p.main) && w.h.orders == old(w.h.orders) + [OrdersOf(last)]
    ensures !w.rows.Row().inProgress && w.h.removed == {} && forall f :: f in w.h.vanished ==> ChangedHands(w.h, f)
    ensures forall f :: Owns(old(w.rows), f) ==> InSync(w.u, w.rows, w.server, p.main, f)
  {
    w.Restart([]);
    PhaseHasOneOwner(w.rows);
    ghost var s := Now(w);
    status := Sync(w, last);
    PromiseKeepsHealth(w.u, w.stamps, last, p.main, status, s, Here(w));
    MissingFormatIsTheOwner(w.rows, w.h);
  }

  // ---- Convergence ----

  /** The episode has the policy, and nobody else touches the book. */
  ghost predicate Steadfast(e: Episode, p: Policy) { Undisturbing(e, p.main) && e.run.policy == Some(p) }

  /** From an empty store and any listing, any runs under one policy that nobody interferes with,
      whatever fails in them and wherever they die: what is owed stays recoverable, a pending
      cleanup means that everything else is done, and every run that finishes, be it only with a
      cleanup, leaves a settled book if the server's checksums are right and its timestamps are not
      ahead of themselves. */
  method ConvergeWhenever(u: ArtifactName.Unicode, stamps: (nat, Sha) -> Stamp, calibre: nat -> Sha, server: Server, episodes: seq<Episode>, p: Policy)
    returns (w: World, last: Option<Status>)
    requires u.Valid() && IdsBelow(server) && forall e :: e in episodes ==> Steadfast(e, p)
    ensures w.OK() && Healthy(w, p.main) && OnPace(w.u, w.rows, w.server, p) && w.h.orders == OrdersAfter([], episodes)
    ensures last.Some? <==> episodes != []
    ensures last.Some? && Finished(last.value) ==> Converged(w.u, w.rows, w.server, p)
  {
    w := new World(u, stamps, calibre, server, {});
    last := None;
    for k := 0 to |episodes|
      invariant w.OK() && w.u.Valid() && Healthy(w, p.main) && OnPace(w.u, w.rows, w.server, p)
      invariant w.h.orders == OrdersAfter([], episodes[..k])
      invariant last.Some? <==> k > 0
      invariant last.Some? && Finished(last.value) ==> Converged(w.u, w.rows, w.server, p)
    {
      assert Steadfast(episodes[k], p) && episodes[..k + 1][..k] == episodes[..k];
      var status := Continue(w, episodes[k], p);
      last := Some(status);
    }
    assert episodes[..|episodes|] == episodes;
  }

  /** One more such run. */
  method Continue(w: World, e: Episode, p: Policy) returns (status: Status)
    requires w.OK() && w.u.Valid() && Healthy(w, p.main) && OnPace(w.u, w.rows, w.server, p) && Steadfast(e, p)
    modifies w
    ensures w.OK() && Healthy(w, p.main) && OnPace(w.u, w.rows, w.server, p) && w.h.orders == old(w.h.orders) + [OrdersOf(e.run)]
    ensures Finished(status) ==> Converged(w.u, w.rows, w.server, p)
  {
    w.Restart(e.script);
    ghost var s := Now(w);
    status := Sync(w, e.run);
    PromiseKeepsHealth(w.u, w.stamps, e.run, p.main, status, s, Here(w));
    PromiseKeepsPace(w.u, w.stamps, e.run, p, status, s, Here(w));
  }

  /** A completed run, unless it only did a cleanup, leaves a settled book behind, if the server's
      checksums are right and its timestamps are not ahead of themselves. */
  method CompleteOnce(w: World, e: Episode, p: Policy) returns (status: Status)
    requires w.OK() && w.u.Valid() && Healthy(w, p.main) && w.rows.Row().pendingTag == "" && Steadfast(e, p)
    modifies w
    ensures w.OK() && Healthy(w, p.main) && w.h.orders == old(w.h.orders) + [OrdersOf(e.run)]
    ensures Finished(status) ==>
              && HasMain(w.server, p.main)
              && (Credible(NextBasis(w.u, w.rows, w.server, p.main), w.server, p.outputs) ==> Settled(w.u, w.rows, w.server, p))
  {
    status := Continue(w, e, p);
  }

  /** The book has none of the tags that the commits of the last run used, and not its failure tag. */
  ghost predicate Untied(h: History, tags: set<string>, failedTag: string) {
    !HasTag(tags, failedTag) && forall t :: t in h.used ==> t !in tags
  }

  /** A run in which nothing fails completes if nothing stands in its way. Then every output that needed
      work is the verified product of the canonical source, and the tags that allowed it are spent. */
  method RunThrough(w: World, run: Run, p: Policy) returns (status: Status)
    requires w.OK() && w.u.Valid() && Healthy(w, p.main) && w.rows.Row().pendingTag == "" && ValidRun(run) && run.policy == Some(p)
    requires FeasibleAt(w.u, run, p, Here(w))
    modifies w
    ensures status.Completed? && w.OK() && Healthy(w, p.main) && Converged(w.u, w.rows, w.server, p)
    ensures Fulfilled(w.u, run, p, old(Here(w)), w.rows, w.server)
    ensures Untied(w.h, w.server.book.tags, run.cfg.failedTag) && !HasTag(w.server.book.tags, old(w.rows).Row().ipTag)
    ensures w.h.orders == old(w.h.orders) + [OrdersOf(run)]
  {
    w.Restart([]);
    ghost var s := Now(w);
    status := Sync(w, run);
    PromiseKeepsHealth(w.u, w.stamps, run, p.main, status, s, Here(w));
  }

  /** The run may touch every output of this listing: it is missing, or one file that may be replaced. */
  ghost predicate MayTouchAll(server: Server, run: Run, p: Policy) {
    forall f :: f in p.outputs ==>
      || FilesFor(server.book.files, f) == []
      || (|FilesFor(server.book.files, f)| == 1 && (run.force || run.cfg.replacePolicy || HasTag(server.book.tags, run.cfg.replacementTag)))
  }

  lemma NewBookIsFeasible(u: ArtifactName.Unicode, server: Server, run: Run, p: Policy, at: Point)
    requires at.rows == EMPTY && at.server == server && MayTouchAll(server, run, p)
    requires UniqueIds(server.book.files) && MainIsUsable(server, p) && !HasTag(server.book.tags, run.cfg.ignoreTag)
    ensures FeasibleAt(u, run, p, at) && forall f :: f in p.outputs ==> NeedsWork(u, run, p, at, f)
  {
  }

  /** The first run over a book, with nothing failing: if the main file is there or can be made, and each
      output is missing or may be replaced, the run completes with every output in sync. */
  method FirstRun(u: ArtifactName.Unicode, stamps: (nat, Sha) -> Stamp, calibre: nat -> Sha, server: Server, run: Run, p: Policy)
    returns (w: World, status: Status)
    requires u.Valid() && IdsBelow(server) && ValidRun(run) && run.policy == Some(p) && MayTouchAll(server, run, p)
    requires UniqueIds(server.book.files) && MainIsUsable(server, p) && !HasTag(server.book.tags, run.cfg.ignoreTag)
    ensures status.Completed? && w.rows.book.Some? && !w.rows.Row().inProgress && w.h.orders == [OrdersOf(run)]
    ensures forall f :: f in p.outputs ==> InSync(w.u, w.rows, w.server, p.main, f)
    ensures Untied(w.h, w.server.book.tags, run.cfg.failedTag)
  {
    w := new World(u, stamps, calibre, server, {});
    ghost var at := Here(w);
    NewBookIsFeasible(u, server, run, p, at);
    status := RunThrough(w, run, p);
    assert forall f :: f in p.outputs ==> NeedsWork(u, run, p, at, f);
  }

  /** Later runs over a settled book upload nothing and delete nothing, whatever fails in them. */
  method StaySettled(w: World, episodes: seq<Episode>, p: Policy)
    requires w.OK() && w.u.Valid() && Settled(w.u, w.rows, w.server, p)
    requires forall e :: e in episodes ==> Steadfast(e, p) && !e.run.force
    modifies w
    ensures w.OK() && Settled(w.u, w.rows, w.server, p) && w.h.orders == OrdersAfter(old(w.h.orders), episodes)
    ensures w.h.uploads == old(w.h.uploads) && w.h.deletes == old(w.h.deletes)
    ensures w.server.book.files == old(w.server.book.files) && w.rows.derived == old(w.rows.derived) && w.rows.intents == old(w.rows.intents)
  {
    ghost var s := Start(Here(w), true, false);
    for k := 0 to |episodes|
      invariant w.OK() && Settled(w.u, w.rows, w.server, p) && NoWorkSince(Here(w), s)
      invariant w.h.orders == OrdersAfter(old(w.h.orders), episodes[..k])
    {
      assert episodes[k] in episodes && episodes[..k + 1][..k] == episodes[..k];
      w.Restart(episodes[k].script);
      var status := Sync(w, episodes[k].run);
    }
    assert episodes[..|episodes|] == episodes;
  }

  // ---- Where convergence stops short ----

  lemma MissingOutputIsWork(u: ArtifactName.Unicode, rows: Rows, server: Server, p: Policy, f: Format)
    requires f in p.outputs && FilesFor(server.book.files, f) == []
    ensures !NothingToDo(u, rows, server, p)
  {
    if HasMain(server, p.main) {
      PlanShape(NextBasis(u, rows, server, p.main), server.book.files, f);
    }
  }

  /** A cleanup that completes can leave an output missing that somebody else removed meanwhile: the
      tag of the interrupted run is spent, and the run reports success without looking at the
      outputs. */
  method CleanupCompletesUnsettled(w: World, run: Run, p: Policy, f: Format) returns (status: Status)
    requires w.OK() && w.u.Valid() && ValidRun(run) && w.rows.Row().pendingTag != ""
    requires f in p.outputs && FilesFor(w.server.book.files, f) == []
    modifies w
    ensures w.OK() && status.Completed? && !Settled(w.u, w.rows, w.server, p) && w.h.orders == old(w.h.orders) + [OrdersOf(run)]
    ensures w.rows.derived == old(w.rows.derived) && w.server.book.files == old(w.server.book.files)
  {
    w.Restart([]);
    ghost var s := Now(w);
    MissingOutputIsWork(w.u, w.rows, w.server, p, f);
    status := Sync(w, run);
    CleanupSettles(w.u, w.stamps, run, p, status, s, Here(w));
  }
}
