/** Each effect keeps the rows and the history good, under the condition its caller meets. */
module Safety {
  import opened Inventory
  import opened Checkpoints
  import opened World

  /** New rows under the same history: the same derivatives, and owners that were owners. */
  lemma SameOwnersKeepHistory(rows: Rows, h: History, rows': Rows)
    requires HistoryOK(rows, h) && rows'.derived == rows.derived && RowTagsOK(rows', h.usable, h.spent)
    requires forall f :: Owns(rows', f) ==> Owns(rows, f) && rows'.intents[f].target.id == rows.intents[f].target.id
    requires forall f :: f in h.removed ==> Owns(rows', f)
    ensures HistoryOK(rows', h)
  {
    forall f | Owns(rows', f) ensures Granted(h, f, rows'.intents[f].target.id) {
      assert Granted(h, f, rows.intents[f].target.id);
    }
    forall f | f in rows'.derived ensures rows'.derived[f].format == f && Backed(h.commits, rows'.derived[f]) {
      assert Backed(h.commits, rows.derived[f]);
    }
  }

  lemma SetBookKeepsGood(rows: Rows, h: History, value: BookRow)
    requires Good(rows, h) && SamePhase(rows.Row(), value)
    ensures Good(SetBook(rows, value), h)
  {
    SetBookKeepsPhase(rows, value);
    var rows' := SetBook(rows, value);
    assert forall f :: f in h.removed ==> Owns(rows, f) && Owns(rows', f);
    SameOwnersKeepHistory(rows, h, rows');
  }

  /** An idle book may have its tags rewritten by tags that are usable and used. */
  lemma IdleKeepsGood(rows: Rows, h: History, value: BookRow)
    requires Good(rows, h) && !rows.Row().inProgress && !value.inProgress
    requires value.pendingTag != "" ==> value.ipTag == "" && value.pendingTag in h.usable && value.pendingTag in h.spent
    requires value.ipTag != "" ==> value.ipTag in h.usable && value.ipTag in h.spent
    ensures Good(SetBook(rows, value), h)
  {
    IdleOK(rows, value);
    assert forall f :: f in h.removed ==> Owns(rows, f);
    SameOwnersKeepHistory(rows, h, SetBook(rows, value));
  }

  lemma SetFreshIntentKeepsGood(rows: Rows, h: History, i: Intent)
    requires Good(rows, h) && FreshIntent(i) && !Owns(rows, i.format) && SetIntent(rows, i).Some?
    ensures Good(SetIntent(rows, i).value, h)
  {
    SetFreshIntentOK(rows, i);
    var rows' := SetIntent(rows, i).value;
    assert forall f :: f in h.removed ==> Owns(rows, f) && Owns(rows', f);
    SameOwnersKeepHistory(rows, h, rows');
  }

  lemma RenewIntentKeepsGood(rows: Rows, h: History, i: Intent)
    requires Good(rows, h) && Owns(rows, i.format) && SetIntent(rows, i).Some?
    requires i.target == rows.intents[i.format].target && i.tag == rows.intents[i.format].tag
    ensures Good(SetIntent(rows, i).value, h)
  {
    RenewIntentOK(rows, i);
    var rows' := SetIntent(rows, i).value;
    assert forall f :: f in h.removed ==> Owns(rows, f) && Owns(rows', f);
    SameOwnersKeepHistory(rows, h, rows');
  }

  /** One more grant. */
  lemma GrantKeepsEffects(h: History, g: Grant)
    requires EffectsOK(h) && GrantOK(g, h.orders, h.usable)
    requires Original(g, h.orders, h.usable) || Granted(h, g.format, g.target)
    ensures var h' := h.(grants := h.grants + [g]); EffectsOK(h') && Granted(h', g.format, g.target) && Cleared(h'.grants, g.run, g.format, g.target)
  {
    var h' := h.(grants := h.grants + [g]);
    assert Grows(h, h') && g in h'.grants;
    if !Original(g, h.orders, h.usable) {
      StillGranted(h, h', g.format, g.target);
    }
    forall x | x in h'.grants ensures GrantOK(x, h'.orders, h'.usable) && Granted(h', x.format, x.target) {
      if x != g {
        assert GrantOK(x, h.orders, h.usable);
        StillGranted(h, h', x.format, x.target);
      }
    }
    DeletesStayOK(h, h');
  }

  lemma PreparedOwners(rows: Rows, h: History, b: History, i: Intent, rows': Rows)
    requires Good(rows, h) && MayPrepare(rows, i) && Prepare(rows, i) == Some(rows')
    requires i.tag != "" ==> i.tag in h.usable
    requires b.removed == h.removed && b.usable == h.usable && b.spent == h.spent && Granted(b, i.format, i.target.id)
    ensures RowsOK(rows') && RowTagsOK(rows', b.usable, b.spent) && rows'.derived == rows.derived
    ensures forall f :: Owns(rows', f) ==> Granted(b, f, rows'.intents[f].target.id)
    ensures forall f :: f in b.removed ==> Owns(rows', f)
  {
    PrepareOK(rows, i);
    forall f | Owns(rows', f) ensures Granted(b, f, rows'.intents[f].target.id) {
      assert f == i.format;
    }
    forall f | f in b.removed ensures Owns(rows', f) {
      assert Owns(rows, f);
    }
  }

  lemma PrepareKeepsGood(rows: Rows, h: History, i: Intent, g: Grant)
    requires Good(rows, h) && MayPrepare(rows, i) && Prepare(rows, i).Some?
    requires g == GrantNow(rows, i, h) && GrantOK(g, h.orders, h.usable)
    requires i.tag != "" ==> i.tag in h.usable
    ensures var h' := h.(grants := h.grants + [g]);
            Good(Prepare(rows, i).value, h') && Cleared(h'.grants, LatestRun(h.orders), i.format, i.target.id)
  {
    var rows', h' := Prepare(rows, i).value, h.(grants := h.grants + [g]);
    if Renewal(g) {
      assert Granted(h, i.format, i.target.id);
    }
    GrantKeepsEffects(h, g);
    PreparedOwners(rows, h, h', i, rows');
  }

  lemma OneMoreDelete(h: History, b: History, d: DeleteRecord, f: Format)
    requires DeletesOK(h) && Grows(h, b) && b.grants == h.grants && b.deletes == h.deletes + [d]
    requires d.id != 0 && d.rows.Row().inProgress && d.id != d.rows.Row().canonicalFileId
    requires f in OwnersOf(d.rows, d.id) && Granted(h, f, d.id) && Cleared(h.grants, d.run, f, d.id)
    ensures DeletesOK(b)
  {
    StillGranted(h, b, f, d.id);
    assert DeleteOK(d, b);
    forall x | x in b.deletes ensures DeleteOK(x, b) {
      if x != d { StillDeleteOK(h, b, x); }
    }
  }

  lemma OneMoreTrace(h: History, b: History, d: DeleteRecord)
    requires TracesOK(h) && b.orders == h.orders && b.shown == h.shown && b.usable == h.usable && b.deletes == h.deletes + [d]
    requires h.removed <= b.removed && b.vanished == h.vanished + d.gone && d.gone * OwnersOf(d.rows, d.id) <= b.removed
    ensures TracesOK(b)
  {
    assert d in b.deletes;
    forall f | f in b.vanished ensures f in b.removed || Swapped(b.deletes, f) {
      if f in d.gone {
        assert f in OwnersOf(d.rows, d.id) ==> f in d.gone * OwnersOf(d.rows, d.id);
      } else if Swapped(h.deletes, f) {
        var x :| x in h.deletes && f in x.gone && f !in OwnersOf(x.rows, x.id);
        assert x in b.deletes;
      }
    }
  }

  lemma DeleteKeepsGood(rows: Rows, h: History, f: Format, id: nat, did: bool, gone: set<Format>)
    requires Good(rows, h) && Owns(rows, f) && rows.intents[f].target.id == id && id != rows.Row().canonicalFileId
    requires Cleared(h.grants, LatestRun(h.orders), f, id) && (!did ==> gone == {})
    ensures Good(rows, Deleting(h, id, rows, did, gone))
  {
    var d, h' := DeleteRecord(LatestRun(h.orders), id, rows, gone), Deleting(h, id, rows, did, gone);
    assert f in OwnersOf(rows, id) && Granted(h, f, id);
    OneMoreDelete(h, h', d, f);
    GrantsStayOK(h, h');
    OneMoreTrace(h, h', d);
    HistoryStaysOK(rows, h, h');
  }

  lemma UploadKeepsGood(rows: Rows, h: History, r: UploadRecord)
    requires Good(rows, h) && UploadOK(r, h.orders)
    ensures Good(rows, h.(uploads := h.uploads + [r]))
  {
    var h' := h.(uploads := h.uploads + [r]);
    EffectsStayOK(h, h');
    HistoryStaysOK(rows, h, h');
  }

  lemma RemovalKeepsGood(rows: Rows, h: History, r: TagRemoval)
    requires Good(rows, h) && RemovalOK(r, h.spent, h.failureTags)
    ensures Good(rows, h.(removals := h.removals + [r]))
  {
    var h' := h.(removals := h.removals + [r]);
    EffectsStayOK(h, h');
    HistoryStaysOK(rows, h, h');
  }

  lemma CommitKeepsRows(rows: Rows, h: History, b: History, d: Derived, tag: string, rows': Rows)
    requires Good(rows, h) && Commit(rows, d, tag) == Some(rows') && rows.Row().pendingTag == ""
    requires forall f :: Owns(rows, f) ==> f == d.format
    requires (tag != "" ==> tag in h.usable) && (rows.Row().inProgress || tag in {"", rows.Row().ipTag})
    requires b.usable == h.usable && b.spent == (if rows.Row().inProgress then h.spent + {rows'.Row().ipTag} else h.spent)
    requires b.removed <= h.removed - {d.format}
    ensures RowsOK(rows') && RowTagsOK(rows', b.usable, b.spent) && b.removed == {}
    ensures forall f :: !Owns(rows', f)
  {
    CommitOK(rows, d, tag);
    assert d.format in rows'.derived;
    assert forall f :: f in h.removed ==> Owns(rows, f) && f == d.format;
  }

  lemma CommitIsBacked(rows: Rows, h: History, b: History, d: Derived, c: CommitRecord, rows': Rows)
    requires HistoryOK(rows, h) && b.commits == h.commits + [c] && c.row == d && rows'.derived == rows.derived[d.format := d]
    ensures forall f :: f in rows'.derived ==> rows'.derived[f].format == f && Backed(b.commits, rows'.derived[f])
  {
    assert c in b.commits;
    forall f | f in rows'.derived ensures rows'.derived[f].format == f && Backed(b.commits, rows'.derived[f]) {
      if f != d.format { StillBacked(h.commits, b.commits, rows.derived[f]); }
    }
  }

  lemma CommitKeepsGood(rows: Rows, h: History, d: Derived, tag: string)
    requires Good(rows, h) && Commit(rows, d, tag).Some? && rows.Row().pendingTag == ""
    requires forall f :: Owns(rows, f) ==> f == d.format
    requires CommitRecordOK(CommitNow(rows, d, h), h.orders) && (tag != "" ==> tag in h.usable)
    requires rows.Row().inProgress || tag in {"", rows.Row().ipTag}
    ensures Good(Commit(rows, d, tag).value, Committing(rows, Commit(rows, d, tag).value, d, h))
  {
    var rows' := Commit(rows, d, tag).value;
    var h' := Committing(rows, rows', d, h);
    CommitKeepsRows(rows, h, h', d, tag, rows');
    CommitIsBacked(rows, h, h', d, CommitNow(rows, d, h), rows');
    forall r | r in h'.removals ensures RemovalOK(r, h'.spent, h'.failureTags) {
      assert RemovalOK(r, h.spent, h.failureTags);
    }
    EffectsStayOK(h, h');
  }

  lemma MarkPendingKeepsGood(rows: Rows, h: History, tag: string)
    requires Good(rows, h) && MarkPending(rows, tag).Some? && !rows.Row().inProgress
    ensures Good(MarkPending(rows, tag).value, h)
  {
    IdleKeepsGood(rows, h, rows.Row().(pendingTag := tag, ipTag := "", inProgress := false));
  }

  lemma ClearPendingKeepsGood(rows: Rows, h: History, tag: string)
    requires Good(rows, h) && ClearPending(rows, tag).Some?
    ensures Good(ClearPending(rows, tag).value, h)
  {
    if rows.Row().pendingTag == tag {
      IdleKeepsGood(rows, h, rows.Row().(pendingTag := ""));
    }
  }
}
