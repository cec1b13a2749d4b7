/** The durable rows of one book (state.go): what each store method does to them as one
    atomic transition, and the invariant that makes recovery unambiguous. */
module Checkpoints {
  import opened Inventory

  /** A generation fingerprint: absent, one the service computes, another text that looks like one
      (the version and 64 hex digits), or any other text. The digest is injective, so the computed
      one carries the values that go into it. */
  datatype Gen = NoGen | Foreign | Lookalike(text: string) | V1(content: Option<Sha>, name: string, format: Format)

  /** The file a prepared replacement is about to delete; id 0 means there is none. */
  datatype Target = Target(id: nat, name: string, format: Format, kind: string)

  const NO_TARGET := Target(0, "", "", "")

  datatype Intent = Intent(format: Format, outputName: string, outputSha: Option<Sha>, sourceSha: Option<Sha>, gen: Gen,
                           sourceFileId: nat, sourceFileName: string, sourceFormat: Format,
                           stable: Option<seq<FileKey>>, tag: string, target: Target)

  datatype Derived = Derived(format: Format, fileId: nat, sourceSha: Option<Sha>, outputSha: Option<Sha>, gen: Gen, mtime: Option<int>)

  datatype BookRow = BookRow(mainFormat: Format, canonicalFileId: nat, canonicalName: string, canonicalSha: Option<Sha>,
                             canonicalMtime: Option<int>, pendingTag: string, ipTag: string, inProgress: bool)

  /** What the store reports for a book it has never seen. */
  const NO_ROW := BookRow("", 0, "", None, None, "", "", false)

  datatype Rows = Rows(book: Option<BookRow>, derived: map<Format, Derived>, intents: map<Format, Intent>) {
    function Row(): BookRow {
      if book.Some? then book.value else NO_ROW
    }
  }

  const EMPTY := Rows(None, map[], map[])

  // ---- The store methods; None means the method fails and changes nothing ----

  function SetBook(rows: Rows, value: BookRow): Rows {
    rows.(book := Some(value))
  }

  predicate ValidIntent(i: Intent) {
    i.format != "" && i.outputName != "" && i.outputSha.Some? && i.sourceSha.Some? && !i.gen.NoGen?
  }

  function SetIntent(rows: Rows, i: Intent): Option<Rows> {
    if ValidIntent(i) && rows.book.Some? then Some(rows.(intents := rows.intents[i.format := i])) else None
  }

  /** The intent, its target and the destructive phase in one transaction. */
  function Prepare(rows: Rows, i: Intent): Option<Rows> {
    if ValidIntent(i) && i.target.id != 0 && i.target.format != "" && rows.book.Some? then
      var row := rows.book.value;
      Some(rows.(intents := rows.intents[i.format := i],
                 book := Some(row.(inProgress := true, ipTag := if i.tag != "" then i.tag else row.ipTag))))
    else None
  }

  /** The derivative becomes authoritative, its intent and the phase go, a tag stays. */
  function Commit(rows: Rows, d: Derived, tag: string): Option<Rows> {
    if d.format != "" && rows.book.Some? then
      var row := rows.book.value;
      Some(Rows(Some(row.(inProgress := false, ipTag := if tag != "" then tag else row.ipTag)),
                rows.derived[d.format := d], rows.intents - {d.format}))
    else None
  }

  /** From a to b, a row of format f was committed. */
  predicate CommitStep(a: Rows, b: Rows, f: Format, tag: string) {
    f in b.derived && b.derived[f].format == f && Commit(a, b.derived[f], tag) == Some(b)
  }

  function MarkPending(rows: Rows, tag: string): Option<Rows> {
    if tag != "" && rows.book.Some? && (rows.book.value.ipTag == tag || rows.book.value.pendingTag == tag) then
      Some(rows.(book := Some(rows.book.value.(pendingTag := tag, ipTag := "", inProgress := false))))
    else None
  }

  function ClearPending(rows: Rows, tag: string): Option<Rows> {
    if tag == "" then None
    else if rows.book.Some? && rows.book.value.pendingTag == tag then
      Some(rows.(book := Some(rows.book.value.(pendingTag := ""))))
    else Some(rows)
  }

  /** What the poller asks before it honours an ignore tag. */
  predicate HasPendingReplacement(rows: Rows) {
    rows.Row().pendingTag != "" || rows.Row().inProgress
  }

  // ---- The invariant ----

  /** The intent of format f carries a replacement target. */
  predicate Owns(rows: Rows, f: Format) { f in rows.intents && rows.intents[f].target.id != 0 }

  /** An upload of this format was begun, and no run has seen what became of it. */
  predicate Unsettled(rows: Rows, f: Format) { f in rows.intents && !Owns(rows, f) }

  ghost predicate Unowned(rows: Rows) { forall f :: !Owns(rows, f) }

  ghost predicate IntentOK(rows: Rows, f: Format)
    requires f in rows.intents
  {
    var i := rows.intents[f];
    && f != "" && i.format == f
    && (i.target.id != 0 ==> i.target.format == f)
    && (i.tag != "" ==> i.target.id != 0 && rows.Row().ipTag == i.tag)
  }

  ghost predicate OneOwner(rows: Rows) {
    forall f, g :: Owns(rows, f) && Owns(rows, g) ==> f == g
  }

  ghost predicate RowsOK(rows: Rows) {
    && (rows.book.None? ==> rows.intents == map[])
    && (forall f {:trigger IntentOK(rows, f)} :: f in rows.intents ==> IntentOK(rows, f))
    && (rows.Row().inProgress <==> exists f :: Owns(rows, f))
    && OneOwner(rows)
    && (rows.Row().pendingTag != "" ==> !rows.Row().inProgress && rows.Row().ipTag == "")
  }

  lemma EmptyOK()
    ensures RowsOK(EMPTY)
  {
  }

  /** Any two rows differ only in the canonical source they name. */
  predicate SamePhase(a: BookRow, b: BookRow) {
    a.pendingTag == b.pendingTag && a.ipTag == b.ipTag && a.inProgress == b.inProgress
  }

  lemma SetBookKeepsPhase(rows: Rows, value: BookRow)
    requires RowsOK(rows) && SamePhase(rows.Row(), value)
    ensures RowsOK(SetBook(rows, value))
    ensures forall f :: Owns(SetBook(rows, value), f) == Owns(rows, f)
  {
    var rows' := SetBook(rows, value);
    forall f ensures Owns(rows', f) == Owns(rows, f) {}
    forall f | f in rows'.intents ensures IntentOK(rows', f) {
      assert IntentOK(rows, f);
    }
    assert rows'.Row().inProgress <==> exists f :: Owns(rows', f) by {
      if f :| Owns(rows, f) { assert Owns(rows', f); }
      if f :| Owns(rows', f) { assert Owns(rows, f); }
    }
  }

  /** An idle row may change its tags: no intent depends on them. */
  lemma IdleOK(rows: Rows, value: BookRow)
    requires RowsOK(rows) && !rows.Row().inProgress && !value.inProgress
    requires value.pendingTag != "" ==> value.ipTag == ""
    ensures RowsOK(SetBook(rows, value))
    ensures forall f :: !Owns(SetBook(rows, value), f)
  {
    var rows' := SetBook(rows, value);
    forall f ensures !Owns(rows', f) { assert !Owns(rows, f); }
    forall f | f in rows'.intents ensures IntentOK(rows', f) {
      assert IntentOK(rows, f) && !Owns(rows, f);
    }
  }

  ghost predicate FreshIntent(i: Intent) {
    i.format != "" && i.target == NO_TARGET && i.tag == ""
  }

  /** An intent without a target is harmless unless it replaces one that has it. */
  lemma SetFreshIntentOK(rows: Rows, i: Intent)
    requires RowsOK(rows) && FreshIntent(i) && !Owns(rows, i.format) && SetIntent(rows, i).Some?
    ensures RowsOK(SetIntent(rows, i).value)
    ensures forall f :: Owns(SetIntent(rows, i).value, f) == Owns(rows, f)
  {
    var rows' := SetIntent(rows, i).value;
    forall f ensures Owns(rows', f) == Owns(rows, f) {}
    forall f | f in rows'.intents ensures IntentOK(rows', f) {
      if f != i.format { assert IntentOK(rows, f); }
    }
    assert rows'.Row().inProgress <==> exists f :: Owns(rows', f) by {
      if f :| Owns(rows, f) { assert Owns(rows', f); }
      if f :| Owns(rows', f) { assert Owns(rows, f); }
    }
  }

  /** The owner may renew its intent as long as the evidence stays. */
  lemma RenewIntentOK(rows: Rows, i: Intent)
    requires RowsOK(rows) && Owns(rows, i.format) && SetIntent(rows, i).Some?
    requires i.target == rows.intents[i.format].target && i.tag == rows.intents[i.format].tag
    ensures RowsOK(SetIntent(rows, i).value)
    ensures forall f :: Owns(SetIntent(rows, i).value, f) == Owns(rows, f)
  {
    var rows' := SetIntent(rows, i).value;
    assert IntentOK(rows, i.format);
    forall f ensures Owns(rows', f) == Owns(rows, f) {}
    forall f | f in rows'.intents ensures IntentOK(rows', f) {
      if f != i.format { assert IntentOK(rows, f); }
    }
    assert rows'.Row().inProgress <==> exists f :: Owns(rows', f) by {
      if f :| Owns(rows, f) { assert Owns(rows', f); }
      if f :| Owns(rows', f) { assert Owns(rows, f); }
    }
  }

  /** No other format owns the phase, and the tag does not contradict the recorded one. */
  ghost predicate MayPrepare(rows: Rows, i: Intent) {
    && (forall f :: Owns(rows, f) ==> f == i.format)
    && i.target.format == i.format
    && (i.tag != "" ==> rows.Row().ipTag in {"", i.tag})
    && rows.Row().pendingTag == ""
  }

  lemma PrepareOK(rows: Rows, i: Intent)
    requires RowsOK(rows) && MayPrepare(rows, i) && Prepare(rows, i).Some?
    ensures RowsOK(Prepare(rows, i).value)
    ensures forall f :: Owns(Prepare(rows, i).value, f) <==> f == i.format
  {
    var rows' := Prepare(rows, i).value;
    forall f ensures Owns(rows', f) <==> f == i.format {
      if f != i.format && Owns(rows', f) { assert Owns(rows, f); }
    }
    assert Owns(rows', i.format);
    forall f | f in rows'.intents ensures IntentOK(rows', f) {
      if f != i.format {
        assert IntentOK(rows, f) && !Owns(rows, f);
      }
    }
  }

  lemma CommitOK(rows: Rows, d: Derived, tag: string)
    requires RowsOK(rows) && Commit(rows, d, tag).Some? && rows.Row().pendingTag == ""
    requires forall f :: Owns(rows, f) ==> f == d.format
    ensures RowsOK(Commit(rows, d, tag).value)
    ensures forall f :: !Owns(Commit(rows, d, tag).value, f)
  {
    var rows' := Commit(rows, d, tag).value;
    forall f ensures !Owns(rows', f) {
      if Owns(rows', f) { assert Owns(rows, f); }
    }
    forall f | f in rows'.intents ensures IntentOK(rows', f) {
      assert IntentOK(rows, f) && !Owns(rows, f);
    }
  }

  // ---- Who owns an unfinished phase ----

  /** An intent that names its own format and a target of that format. */
  predicate Prepared(intents: map<Format, Intent>, f: Format) {
    f in intents && intents[f].target.id != 0 && intents[f].target.format != "" && intents[f].target.format == f
  }

  /** The format whose intent owns the unfinished phase; not ok when that is ambiguous. */
  method ReplacementOwner(row: BookRow, intents: map<Format, Intent>) returns (owner: Option<Format>, ok: bool)
    ensures !row.inProgress ==> owner.None? && ok
    ensures row.inProgress && ok ==>
              && owner.Some? && owner.value in intents
              && (forall f :: Prepared(intents, f) ==> f == owner.value)
              && (Prepared(intents, owner.value) || |intents| == 1)
    ensures row.inProgress && !ok ==>
              || (exists f, g :: f != g && Prepared(intents, f) && Prepared(intents, g))
              || ((forall f :: !Prepared(intents, f)) && |intents| != 1)
  {
    if !row.inProgress {
      return None, true;
    }
    var left := intents.Keys;
    var prepared: seq<Format> := [];
    while left != {}
      invariant left <= intents.Keys
      invariant forall f :: f in prepared <==> f !in left && Prepared(intents, f)
      invariant forall i, j :: 0 <= i < j < |prepared| ==> prepared[i] != prepared[j]
      decreases |left|
    {
      var f :| f in left;
      left := left - {f};
      if Prepared(intents, f) {
        prepared := prepared + [f];
      }
    }
    if |prepared| == 1 {
      assert prepared[0] in prepared;
      return Some(prepared[0]), true;
    }
    if |prepared| > 1 {
      assert prepared[0] in prepared && prepared[1] in prepared;
      return None, false;
    }
    if |intents| == 1 {
      var f :| f in intents;
      return Some(f), true;
    }
    return None, false;
  }

  /** In a good store recovery is never in doubt about the owner. */
  method RecoverOwner(rows: Rows) returns (owner: Option<Format>)
    requires RowsOK(rows)
    ensures owner.Some? <==> rows.Row().inProgress
    ensures forall f :: Owns(rows, f) <==> owner == Some(f)
  {
    var ok;
    owner, ok := ReplacementOwner(rows.Row(), rows.intents);
    PhaseHasOneOwner(rows);
  }

  /** The phase flag is set exactly when one intent, and only one, carries a target. */
  lemma PhaseHasOneOwner(rows: Rows)
    requires RowsOK(rows)
    ensures rows.Row().inProgress <==> exists f :: Owns(rows, f) && forall g :: Owns(rows, g) ==> g == f
    ensures forall f :: Owns(rows, f) <==> Prepared(rows.intents, f)
  {
    forall f ensures Owns(rows, f) <==> Prepared(rows.intents, f) {
      if Owns(rows, f) { assert IntentOK(rows, f); }
    }
    if rows.Row().inProgress {
      var f :| Owns(rows, f);
      assert forall g :: Owns(rows, g) ==> g == f;
    }
  }
}
