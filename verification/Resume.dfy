/** What an interrupted replacement leaves behind when nobody else touches the book: evidence
    that fits the book, and at most one file of the owner's format, its old or its new one. */
module Resume {
  import opened Inventory
  import opened Checkpoints
  import opened ArtifactName
  import Planner
  import opened World
  import Recovery

  /** The owner's format is as before the delete, empty, or holds exactly the upload intended. */
  ghost predicate OwnerFiles(i: Intent, files: seq<File>) {
    var found := FilesFor(files, i.format);
    || found == []
    || (|found| == 1 && (SameIdentity(found[0], Recovery.TargetFile(i.target)) || IsIntended(i, found[0])))
  }

  ghost predicate IsIntended(i: Intent, x: File) {
    x.id != i.target.id && x.name == i.outputName && Some(x.content) == i.outputSha
  }

  /** The intent's evidence describes the canonical file c and the rest of the listing. */
  ghost predicate EvidenceFits(u: Unicode, i: Intent, server: Server, main: Format) {
    var files := server.book.files;
    && UniqueIds(files) && IdsBelow(server)
    && i.format != main && ValidFormat(i.format)
    && |FilesFor(files, main)| == 1
    && var c := FilesFor(files, main)[0];
    && i.sourceFileId == c.id && i.sourceFileName == c.name && i.sourceFormat == main
    && i.sourceSha == Some(c.content) && i.outputSha.Some?
    && i.outputName == OutputName(u, Planner.CanonicalName(u, c, main), i.format)
    && i.gen == V1(Some(c.content), i.outputName, i.format)
    && i.stable == Some(StableFingerprint(files, i.format))
    && i.target.id != 0 && i.target.id != c.id && i.target.id < server.nextId && i.target.format == i.format
  }

  ghost predicate RecoverableIntent(u: Unicode, i: Intent, server: Server, main: Format) {
    EvidenceFits(u, i, server, main) && OwnerFiles(i, server.book.files)
  }

  /** Every unfinished replacement can be finished. */
  ghost predicate Recoverable(u: Unicode, rows: Rows, server: Server, main: Format) {
    forall f :: Owns(rows, f) ==> RecoverableIntent(u, rows.intents[f], server, main)
  }

  lemma SameFilesSameEvidence(u: Unicode, i: Intent, a: Server, b: Server, main: Format)
    requires EvidenceFits(u, i, a, main)
    requires Others(a.book.files, i.format) == Others(b.book.files, i.format)
    requires UniqueIds(b.book.files) && IdsBelow(b) && a.nextId <= b.nextId
    ensures EvidenceFits(u, i, b, main)
  {
    OtherFormatsAgree(a.book.files, b.book.files, i.format, main);
  }

  lemma DropIsRecoverable(u: Unicode, i: Intent, server: Server, main: Format)
    requires EvidenceFits(u, i, server, main)
    requires |FilesFor(server.book.files, i.format)| == 1 && FilesFor(server.book.files, i.format)[0].id == i.target.id
    ensures var server' := DropFile(server, i.target.id);
            && RecoverableIntent(u, i, server', main)
            && FilesFor(server'.book.files, i.format) == []
            && Others(server'.book.files, i.format) == Others(server.book.files, i.format)
  {
    var x := FilesFor(server.book.files, i.format)[0];
    var server' := DropFile(server, i.target.id);
    FindOnlyFormat(server.book.files, i.format, x);
    DeleteOnly(server.book.files, x);
    forall y | y in server'.book.files ensures y.id < server'.nextId {
      InRemoved(server.book.files, i.target.id, y);
    }
    SameFilesSameEvidence(u, i, server, server', main);
  }

  lemma FindOnlyFormat(files: seq<File>, format: Format, x: File)
    requires |FilesFor(files, format)| == 1 && FilesFor(files, format)[0] == x
    ensures FilesFor(files, format) == [x] && x in files && x.format == format
  {
    InFilters(files, format, x);
  }

  /** What the server lists after an upload into an empty format. */
  lemma UploadedFile(u: Unicode, stamps: (nat, Sha) -> Stamp, server: Server, format: Format, name: string, content: Sha)
    requires u.Valid() && ValidFormat(format) && IdsBelow(server)
    ensures var x := NewFile(stamps, server.nextId, format, OutputName(u, name, format), content);
            var server' := AddFile(server, x);
            && x.name == OutputName(u, name, format) && x.id == server.nextId && x.id != 0
            && x.content == content && x.format == format
            && FilesFor(server'.book.files, format) == FilesFor(server.book.files, format) + [x]
            && Others(server'.book.files, format) == Others(server.book.files, format)
            && IdsBelow(server') && (UniqueIds(server.book.files) ==> UniqueIds(server'.book.files))
  {
    ThreeLayersAreOne(u, name, format);
    var x := NewFile(stamps, server.nextId, format, OutputName(u, name, format), content);
    AddOnly(server.book.files, x);
  }

  lemma AddIsRecoverable(u: Unicode, stamps: (nat, Sha) -> Stamp, i: Intent, server: Server, main: Format)
    requires u.Valid() && EvidenceFits(u, i, server, main) && FilesFor(server.book.files, i.format) == []
    ensures i.outputSha.Some?
    ensures var x := NewFile(stamps, server.nextId, i.format, i.outputName, i.outputSha.value);
            var server' := AddFile(server, x);
            && RecoverableIntent(u, i, server', main)
            && Others(server'.book.files, i.format) == Others(server.book.files, i.format)
            && FilesFor(server'.book.files, i.format) == [x] && IsIntended(i, x)
  {
    var c := FilesFor(server.book.files, main)[0];
    UploadedFile(u, stamps, server, i.format, Planner.CanonicalName(u, c, main), i.outputSha.value);
    var x := NewFile(stamps, server.nextId, i.format, i.outputName, i.outputSha.value);
    SameFilesSameEvidence(u, i, server, AddFile(server, x), main);
  }
}
