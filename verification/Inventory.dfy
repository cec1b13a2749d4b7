/** A book as the server lists it, and the ways the service compares two listings
    (service.go: FindFile, filesForFormat, uniqueFileIDs, sameFileInventory,
    stableInventoryFingerprint, sameFileIdentity). */
module Inventory {

  datatype Option<+T> = None | Some(value: T)

  type Format = string   // a normalized, configured format token
  type Sha = nat         // a content digest; injective, so it stands for the content

  /** One file. An id of 0 is the empty id. `content` is what a download of the file
      returns; no comparison below looks at it, the service only learns it by downloading. */
  datatype File = File(id: nat, name: string, format: Format, kind: string, sizeKB: int,
                       advertised: Option<Sha>, mtime: Option<int>, content: Sha)

  datatype Book = Book(files: seq<File>, tags: set<string>)

  /** The fields two listings are compared by. */
  datatype FileKey = FileKey(id: nat, name: string, format: Format, kind: string, sizeKB: int, advertised: Option<Sha>)

  function KeyOf(f: File): FileKey { FileKey(f.id, f.name, f.format, f.kind, f.sizeKB, f.advertised) }

  /** Two listings are compared by everything in them but the time stamps. */
  lemma KeyIsExact(a: File, b: File)
    ensures KeyOf(a) == KeyOf(b) <==>
              a.id == b.id && a.name == b.name && a.format == b.format && a.kind == b.kind && a.sizeKB == b.sizeKB && a.advertised == b.advertised
  {
  }

  function Keys(files: seq<File>): (ks: seq<FileKey>)
    ensures |ks| == |files|
  {
    seq(|files|, i requires 0 <= i < |files| => KeyOf(files[i]))
  }

  function FilesFor(files: seq<File>, format: Format): seq<File> {
    if files == [] then []
    else (if files[0].format == format then [files[0]] else []) + FilesFor(files[1..], format)
  }

  /** The files of every other format. */
  function Others(files: seq<File>, format: Format): seq<File> {
    if files == [] then []
    else (if files[0].format != format then [files[0]] else []) + Others(files[1..], format)
  }

  function RemoveId(files: seq<File>, id: nat): seq<File> {
    if files == [] then []
    else (if files[0].id != id then [files[0]] else []) + RemoveId(files[1..], id)
  }

  predicate UniqueIds(files: seq<File>) {
    && (forall i :: 0 <= i < |files| ==> files[i].id != 0)
    && (forall i, j :: 0 <= i < j < |files| ==> files[i].id != files[j].id)
  }

  predicate SameIdentity(left: File, right: File) {
    left.id != 0 && left.id == right.id && left.name == right.name && left.format == right.format && left.kind == right.kind
  }

  // ---- FindFile: the first file of a format by name, then by id ----

  predicate StringLess(a: string, b: string) {
    if b == "" then false
    else if a == "" then true
    else a[0] < b[0] || (a[0] == b[0] && StringLess(a[1..], b[1..]))
  }

  predicate ListedBefore(a: File, b: File) {
    StringLess(a.name, b.name) || (a.name == b.name && a.id < b.id)
  }

  function FindFile(files: seq<File>, format: Format): Option<File> {
    if files == [] then None
    else
      var last := files[|files| - 1];
      var selected := FindFile(files[..|files| - 1], format);
      if last.format != format then selected
      else if selected.None? || ListedBefore(last, selected.value) then Some(last)
      else selected
  }

  // ---- Whole-listing comparison ----

  /** Two listings hold the same files, in any order and with the same multiplicity. */
  ghost predicate SameInventory(left: seq<File>, right: seq<File>) {
    multiset(Keys(left)) == multiset(Keys(right))
  }

  function Counted(counts: map<FileKey, nat>, key: FileKey): nat {
    if key in counts then counts[key] else 0
  }

  lemma KeysOfPrefix(files: seq<File>, i: nat)
    requires i < |files|
    ensures multiset(Keys(files[..i + 1])) == multiset(Keys(files[..i])) + multiset{KeyOf(files[i])}
  {
    assert Keys(files[..i + 1]) == Keys(files[..i]) + [KeyOf(files[i])];
  }

  lemma KeysOfPrefixAreFewer(files: seq<File>, i: nat)
    requires i <= |files|
    ensures multiset(Keys(files[..i])) <= multiset(Keys(files))
  {
    assert Keys(files) == Keys(files[..i]) + Keys(files[i..]);
  }

  lemma EqualByCount(a: multiset<FileKey>, b: multiset<FileKey>)
    requires a <= b && |a| == |b|
    ensures a == b
  {
    assert b == a + (b - a);
    assert |b - a| == 0;
  }

  ghost predicate Counts(counts: map<FileKey, nat>, m: multiset<FileKey>) {
    forall k :: Counted(counts, k) == m[k]
  }

  lemma CountUp(counts: map<FileKey, nat>, m: multiset<FileKey>, key: FileKey)
    requires Counts(counts, m)
    ensures Counts(counts[key := Counted(counts, key) + 1], m + multiset{key})
  {
    assert Counted(counts, key) == m[key];
    forall k ensures Counted(counts[key := Counted(counts, key) + 1], k) == (m + multiset{key})[k] {
      assert Counted(counts, k) == m[k];
    }
  }

  lemma CountDown(counts: map<FileKey, nat>, all: multiset<FileKey>, seen: multiset<FileKey>, key: FileKey)
    requires seen <= all && Counts(counts, all - seen) && Counted(counts, key) > 0
    ensures seen + multiset{key} <= all
    ensures Counts(counts[key := Counted(counts, key) - 1], all - (seen + multiset{key}))
  {
    assert Counted(counts, key) == (all - seen)[key];
    forall k ensures Counted(counts[key := Counted(counts, key) - 1], k) == (all - (seen + multiset{key}))[k] {
      assert Counted(counts, k) == (all - seen)[k];
    }
  }

  lemma NotSubset(all: multiset<FileKey>, right: multiset<FileKey>, seen: multiset<FileKey>, key: FileKey)
    requires seen <= all && (all - seen)[key] == 0 && seen + multiset{key} <= right
    ensures all != right
  {
    assert right[key] >= seen[key] + 1;
  }

  /** Counting the keys of one side and crossing off those of the other decides it. */
  method SameFileInventory(left: seq<File>, right: seq<File>) returns (same: bool)
    ensures same <==> SameInventory(left, right)
  {
    ghost var all := multiset(Keys(left));
    assert |all| == |left| && |multiset(Keys(right))| == |right|;
    if |left| != |right| {
      return false;
    }
    var counts: map<FileKey, nat> := map[];
    for i := 0 to |left|
      invariant Counts(counts, multiset(Keys(left[..i])))
    {
      var key := KeyOf(left[i]);
      KeysOfPrefix(left, i);
      CountUp(counts, multiset(Keys(left[..i])), key);
      counts := counts[key := Counted(counts, key) + 1];
    }
    assert left[..|left|] == left;
    ghost var seen: multiset<FileKey> := multiset{};
    for j := 0 to |right|
      invariant seen == multiset(Keys(right[..j])) && seen <= all
      invariant Counts(counts, all - seen)
    {
      var key := KeyOf(right[j]);
      KeysOfPrefix(right, j);
      KeysOfPrefixAreFewer(right, j + 1);
      if Counted(counts, key) == 0 {
        NotSubset(all, multiset(Keys(right)), seen, key);
        return false;
      }
      CountDown(counts, all, seen, key);
      counts := counts[key := Counted(counts, key) - 1];
      seen := seen + multiset{key};
    }
    assert right[..|right|] == right;
    EqualByCount(seen, all);
    return true;
  }

  // ---- The fingerprint of everything but one format ----

  predicate KeyLess(a: FileKey, b: FileKey) {
    if a.id != b.id then a.id < b.id
    else if a.name != b.name then StringLess(a.name, b.name)
    else StringLess(a.format, b.format)
  }

  function InsertKey(k: FileKey, sorted: seq<FileKey>): seq<FileKey> {
    if sorted == [] then [k]
    else if KeyLess(sorted[0], k) then [sorted[0]] + InsertKey(k, sorted[1..])
    else [k] + sorted
  }

  function SortKeys(keys: seq<FileKey>): seq<FileKey> {
    if keys == [] then [] else InsertKey(keys[0], SortKeys(keys[1..]))
  }

  /** The digest of a JSON list is injective, so the sorted list stands for the digest. */
  function StableFingerprint(files: seq<File>, excluded: Format): seq<FileKey> {
    SortKeys(Keys(Others(files, excluded)))
  }

  ghost predicate SortedKeys(keys: seq<FileKey>) {
    forall i, j :: 0 <= i < j < |keys| ==> !KeyLess(keys[j], keys[i])
  }

  ghost predicate DistinctKeyIds(keys: seq<FileKey>) {
    forall i, j :: 0 <= i < j < |keys| ==> keys[i].id != keys[j].id
  }

  lemma {:induction false} InsertKeeps(k: FileKey, sorted: seq<FileKey>)
    ensures multiset(InsertKey(k, sorted)) == multiset(sorted) + multiset{k}
  {
    if sorted != [] && KeyLess(sorted[0], k) {
      InsertKeeps(k, sorted[1..]);
      assert sorted == [sorted[0]] + sorted[1..];
    }
  }

  lemma {:induction false} SortKeeps(keys: seq<FileKey>)
    ensures multiset(SortKeys(keys)) == multiset(keys)
  {
    if keys != [] {
      SortKeeps(keys[1..]);
      InsertKeeps(keys[0], SortKeys(keys[1..]));
      assert keys == [keys[0]] + keys[1..];
    }
  }

  /** With distinct ids the comparator is the order of the ids. */
  ghost predicate ById(keys: seq<FileKey>) {
    forall i, j :: 0 <= i < j < |keys| ==> keys[i].id < keys[j].id
  }

  predicate AllAbove(id: nat, keys: seq<FileKey>) {
    forall i :: 0 <= i < |keys| ==> id < keys[i].id
  }

  lemma {:induction false} InsertAbove(id: nat, k: FileKey, sorted: seq<FileKey>)
    requires id < k.id && AllAbove(id, sorted)
    ensures AllAbove(id, InsertKey(k, sorted))
  {
    if sorted != [] {
      InsertAbove(id, k, sorted[1..]);
    }
  }

  lemma FirstIsLeast(first: FileKey, rest: seq<FileKey>)
    requires ById(rest) && AllAbove(first.id, rest)
    ensures ById([first] + rest)
  {
  }

  lemma {:induction false} InsertById(k: FileKey, sorted: seq<FileKey>)
    requires ById(sorted) && forall i :: 0 <= i < |sorted| ==> sorted[i].id != k.id
    ensures ById(InsertKey(k, sorted))
  {
    if sorted != [] && KeyLess(sorted[0], k) {
      InsertById(k, sorted[1..]);
      InsertAbove(sorted[0].id, k, sorted[1..]);
      FirstIsLeast(sorted[0], InsertKey(k, sorted[1..]));
    } else if sorted != [] {
      FirstIsLeast(k, sorted);
    }
  }

  lemma {:induction false} SortById(keys: seq<FileKey>)
    requires DistinctKeyIds(keys)
    ensures ById(SortKeys(keys))
  {
    if keys != [] {
      SortById(keys[1..]);
      SortKeeps(keys[1..]);
      var rest := SortKeys(keys[1..]);
      forall i | 0 <= i < |rest| ensures rest[i].id != keys[0].id {
        assert rest[i] in multiset(keys[1..]);
      }
      InsertById(keys[0], rest);
    }
  }

  /** The first key in id order has the least id. */
  lemma FirstById(keys: seq<FileKey>, k: FileKey)
    requires ById(keys) && k in keys
    ensures keys[0].id <= k.id && (keys[0].id == k.id ==> keys[0] == k)
  {
  }

  lemma SameFirst(a: seq<FileKey>, b: seq<FileKey>)
    requires ById(a) && ById(b) && multiset(a) == multiset(b) && a != []
    ensures b != [] && a[0] == b[0]
  {
    assert a[0] in multiset(b);
    assert b[0] in multiset(a);
    FirstById(a, b[0]);
    FirstById(b, a[0]);
  }

  lemma RestOfBag(keys: seq<FileKey>)
    requires keys != []
    ensures multiset(keys[1..]) == multiset(keys) - multiset{keys[0]}
  {
    assert keys == [keys[0]] + keys[1..];
  }

  lemma {:induction false} ByIdIsUnique(a: seq<FileKey>, b: seq<FileKey>)
    requires ById(a) && ById(b) && multiset(a) == multiset(b)
    ensures a == b
  {
    if a == [] {
      assert |multiset(b)| == 0;
    } else {
      SameFirst(a, b);
      RestOfBag(a);
      RestOfBag(b);
      ByIdIsUnique(a[1..], b[1..]);
      assert a == [a[0]] + a[1..] && b == [b[0]] + b[1..];
    }
  }

  /** sort.Slice promises only some sorted permutation; with unique ids there is just one,
      so the fingerprint does not depend on the sorting algorithm. */
  lemma FingerprintIsTheOnlySorting(files: seq<File>, excluded: Format, sorted: seq<FileKey>)
    requires UniqueIds(files)
    requires multiset(sorted) == multiset(Keys(Others(files, excluded))) && SortedKeys(sorted)
    ensures sorted == StableFingerprint(files, excluded)
  {
    var keys := Keys(Others(files, excluded));
    OthersUnique(files, excluded);
    assert DistinctKeyIds(keys);
    SortById(keys);
    SortKeeps(keys);
    DistinctById(keys, sorted);
    ByIdIsUnique(sorted, SortKeys(keys));
  }

  lemma DistinctById(keys: seq<FileKey>, sorted: seq<FileKey>)
    requires DistinctKeyIds(keys) && multiset(sorted) == multiset(keys) && SortedKeys(sorted)
    ensures ById(sorted)
  {
    forall i, j | 0 <= i < j < |sorted| ensures sorted[i].id < sorted[j].id {
      DistinctStays(keys, sorted, i, j);
      assert !KeyLess(sorted[j], sorted[i]);
    }
  }

  lemma {:induction false} DistinctCount(keys: seq<FileKey>, x: FileKey)
    requires DistinctKeyIds(keys)
    ensures multiset(keys)[x] <= 1
  {
    if keys != [] {
      assert keys == [keys[0]] + keys[1..];
      DistinctCount(keys[1..], x);
      if keys[0] == x && x in keys[1..] {
        assert false;
      }
    }
  }

  lemma TwiceIn(keys: seq<FileKey>, i: nat, j: nat)
    requires i < j < |keys| && keys[i] == keys[j]
    ensures multiset(keys)[keys[i]] >= 2
  {
    assert keys == keys[..j] + keys[j..];
    assert keys[i] in keys[..j] && keys[i] in keys[j..];
  }

  lemma DistinctStays(keys: seq<FileKey>, other: seq<FileKey>, i: nat, j: nat)
    requires DistinctKeyIds(keys) && multiset(other) == multiset(keys) && i < j < |other|
    ensures other[i].id != other[j].id
  {
    assert other[i] in multiset(other) && other[j] in multiset(other);
    assert other[i] in keys && other[j] in keys;
    if other[i] == other[j] {
      TwiceIn(other, i, j);
      DistinctCount(keys, other[i]);
    }
  }

  /** Listings with unique ids have equal fingerprints exactly when, the excluded format
      aside, they hold the same files: the order of the listing does not count. */
  lemma FingerprintDecides(a: seq<File>, b: seq<File>, excluded: Format)
    requires UniqueIds(a) && UniqueIds(b)
    ensures StableFingerprint(a, excluded) == StableFingerprint(b, excluded)
       <==> SameInventory(Others(a, excluded), Others(b, excluded))
  {
    var ka, kb := Keys(Others(a, excluded)), Keys(Others(b, excluded));
    SortKeeps(ka); SortKeeps(kb);
    OthersUnique(a, excluded); OthersUnique(b, excluded);
    assert DistinctKeyIds(ka) && DistinctKeyIds(kb);
    SortById(ka); SortById(kb);
    if multiset(ka) == multiset(kb) {
      ByIdIsUnique(SortKeys(ka), SortKeys(kb));
    }
  }

  /** Adding or removing files of the excluded format leaves the fingerprint alone. */
  lemma FingerprintIgnoresExcluded(a: seq<File>, b: seq<File>, extra: File, excluded: Format)
    requires extra.format == excluded
    ensures StableFingerprint(a + [extra] + b, excluded) == StableFingerprint(a + b, excluded)
  {
    OthersConcat(a + [extra], b, excluded);
    OthersConcat(a, [extra], excluded);
    OthersConcat(a, b, excluded);
    assert [extra][1..] == [];
    assert Others([extra], excluded) == [];
    assert Others(a, excluded) + [] == Others(a, excluded);
  }

  // ---- Facts about the filters ----

  lemma {:induction false} InFilters(files: seq<File>, format: Format, x: File)
    ensures x in FilesFor(files, format) <==> x in files && x.format == format
    ensures x in Others(files, format) <==> x in files && x.format != format
  {
    if files != [] {
      InFilters(files[1..], format, x);
      assert files == [files[0]] + files[1..];
    }
  }

  lemma OthersConcat(a: seq<File>, b: seq<File>, format: Format)
    ensures Others(a + b, format) == Others(a, format) + Others(b, format)
    ensures FilesFor(a + b, format) == FilesFor(a, format) + FilesFor(b, format)
  {
    OthersOfConcat(a, b, format);
    FilesForConcat(a, b, format);
  }

  lemma {:induction false} OthersOfConcat(a: seq<File>, b: seq<File>, format: Format)
    ensures Others(a + b, format) == Others(a, format) + Others(b, format)
  {
    if a == [] {
      assert a + b == b;
    } else {
      var head := if a[0].format != format then [a[0]] else [];
      assert (a + b)[0] == a[0] && (a + b)[1..] == a[1..] + b;
      OthersOfConcat(a[1..], b, format);
      assert head + (Others(a[1..], format) + Others(b, format)) == (head + Others(a[1..], format)) + Others(b, format);
    }
  }

  lemma {:induction false} FilesForConcat(a: seq<File>, b: seq<File>, format: Format)
    ensures FilesFor(a + b, format) == FilesFor(a, format) + FilesFor(b, format)
  {
    if a == [] {
      assert a + b == b;
    } else {
      var head := if a[0].format == format then [a[0]] else [];
      assert (a + b)[0] == a[0] && (a + b)[1..] == a[1..] + b;
      FilesForConcat(a[1..], b, format);
      assert head + (FilesFor(a[1..], format) + FilesFor(b, format)) == (head + FilesFor(a[1..], format)) + FilesFor(b, format);
    }
  }

  lemma {:induction false} OthersUnique(files: seq<File>, format: Format)
    requires UniqueIds(files)
    ensures UniqueIds(Others(files, format))
  {
    if files != [] {
      var rest := Others(files[1..], format);
      assert UniqueIds(files[1..]);
      OthersUnique(files[1..], format);
      forall i | 0 <= i < |rest| ensures rest[i].id != files[0].id {
        InFilters(files[1..], format, rest[i]);
      }
    }
  }

  lemma {:induction false} FilesForOfOthers(files: seq<File>, format: Format, g: Format)
    requires g != format
    ensures FilesFor(Others(files, format), g) == FilesFor(files, g)
  {
    if files != [] {
      FilesForOfOthers(files[1..], format, g);
      var head := if files[0].format != format then [files[0]] else [];
      OthersConcat(head, Others(files[1..], format), g);
      if files[0].format != format {
        assert head[1..] == [];
        assert FilesFor(head, g) == if files[0].format == g then head else [];
      }
    }
  }

  /** Listings that agree outside `format` agree on every other format. */
  lemma OtherFormatsAgree(a: seq<File>, b: seq<File>, format: Format, g: Format)
    requires Others(a, format) == Others(b, format) && g != format
    ensures FilesFor(a, g) == FilesFor(b, g)
  {
    FilesForOfOthers(a, format, g);
    FilesForOfOthers(b, format, g);
  }

  lemma {:induction false} InRemoved(files: seq<File>, id: nat, x: File)
    ensures x in RemoveId(files, id) <==> x in files && x.id != id
  {
    if files != [] {
      InRemoved(files[1..], id, x);
      assert files == [files[0]] + files[1..];
    }
  }

  lemma {:induction false} RemoveUnique(files: seq<File>, id: nat)
    requires UniqueIds(files)
    ensures UniqueIds(RemoveId(files, id))
  {
    if files != [] {
      var rest := RemoveId(files[1..], id);
      assert UniqueIds(files[1..]);
      RemoveUnique(files[1..], id);
      forall i | 0 <= i < |rest| ensures rest[i].id != files[0].id {
        InRemoved(files[1..], id, rest[i]);
      }
    }
  }

  lemma {:induction false} RemoveWithin(files: seq<File>, id: nat, format: Format)
    requires forall x :: x in files && x.id == id ==> x.format == format
    ensures Others(RemoveId(files, id), format) == Others(files, format)
  {
    if files != [] {
      RemoveWithin(files[1..], id, format);
      var head := if files[0].id != id then [files[0]] else [];
      OthersConcat(head, RemoveId(files[1..], id), format);
      if files[0].id != id {
        assert head[1..] == [];
        assert Others(head, format) == if files[0].format != format then head else [];
      }
    }
  }

  lemma NoneOfFormat(files: seq<File>, format: Format)
    requires forall x :: x in files ==> x.format != format
    ensures FilesFor(files, format) == []
  {
    if FilesFor(files, format) != [] {
      InFilters(files, format, FilesFor(files, format)[0]);
    }
  }

  /** Deleting the only file of a format empties the format and touches nothing else. */
  lemma DeleteOnly(files: seq<File>, x: File)
    requires UniqueIds(files) && FilesFor(files, x.format) == [x]
    ensures FilesFor(RemoveId(files, x.id), x.format) == []
    ensures Others(RemoveId(files, x.id), x.format) == Others(files, x.format)
    ensures UniqueIds(RemoveId(files, x.id))
  {
    InFilters(files, x.format, x);
    forall y | y in files && y.id == x.id ensures y.format == x.format {
      var i :| 0 <= i < |files| && files[i] == x;
      var j :| 0 <= j < |files| && files[j] == y;
      assert i == j;
    }
    RemoveWithin(files, x.id, x.format);
    RemoveUnique(files, x.id);
    forall y | y in RemoveId(files, x.id) ensures y.format != x.format {
      InRemoved(files, x.id, y);
      InFilters(files, x.format, y);
    }
    NoneOfFormat(RemoveId(files, x.id), x.format);
  }

  /** Uploading into an empty format leaves just the new file there. */
  lemma AddOnly(files: seq<File>, x: File)
    ensures FilesFor(files + [x], x.format) == FilesFor(files, x.format) + [x]
    ensures Others(files + [x], x.format) == Others(files, x.format)
    ensures UniqueIds(files) && x.id != 0 && (forall y :: y in files ==> y.id != x.id) ==> UniqueIds(files + [x])
  {
    OthersConcat(files, [x], x.format);
    assert [x][1..] == [];
    assert Others([x], x.format) == [] && FilesFor([x], x.format) == [x];
  }

  lemma {:induction false} FindFileFinds(files: seq<File>, format: Format)
    ensures FindFile(files, format).None? <==> FilesFor(files, format) == []
    ensures FindFile(files, format).Some? ==> FindFile(files, format).value in FilesFor(files, format)
  {
    if files != [] {
      var prefix, last := files[..|files| - 1], files[|files| - 1];
      FindFileFinds(prefix, format);
      assert files == prefix + [last];
      OthersConcat(prefix, [last], format);
      assert [last][1..] == [];
      assert FilesFor([last], format) == if last.format == format then [last] else [];
    }
  }

  /** A format with one file: FindFile finds that file. */
  lemma FindOnly(files: seq<File>, format: Format, x: File)
    requires FilesFor(files, format) == [x]
    ensures FindFile(files, format) == Some(x)
    ensures x in files && x.format == format
  {
    FindFileFinds(files, format);
    InFilters(files, format, x);
  }

  lemma {:induction false} StringLessOrders(a: string, b: string, c: string)
    ensures a == b || StringLess(a, b) || StringLess(b, a)
    ensures StringLess(a, b) ==> a != b && !StringLess(b, a)
    ensures StringLess(a, b) && StringLess(b, c) ==> StringLess(a, c)
  {
    if a != "" && b != "" {
      assert a == [a[0]] + a[1..] && b == [b[0]] + b[1..];
      StringLessOrders(a[1..], b[1..], if c == "" then c else c[1..]);
    }
  }

  /** The file found is the first by name, and among files of that name by id. */
  lemma {:induction false} FindFileIsFirst(files: seq<File>, format: Format)
    ensures var found := FindFile(files, format);
            found.Some? ==> forall y :: y in files && y.format == format ==>
              y.name == found.value.name || StringLess(found.value.name, y.name)
    ensures var found := FindFile(files, format);
            found.Some? ==> forall y :: y in files && y.format == format && y.name == found.value.name ==> found.value.id <= y.id
  {
    if files != [] {
      var front, last, found := files[..|files| - 1], files[|files| - 1], FindFile(files, format);
      FindFileIsFirst(front, format);
      FindFileFinds(front, format);
      var before := FindFile(front, format);
      forall y | y in files && y.format == format && found.Some?
        ensures y.name == found.value.name || StringLess(found.value.name, y.name)
        ensures y.name == found.value.name ==> found.value.id <= y.id
      {
        StringLessOrders(found.value.name, if before.Some? then before.value.name else "", y.name);
        StringLessOrders(y.name, found.value.name, "");
        if y in front {
          assert FilesFor(front, format) != [] by { InFilters(front, format, y); }
        }
      }
    }
  }

  /** So it does not matter in which order the server lists the files. */
  lemma FindFileIgnoresOrder(a: seq<File>, b: seq<File>, format: Format)
    requires UniqueIds(a) && forall x :: x in a <==> x in b
    ensures FindFile(a, format) == FindFile(b, format)
  {
    FindFileFinds(a, format);
    FindFileFinds(b, format);
    FindFileIsFirst(a, format);
    FindFileIsFirst(b, format);
    forall x ensures x in FilesFor(a, format) <==> x in FilesFor(b, format) {
      InFilters(a, format, x);
      InFilters(b, format, x);
    }
    if FindFile(a, format).Some? {
      assert FilesFor(b, format) != [] by { assert FindFile(a, format).value in FilesFor(b, format); }
      var x, y := FindFile(a, format).value, FindFile(b, format).value;
      forall z ensures (z in FilesFor(a, format) ==> z in a && z.format == format) && (z in FilesFor(b, format) ==> z in b && z.format == format) {
        InFilters(a, format, z);
        InFilters(b, format, z);
      }
      StringLessOrders(x.name, y.name, "");
      assert x in a && y in a && x.name == y.name && x.id == y.id;
    }
  }
}
