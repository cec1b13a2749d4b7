/** Deciding what to do with each configured output (service.go: ResolveLibraryPolicy,
    SelectSource, PlanDerivatives, prioritizeReplacementOwner). */
module Planner {
  import opened Inventory
  import opened Checkpoints
  import opened ArtifactName

  // ---- The library's policy ----

  datatype Policy = Policy(main: Format, fallbacks: seq<Format>, outputs: seq<Format>)

  ghost predicate Distinct(values: seq<Format>) {
    forall i, j :: 0 <= i < j < |values| ==> values[i] != values[j]
  }

  ghost predicate ValidPolicy(p: Policy) {
    && ValidFormat(p.main)
    && (forall i :: 0 <= i < |p.outputs| ==> ValidFormat(p.outputs[i]) && p.outputs[i] != p.main)
    && (forall i :: 0 <= i < |p.fallbacks| ==> ValidFormat(p.fallbacks[i]) && p.fallbacks[i] != p.main)
    && Distinct(p.outputs) && Distinct(p.fallbacks)
  }

  /** The valid formats of a list, each once, where it comes first. */
  function Normalized(values: seq<Format>): seq<Format> {
    if values == [] then []
    else
      var front, last := Normalized(values[..|values| - 1]), values[|values| - 1];
      if ValidFormat(last) && last !in front then front + [last] else front
  }

  function Within(values: seq<Format>, keep: set<Format>): seq<Format> {
    if values == [] then []
    else
      var front, last := Within(values[..|values| - 1], keep), values[|values| - 1];
      if last in keep then front + [last] else front
  }

  function Members(values: seq<Format>): set<Format> { set f | f in values }

  /** The main format is the first valid priority, if it is supported and allowed; the other
      priorities are fallbacks where supported, the configured outputs outputs where allowed. */
  function PolicyOf(priority: seq<Format>, allowed: seq<Format>, outputs: seq<Format>, supported: seq<Format>): Option<Policy> {
    var order, permitted, inputs, wanted := Normalized(priority), Normalized(allowed), Normalized(supported), Normalized(outputs);
    if order == [] || order[0] !in inputs || (allowed != [] && order[0] !in permitted) then None
    else
      var usable := if permitted == [] then Members(wanted) else Members(permitted);
      Some(Policy(order[0], Within(order[1..], Members(inputs)), Within(wanted, usable - {order[0]})))
  }

  lemma {:induction false} NormalizedMembers(values: seq<Format>)
    ensures Distinct(Normalized(values))
    ensures forall f :: f in Normalized(values) <==> f in values && ValidFormat(f)
  {
    if values != [] {
      NormalizedMembers(values[..|values| - 1]);
      assert values == values[..|values| - 1] + [values[|values| - 1]];
    }
  }

  /** Where f comes first. */
  function FirstAt(values: seq<Format>, f: Format): (i: nat)
    requires f in values
    ensures i < |values| && values[i] == f && f !in values[..i]
  {
    var front := values[..|values| - 1];
    assert values == front + [values[|values| - 1]];
    if f in front then
      var i := FirstAt(front, f);
      assert values[..i] == front[..i];
      i
    else |values| - 1
  }

  /** In the order of the first occurrences. */
  ghost predicate InOrderOf(result: seq<Format>, values: seq<Format>) {
    && (forall f :: f in result ==> f in values)
    && forall i, j :: 0 <= i < j < |result| ==> FirstAt(values, result[i]) < FirstAt(values, result[j])
  }

  lemma {:induction false} NormalizedOrder(values: seq<Format>)
    ensures InOrderOf(Normalized(values), values)
  {
    NormalizedMembers(values);
    if values != [] {
      var front, last := values[..|values| - 1], values[|values| - 1];
      assert values == front + [last];
      NormalizedMembers(front);
      NormalizedOrder(front);
      var result := Normalized(values);
      forall i, j | 0 <= i < j < |result| ensures FirstAt(values, result[i]) < FirstAt(values, result[j]) {
        assert result[i] in Normalized(front);
        if j < |Normalized(front)| { assert result[j] in Normalized(front); }
      }
    }
  }

  lemma {:induction false} WithinMembers(values: seq<Format>, keep: set<Format>)
    ensures forall f :: f in Within(values, keep) <==> f in values && f in keep
    ensures Distinct(values) ==> Distinct(Within(values, keep))
  {
    if values != [] {
      WithinMembers(values[..|values| - 1], keep);
      assert values == values[..|values| - 1] + [values[|values| - 1]];
    }
  }

  /** Which formats are outputs and which are fallbacks; a list without valid formats allows all. */
  ghost predicate Selected(p: Policy, priority: seq<Format>, allowed: seq<Format>, outputs: seq<Format>, supported: seq<Format>) {
    && (forall f :: f in p.outputs <==> f in outputs && ValidFormat(f) && f != p.main && ((forall a :: a in allowed ==> !ValidFormat(a)) || f in allowed))
    && (forall f :: f in p.fallbacks <==> f in priority && f in supported && ValidFormat(f) && f != p.main)
  }

  /** No policy mixes the main format into outputs or fallbacks, repeats a format, or lets
      an invalid, unsupported or disallowed one through. */
  lemma PolicyIsValid(priority: seq<Format>, allowed: seq<Format>, outputs: seq<Format>, supported: seq<Format>)
    requires PolicyOf(priority, allowed, outputs, supported).Some?
    ensures var p := PolicyOf(priority, allowed, outputs, supported).value;
            ValidPolicy(p) && p.main in priority && p.main in supported && Selected(p, priority, allowed, outputs, supported)
  {
    var order, permitted, inputs, wanted := Normalized(priority), Normalized(allowed), Normalized(supported), Normalized(outputs);
    var p := PolicyOf(priority, allowed, outputs, supported).value;
    NormalizedMembers(priority);
    NormalizedMembers(allowed);
    NormalizedMembers(supported);
    NormalizedMembers(outputs);
    assert order == [p.main] + order[1..];
    WithinMembers(order[1..], Members(inputs));
    WithinMembers(wanted, (if permitted == [] then Members(wanted) else Members(permitted)) - {p.main});
    assert permitted == [] <==> forall a :: a in allowed ==> !ValidFormat(a) by {
      if permitted != [] { assert permitted[0] in permitted; }
    }
    assert forall i :: 0 <= i < |p.outputs| ==> p.outputs[i] in p.outputs;
    assert forall i :: 0 <= i < |p.fallbacks| ==> p.fallbacks[i] in p.fallbacks;
  }

  /** The first valid format is at k. */
  predicate FirstValid(values: seq<Format>, k: int) {
    0 <= k < |values| && ValidFormat(values[k]) && forall j :: 0 <= j < k ==> !ValidFormat(values[j])
  }

  lemma {:induction false} FirstIsFirstValid(values: seq<Format>)
    ensures Normalized(values) == [] <==> forall j :: 0 <= j < |values| ==> !ValidFormat(values[j])
    ensures Normalized(values) != [] ==> exists k :: FirstValid(values, k) && values[k] == Normalized(values)[0]
  {
    if values != [] {
      var front, last := values[..|values| - 1], values[|values| - 1];
      FirstIsFirstValid(front);
      if Normalized(front) != [] {
        var k :| FirstValid(front, k) && front[k] == Normalized(front)[0];
        assert FirstValid(values, k) && Normalized(values)[0] == Normalized(front)[0];
      } else if ValidFormat(last) {
        assert FirstValid(values, |values| - 1);
      } else {
        forall j | 0 <= j < |values| ensures !ValidFormat(values[j]) {
          if j < |front| { assert values[j] == front[j]; }
        }
      }
    }
  }

  lemma {:induction false} WithinKeepsOrder(values: seq<Format>, keep: set<Format>, base: seq<Format>)
    requires InOrderOf(values, base)
    ensures InOrderOf(Within(values, keep), base)
    ensures forall f :: f in Within(values, keep) ==> f in values
  {
    if values != [] {
      var front, last := values[..|values| - 1], values[|values| - 1];
      assert forall f :: f in front ==> f in values;
      assert InOrderOf(front, base) by {
        forall i, j | 0 <= i < j < |front| ensures FirstAt(base, front[i]) < FirstAt(base, front[j]) {
          assert front[i] == values[i] && front[j] == values[j];
        }
      }
      WithinKeepsOrder(front, keep, base);
      var kept := Within(front, keep);
      if last in keep {
        forall i | 0 <= i < |kept| ensures FirstAt(base, kept[i]) < FirstAt(base, last) {
          assert kept[i] in kept;
          var k :| 0 <= k < |front| && front[k] == kept[i];
          assert values[k] == front[k] && FirstAt(base, values[k]) < FirstAt(base, values[|values| - 1]);
        }
        assert InOrderOf(kept + [last], base);
      }
    }
  }

  /** The main format at k is the first valid priority, and it is supported and allowed. */
  predicate MainAt(priority: seq<Format>, allowed: seq<Format>, supported: seq<Format>, k: int) {
    FirstValid(priority, k) && priority[k] in supported && (allowed == [] || priority[k] in allowed)
  }

  /** When there is a policy, what its main format is, and in which order the others come. */
  lemma PolicyIsExact(priority: seq<Format>, allowed: seq<Format>, outputs: seq<Format>, supported: seq<Format>)
    ensures var policy := PolicyOf(priority, allowed, outputs, supported);
            && (policy.Some? <==> exists k :: MainAt(priority, allowed, supported, k))
            && (policy.Some? ==>
                  && (exists k :: MainAt(priority, allowed, supported, k) && policy.value.main == priority[k])
                  && InOrderOf(policy.value.fallbacks, priority) && InOrderOf(policy.value.outputs, outputs))
  {
    var order, permitted, inputs, wanted := Normalized(priority), Normalized(allowed), Normalized(supported), Normalized(outputs);
    FirstIsFirstValid(priority);
    NormalizedMembers(priority);
    NormalizedMembers(allowed);
    NormalizedMembers(supported);
    NormalizedOrder(priority);
    NormalizedOrder(outputs);
    if order == [] {
      assert forall k :: !FirstValid(priority, k);
    } else {
      var k :| FirstValid(priority, k) && priority[k] == order[0];
      forall i | FirstValid(priority, i) ensures i == k {}
      assert PolicyOf(priority, allowed, outputs, supported).Some? <==> MainAt(priority, allowed, supported, k);
      var rest := order[1..];
      assert InOrderOf(rest, priority) by {
        forall i, j | 0 <= i < j < |rest| ensures FirstAt(priority, rest[i]) < FirstAt(priority, rest[j]) {
          assert rest[i] == order[i + 1] && rest[j] == order[j + 1];
        }
      }
      WithinKeepsOrder(rest, Members(inputs), priority);
      WithinKeepsOrder(wanted, (if permitted == [] then Members(wanted) else Members(permitted)) - {order[0]}, outputs);
    }
  }

  method NormalizeFormats(values: seq<Format>) returns (result: seq<Format>)
    ensures result == Normalized(values)
    ensures Distinct(result) && InOrderOf(result, values)
    ensures forall f :: f in result <==> f in values && ValidFormat(f)
  {
    NormalizedMembers(values);
    NormalizedOrder(values);
    result := [];
    for i := 0 to |values|
      invariant result == Normalized(values[..i])
    {
      assert values[..i + 1][..i] == values[..i];
      if ValidFormat(values[i]) && values[i] !in result {
        result := result + [values[i]];
      }
    }
    assert values[..|values|] == values;
  }

  method KeepWithin(values: seq<Format>, keep: set<Format>) returns (kept: seq<Format>)
    ensures kept == Within(values, keep)
  {
    kept := [];
    for i := 0 to |values|
      invariant kept == Within(values[..i], keep)
    {
      assert values[..i + 1][..i] == values[..i];
      if values[i] in keep {
        kept := kept + [values[i]];
      }
    }
    assert values[..|values|] == values;
  }

  method ResolveLibraryPolicy(priority: seq<Format>, allowed: seq<Format>, outputs: seq<Format>, supported: seq<Format>) returns (policy: Option<Policy>)
    ensures policy == PolicyOf(priority, allowed, outputs, supported)
    ensures policy.Some? <==> exists k :: MainAt(priority, allowed, supported, k)
    ensures policy.Some? ==>
              && ValidPolicy(policy.value)
              && (exists k :: MainAt(priority, allowed, supported, k) && policy.value.main == priority[k])
              && InOrderOf(policy.value.fallbacks, priority) && InOrderOf(policy.value.outputs, outputs)
              && Selected(policy.value, priority, allowed, outputs, supported)
  {
    PolicyIsExact(priority, allowed, outputs, supported);
    var order := NormalizeFormats(priority);
    var inputs := NormalizeFormats(supported);
    var permitted := NormalizeFormats(allowed);
    if order == [] || order[0] !in inputs || (allowed != [] && order[0] !in permitted) {
      return None;
    }
    var wanted := NormalizeFormats(outputs);
    var fallbacks := KeepWithin(order[1..], Members(inputs));
    var results := KeepWithin(wanted, (if permitted == [] then Members(wanted) else Members(permitted)) - {order[0]});
    PolicyIsValid(priority, allowed, outputs, supported);
    return Some(Policy(order[0], fallbacks, results));
  }

  /** The first fallback format the book has a file of. */
  method SelectSource(files: seq<File>, main: Format, fallbacks: seq<Format>) returns (source: Option<File>)
    ensures source.Some? ==> source.value.format in fallbacks && source.value.format != main && source.value in files
    ensures source.Some? ==> exists i :: 0 <= i < |fallbacks| && source.value.format == fallbacks[i] &&
                                         (forall j :: 0 <= j < i && fallbacks[j] !in {"", main} ==> FilesFor(files, fallbacks[j]) == [])
    ensures source.None? ==> forall i :: 0 <= i < |fallbacks| && fallbacks[i] !in {"", main} ==> FilesFor(files, fallbacks[i]) == []
  {
    for i := 0 to |fallbacks|
      invariant forall j :: 0 <= j < i && fallbacks[j] !in {"", main} ==> FilesFor(files, fallbacks[j]) == []
    {
      if fallbacks[i] != "" && fallbacks[i] != main {
        source := FindFile(files, fallbacks[i]);
        FindFileFinds(files, fallbacks[i]);
        if source.Some? {
          InFilters(files, fallbacks[i], source.value);
          return;
        }
      }
    }
    return None;
  }

  // ---- The plan for each output ----

  datatype Action = Create | Rebuild | Unchanged

  datatype Reason = MissingOutput | Forced | CanonicalRecreated | StateMissing | StateIncomplete | OutputFormatChanged
    | OutputIdentityChanged | OutputNameChanged | CanonicalHashChanged | OutputHashChanged | GenerationFingerprintMissing
    | GenerationFingerprintChanged | TrustedTimestampStale | ReplacementInProgress | StateCurrent | CanonicalHashUnknownPreserved

  datatype Plan = Plan(format: Format, action: Action, reason: Reason, gen: Gen, blocked: bool)

  /** What planning looks at besides the files: the canonical source and the saved rows. */
  datatype Basis = Basis(u: Unicode, main: Format, sha: Option<Sha>, saved: map<Format, Derived>, mtime: Option<int>,
                         recreated: bool, force: bool, name: string)

  function DesiredGen(u: Unicode, sha: Option<Sha>, name: string, format: Format): Gen {
    V1(sha, OutputName(u, name, format), format)
  }

  function CanonicalName(u: Unicode, canonical: File, main: Format): string {
    if canonical.name == "" then OutputName(u, "", main) else canonical.name
  }

  predicate Complete(d: Derived) {
    d.format != "" && d.fileId != 0 && d.sourceSha.Some? && d.outputSha.Some?
  }

  /** Of the shape of a computed fingerprint. */
  predicate Versioned(gen: Gen) { gen.V1? || gen.Lookalike? }

  /** Any fingerprint of that shape passes when the name is the expected one. */
  predicate LegacyCompatible(gen: Gen, nameMatches: bool) {
    nameMatches && Versioned(gen)
  }

  function PlanOf(b: Basis, format: Format, action: Action, reason: Reason): Plan {
    Plan(format, action, reason, DesiredGen(b.u, b.sha, b.name, format), action == Rebuild)
  }

  function PlanFor(b: Basis, files: seq<File>, format: Format): Plan {
    var found := FindFile(files, format);
    if found.None? then PlanOf(b, format, Create, MissingOutput)
    else if b.force then PlanOf(b, format, Rebuild, Forced)
    else if b.recreated then PlanOf(b, format, Rebuild, CanonicalRecreated)
    else if format !in b.saved then PlanOf(b, format, Rebuild, StateMissing)
    else
      var stale := Staleness(b, found.value, b.saved[format], format);
      if stale.Some? then PlanOf(b, format, Rebuild, stale.value)
      else PlanOf(b, format, Unchanged, if b.sha.None? then CanonicalHashUnknownPreserved else StateCurrent)
  }

  /** Why a saved row no longer vouches for the file, if it does not. */
  function Staleness(b: Basis, existing: File, previous: Derived, format: Format): Option<Reason> {
    var expected := OutputName(b.u, b.name, format);
    if !Complete(previous) then Some(StateIncomplete)
    else if previous.format != format then Some(OutputFormatChanged)
    else if existing.id != 0 && previous.fileId != existing.id then Some(OutputIdentityChanged)
    else if b.name != "" && existing.name != expected then Some(OutputNameChanged)
    else if b.sha.Some? && previous.sourceSha != b.sha then Some(CanonicalHashChanged)
    else if existing.advertised.Some? && existing.advertised != previous.outputSha then Some(OutputHashChanged)
    else if previous.gen == NoGen then Some(GenerationFingerprintMissing)
    else if previous.gen != DesiredGen(b.u, b.sha, b.name, format)
            && !LegacyCompatible(previous.gen, b.name != "" && existing.name == expected) then Some(GenerationFingerprintChanged)
    else if Older(if existing.mtime.Some? then existing.mtime else previous.mtime, b.mtime) then Some(TrustedTimestampStale)
    else None
  }

  predicate Older(derivative: Option<int>, canonical: Option<int>) {
    derivative.Some? && canonical.Some? && derivative.value < canonical.value
  }

  /** The outputs that get a plan: all but the main format. */
  function Planned(main: Format, outputs: seq<Format>): seq<Format> {
    if outputs == [] then []
    else
      var last := outputs[|outputs| - 1];
      Planned(main, outputs[..|outputs| - 1]) + if last == "" || last == main then [] else [last]
  }

  function PlanEach(b: Basis, files: seq<File>, formats: seq<Format>): seq<Plan> {
    seq(|formats|, i requires 0 <= i < |formats| => PlanFor(b, files, formats[i]))
  }

  function PlanAll(b: Basis, files: seq<File>, outputs: seq<Format>): seq<Plan> {
    PlanEach(b, files, Planned(b.main, outputs))
  }

  lemma PlanOneMore(b: Basis, files: seq<File>, formats: seq<Format>, last: Format)
    ensures PlanEach(b, files, formats + [last]) == PlanEach(b, files, formats) + [PlanFor(b, files, last)]
  {
  }

  method PlanDerivatives(b: Basis, files: seq<File>, outputs: seq<Format>) returns (result: seq<Plan>)
    ensures result == PlanAll(b, files, outputs)
  {
    result := [];
    for i := 0 to |outputs|
      invariant result == PlanAll(b, files, outputs[..i])
    {
      assert outputs[..i + 1][..i] == outputs[..i];
      if outputs[i] == "" || outputs[i] == b.main {
        continue;
      }
      PlanOneMore(b, files, Planned(b.main, outputs[..i]), outputs[i]);
      result := result + [PlanFor(b, files, outputs[i])];
    }
    assert outputs[..|outputs|] == outputs;
  }

  lemma {:induction false} AllArePlanned(main: Format, outputs: seq<Format>)
    requires forall i :: 0 <= i < |outputs| ==> outputs[i] != "" && outputs[i] != main
    ensures Planned(main, outputs) == outputs
  {
    if outputs != [] {
      AllArePlanned(main, outputs[..|outputs| - 1]);
    }
  }

  /** One plan for each output of a valid policy, in order. */
  lemma PlansMatchOutputs(b: Basis, files: seq<File>, outputs: seq<Format>)
    requires forall i :: 0 <= i < |outputs| ==> outputs[i] != "" && outputs[i] != b.main
    ensures |PlanAll(b, files, outputs)| == |outputs|
    ensures forall i :: 0 <= i < |outputs| ==> PlanAll(b, files, outputs)[i] == PlanFor(b, files, outputs[i])
  {
    AllArePlanned(b.main, outputs);
  }

  /** A plan blocks exactly the outputs that exist and would have to be replaced; it never
      touches an existing file it calls unchanged, and never creates over one. */
  lemma PlanShape(b: Basis, files: seq<File>, format: Format)
    ensures var p := PlanFor(b, files, format);
            && p.format == format && p.gen == V1(b.sha, OutputName(b.u, b.name, format), format)
            && (p.action == Create <==> FilesFor(files, format) == [])
            && (p.blocked <==> p.action == Rebuild)
            && (b.force && p.action != Create ==> p.action == Rebuild)
  {
    FindFileFinds(files, format);
  }

  /** Row d vouches for file x under the present canonical source: it is complete and speaks of this
      format and this file; the file has the expected name and no other advertised checksum; the
      output came from the present canonical bytes; the fingerprint is the expected one, or one of
      that shape under a known name; and no trusted timestamp puts the file before the source. */
  ghost predicate Vouches(b: Basis, x: File, d: Derived, format: Format) {
    var name, made := OutputName(b.u, b.name, format), if x.mtime.Some? then x.mtime else d.mtime;
    && d.format == format && format != "" && d.fileId != 0 && (x.id != 0 ==> d.fileId == x.id)
    && (b.name != "" ==> x.name == name)
    && d.outputSha.Some? && (x.advertised.Some? ==> x.advertised == d.outputSha)
    && d.sourceSha.Some? && (b.sha.Some? ==> d.sourceSha == b.sha)
    && (d.gen == V1(b.sha, name, format) || (b.name != "" && (d.gen.V1? || d.gen.Lookalike?)))
    && (made.Some? && b.mtime.Some? ==> b.mtime.value <= made.value)
  }

  /** An output that exists is left alone exactly when nothing forces a rebuild and its saved row
      vouches for it. */
  lemma UnchangedExactly(b: Basis, files: seq<File>, format: Format, x: File)
    requires FindFile(files, format) == Some(x)
    ensures PlanFor(b, files, format).action == Unchanged <==>
              !b.force && !b.recreated && format in b.saved && Vouches(b, x, b.saved[format], format)
  {
    if format in b.saved && b.saved[format].gen == DesiredGen(b.u, b.sha, b.name, format) {
      assert b.saved[format].gen.V1?;
    }
  }

  /** What each reason for a rebuild says of an output with file x. */
  ghost predicate Holds(b: Basis, x: File, reason: Reason, format: Format) {
    if reason == Forced then b.force
    else if reason == CanonicalRecreated then b.recreated
    else if format !in b.saved then reason == StateMissing
    else
      var d, name := b.saved[format], OutputName(b.u, b.name, format);
      var made := if x.mtime.Some? then x.mtime else d.mtime;
      match reason
      case StateIncomplete => d.format == "" || d.fileId == 0 || d.sourceSha.None? || d.outputSha.None?
      case OutputFormatChanged => d.format != format
      case OutputIdentityChanged => x.id != 0 && d.fileId != x.id
      case OutputNameChanged => b.name != "" && x.name != name
      case CanonicalHashChanged => b.sha.Some? && d.sourceSha != b.sha
      case OutputHashChanged => x.advertised.Some? && x.advertised != d.outputSha
      case GenerationFingerprintMissing => d.gen == NoGen
      case GenerationFingerprintChanged => d.gen != V1(b.sha, name, format) && (b.name == "" || d.gen.Foreign?)
      case TrustedTimestampStale => made.Some? && b.mtime.Some? && made.value < b.mtime.value
      case _ => false
  }

  /** The reason that a plan gives for a rebuild is true. */
  lemma ReasonIsTrue(b: Basis, files: seq<File>, format: Format, x: File)
    requires FindFile(files, format) == Some(x) && PlanFor(b, files, format).action == Rebuild
    ensures Holds(b, x, PlanFor(b, files, format).reason, format)
  {
  }

  /** With a canonical name, a fingerprint counts as long as it has the shape of the service's own. */
  lemma GenDoesNotDecide(b: Basis, existing: File, previous: Derived, format: Format, gen: Gen)
    requires b.name != "" && Versioned(previous.gen) && Versioned(gen)
    ensures Staleness(b, existing, previous, format) == Staleness(b, existing, previous.(gen := gen), format)
  {
    var expected := OutputName(b.u, b.name, format);
    if existing.name == expected {
      assert LegacyCompatible(previous.gen, true) && LegacyCompatible(gen, true);
    }
  }

  lemma StalenessIsLocal(b: Basis, saved: map<Format, Derived>, existing: File, previous: Derived, format: Format)
    ensures Staleness(b.(saved := saved), existing, previous, format) == Staleness(b, existing, previous, format)
  {
  }

  /** With a canonical name, as the service always has one, the saved fingerprint is checked
      for its presence and its shape only: any two fingerprints of that shape plan alike. */
  lemma FingerprintValueDoesNotDecide(b: Basis, files: seq<File>, format: Format, gen: Gen)
    requires b.name != "" && format in b.saved && Versioned(b.saved[format].gen) && Versioned(gen)
    ensures PlanFor(b, files, format)
         == PlanFor(b.(saved := b.saved[format := b.saved[format].(gen := gen)]), files, format)
  {
    var saved := b.saved[format := b.saved[format].(gen := gen)];
    var found := FindFile(files, format);
    if found.Some? {
      GenDoesNotDecide(b, found.value, b.saved[format], format, gen);
      StalenessIsLocal(b, saved, found.value, saved[format], format);
    }
  }

  /** The row a commit leaves for the only file of its format. */
  ghost predicate VouchedFor(u: Unicode, row: Derived, x: File, sha: Sha, name: string, format: Format) {
    && row.format == format && format != ""
    && row.fileId == x.id && x.id != 0
    && row.sourceSha == Some(sha) && row.outputSha == Some(x.content)
    && row.gen.V1?
    && row.mtime == x.mtime
    && x.name == OutputName(u, name, format)
  }

  ghost predicate Truthful(x: File) { x.advertised.None? || x.advertised.value == x.content }

  /** A committed row makes the next plan unchanged, provided the server's checksum is truthful
      and its timestamp is not older than the canonical's; and only then. */
  lemma CommittedPlansUnchanged(b: Basis, files: seq<File>, format: Format, x: File, sha: Sha)
    requires FilesFor(files, format) == [x]
    requires format in b.saved && VouchedFor(b.u, b.saved[format], x, sha, b.name, format)
    requires b.sha == Some(sha) && b.name != "" && !b.force && !b.recreated
    ensures PlanFor(b, files, format).action == Unchanged <==> Truthful(x) && !Older(x.mtime, b.mtime)
  {
    FindOnly(files, format, x);
  }

  // ---- The unfinished replacement goes first ----

  /** Moves the owner's plan to the front and keeps the order of the others; without a plan for
      the owner nothing may proceed. */
  method PrioritizeReplacementOwner(row: BookRow, intents: map<Format, Intent>, plans: seq<Plan>)
    returns (ordered: seq<Plan>, owner: Option<Format>, ready: bool)
    ensures !row.inProgress ==> ordered == plans && owner.None? && ready
    ensures ready && row.inProgress ==>
              && owner.Some? && owner.value in intents
              && (forall f :: Prepared(intents, f) ==> f == owner.value)
              && (Prepared(intents, owner.value) || |intents| == 1)
    ensures ready && row.inProgress ==>
              exists k :: 0 <= k < |plans| && plans[k].format == owner.value && ordered == [plans[k]] + plans[..k] + plans[k + 1..]
    ensures !ready ==> row.inProgress && ordered == plans
    ensures !ready && owner.Some? ==> forall k :: 0 <= k < |plans| ==> plans[k].format != owner.value
    ensures !ready && owner.Some? ==>
              && owner.value in intents
              && (forall f :: Prepared(intents, f) ==> f == owner.value)
              && (Prepared(intents, owner.value) || |intents| == 1)
    ensures !ready && owner.None? ==>
              || (exists f, g :: f != g && Prepared(intents, f) && Prepared(intents, g))
              || ((forall f :: !Prepared(intents, f)) && |intents| != 1)
  {
    var ok;
    owner, ok := ReplacementOwner(row, intents);
    if !ok {
      return plans, None, false;
    }
    if !row.inProgress {
      return plans, None, true;
    }
    var index := |plans|;
    for i := 0 to |plans|
      invariant index == |plans| && forall k :: 0 <= k < i ==> plans[k].format != owner.value
    {
      if plans[i].format == owner.value {
        index := i;
        break;
      }
    }
    if index == |plans| {
      return plans, owner, false;
    }
    if index == 0 {
      assert plans == [plans[0]] + plans[..0] + plans[0 + 1..];
      return plans, owner, true;
    }
    return [plans[index]] + plans[..index] + plans[index + 1..], owner, true;
  }

  /** Reordering neither loses nor repeats an output. */
  lemma ReorderedFormats(plans: seq<Plan>, k: nat, ordered: seq<Plan>)
    requires k < |plans| && ordered == [plans[k]] + plans[..k] + plans[k + 1..]
    requires forall i, j :: 0 <= i < j < |plans| ==> plans[i].format != plans[j].format
    ensures forall i, j :: 0 <= i < j < |ordered| ==> ordered[i].format != ordered[j].format
    ensures forall p :: p in ordered <==> p in plans
  {
    assert plans == plans[..k] + [plans[k]] + plans[k + 1..];
    forall i, j | 0 <= i < j < |ordered| ensures ordered[i].format != ordered[j].format {
      var i' := if i == 0 then k else if i <= k then i - 1 else i;
      var j' := if j <= k then j - 1 else j;
      assert ordered[i] == plans[i'] && ordered[j] == plans[j'];
    }
  }
}
