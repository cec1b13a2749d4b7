/** The remote artifact naming policy (artifactname.go): one function that
    sanitizes a source name and gives it the extension of the target format.
    The name travels through it three times on the way to the server, and is then
    compared for exact equality, so what matters is that a second pass changes nothing. */
module ArtifactName {

  /** What the code takes from Go's unicode and strings packages. */
  datatype Unicode = Unicode(alnum: char -> bool, space: char -> bool, lower: char -> char) {
    // Facts about the Unicode tables: ASCII letters and digits are alphanumeric and
    // lower case stays as it is; white space and the listed punctuation are not alphanumeric.
    ghost predicate Valid() {
      && (forall c :: 'a' <= c <= 'z' || '0' <= c <= '9' ==> alnum(c) && lower(c) == c)
      && (forall c :: alnum(c) ==> !space(c) && c !in " .-_()[]{}+/\\")
      && (forall c :: c in ".-_()[]{}+/\\" ==> !space(c))
      && (forall c :: c in "+_-" ==> lower(c) == c)
      && space(' ')
    }
  }

  const KEPT_PUNCTUATION: string := " .-_()[]{}"
  const MAX_RUNES: nat := 180

  /** A configured format: 1 to 32 of a-z 0-9 + _ -, the first a letter or a digit. */
  predicate ValidFormat(f: string) {
    && 1 <= |f| <= 32
    && (forall i :: 0 <= i < |f| ==> FormatChar(f[i]))
    && ('a' <= f[0] <= 'z' || '0' <= f[0] <= '9')
  }

  predicate FormatChar(c: char) {
    'a' <= c <= 'z' || '0' <= c <= '9' || c == '+' || c == '_' || c == '-'
  }

  function TrimLeft(s: string, drop: char -> bool): string {
    if s != "" && drop(s[0]) then TrimLeft(s[1..], drop) else s
  }

  function TrimRight(s: string, drop: char -> bool): string {
    if s != "" && drop(s[|s| - 1]) then TrimRight(s[..|s| - 1], drop) else s
  }

  function Trim(s: string, drop: char -> bool): string {
    TrimRight(TrimLeft(s, drop), drop)
  }

  function Slashed(s: string): string {
    seq(|s|, i requires 0 <= i < |s| => if s[i] == '\\' then '/' else s[i])
  }

  /** The part after the last '/'. */
  function AfterSlash(s: string): string {
    if s == "" || s[|s| - 1] == '/' then "" else AfterSlash(s[..|s| - 1]) + [s[|s| - 1]]
  }

  /** Go's path.Base. */
  function PathBase(s: string): string {
    if s == "" then "."
    else
      var t := TrimRight(s, (c: char) => c == '/');
      if t == "" then "/" else AfterSlash(t)
  }

  function Clean(u: Unicode, c: char): char {
    if u.alnum(c) || c in KEPT_PUNCTUATION then c else '_'
  }

  function Sanitize(u: Unicode, s: string): string {
    seq(|s|, i requires 0 <= i < |s| => Clean(u, s[i]))
  }

  function SpaceOrDot(c: char): bool { c == ' ' || c == '.' }

  /** What remains when the extension, the suffix from the last dot on, is cut off. */
  function WithoutExt(s: string): string {
    if s == "" || '.' !in s then s
    else if s[|s| - 1] == '.' then s[..|s| - 1]
    else WithoutExt(s[..|s| - 1])
  }

  function Cut(s: string): string {
    if |s| > MAX_RUNES then s[..MAX_RUNES] else s
  }

  function SourceBase(u: Unicode, source: string): string {
    var base := PathBase(Slashed(Trim(source, u.space)));
    if base == "." || base == ".." || base == "/" then "book" else base
  }

  function Stem(u: Unicode, source: string): string {
    var clean := Trim(Sanitize(u, SourceBase(u, source)), SpaceOrDot);
    var base := if clean == "" || clean == "." || clean == ".." then "book" else clean;
    var stem := WithoutExt(Cut(base));
    if stem == "" then "book" else stem
  }

  function Lowered(u: Unicode, s: string): string {
    seq(|s|, i requires 0 <= i < |s| => u.lower(s[i]))
  }

  function TargetExt(u: Unicode, format: string): string {
    var f := Trim(format, u.space);
    Lowered(u, if f != "" && f[0] == '.' then f[1..] else f)
  }

  /** The specification of OutputFilename. */
  function OutputName(u: Unicode, source: string, format: string): string {
    var ext := TargetExt(u, format);
    if ext == "" then Stem(u, source) else Stem(u, source) + "." + ext
  }

  /** The loop of the source: each rune of the base is kept or becomes '_'. */
  method OutputFilename(u: Unicode, sourceName: string, targetFormat: string) returns (name: string)
    ensures name == OutputName(u, sourceName, targetFormat)
  {
    var base := PathBase(Slashed(Trim(sourceName, u.space)));
    if base == "." || base == ".." || base == "/" {
      base := "book";
    }
    var builder := "";
    for i := 0 to |base|
      invariant builder == Sanitize(u, base)[..i]
    {
      if u.alnum(base[i]) {
        builder := builder + [base[i]];
      } else if base[i] in KEPT_PUNCTUATION {
        builder := builder + [base[i]];
      } else {
        builder := builder + ['_'];
      }
    }
    assert builder == Sanitize(u, base);
    base := Trim(builder, SpaceOrDot);
    if base == "" || base == "." || base == ".." {
      base := "book";
    }
    if |base| > MAX_RUNES {
      base := base[..MAX_RUNES];
    }
    var stem := WithoutExt(base);
    if stem == "" {
      stem := "book";
    }
    var format := TargetExt(u, targetFormat);
    if format == "" {
      return stem;
    }
    return stem + "." + format;
  }

  // ---- The shape of a stem ----

  ghost predicate CleanChar(u: Unicode, c: char) { u.alnum(c) || c in KEPT_PUNCTUATION }

  ghost predicate Tidy(u: Unicode, s: string) { forall i :: 0 <= i < |s| ==> CleanChar(u, s[i]) }

  /** What every stem is: short, safe, not starting with a space or a dot; and one that
      fills all 180 runes has no dot, because a dot would have started an extension. */
  ghost predicate StemShape(u: Unicode, s: string) {
    && 0 < |s| <= MAX_RUNES
    && Tidy(u, s)
    && !SpaceOrDot(s[0])
    && (|s| == MAX_RUNES ==> '.' !in s)
  }

  lemma {:induction false} TrimLeftShape(s: string, drop: char -> bool)
    ensures exists k :: 0 <= k <= |s| && TrimLeft(s, drop) == s[k..]
    ensures TrimLeft(s, drop) != "" ==> !drop(TrimLeft(s, drop)[0])
  {
    if s != "" && drop(s[0]) {
      TrimLeftShape(s[1..], drop);
      var k :| 0 <= k <= |s[1..]| && TrimLeft(s[1..], drop) == s[1..][k..];
      assert s[1..][k..] == s[k + 1..];
    } else {
      assert s == s[0..];
    }
  }

  lemma {:induction false} TrimRightShape(s: string, drop: char -> bool)
    ensures TrimRight(s, drop) <= s
    ensures TrimRight(s, drop) != "" ==> !drop(TrimRight(s, drop)[|TrimRight(s, drop)| - 1])
  {
    if s != "" && drop(s[|s| - 1]) {
      TrimRightShape(s[..|s| - 1], drop);
    }
  }

  lemma TrimTidy(u: Unicode, s: string)
    requires Tidy(u, s)
    ensures var t := Trim(s, SpaceOrDot); Tidy(u, t) && (t != "" ==> !SpaceOrDot(t[0]))
  {
    TrimLeftShape(s, SpaceOrDot);
    TrimRightShape(TrimLeft(s, SpaceOrDot), SpaceOrDot);
  }

  lemma TrimKeeps(s: string, drop: char -> bool)
    requires s != "" && !drop(s[0]) && !drop(s[|s| - 1])
    ensures Trim(s, drop) == s
  {
  }

  lemma {:induction false} WithoutExtShape(s: string)
    ensures WithoutExt(s) <= s
    ensures '.' in s ==> |WithoutExt(s)| < |s|
    ensures '.' !in s ==> WithoutExt(s) == s
    ensures s != "" && s[0] != '.' ==> WithoutExt(s) != ""
  {
    if s == "" || '.' !in s {
    } else if s[|s| - 1] == '.' {
    } else {
      var t := s[..|s| - 1];
      assert s == t + [s[|s| - 1]];
      WithoutExtShape(t);
    }
  }

  lemma StemHasShape(u: Unicode, source: string)
    requires u.Valid()
    ensures StemShape(u, Stem(u, source))
  {
    var raw := Sanitize(u, SourceBase(u, source));
    assert Tidy(u, raw);
    TrimTidy(u, raw);
    var clean := Trim(raw, SpaceOrDot);
    var base := if clean == "" || clean == "." || clean == ".." then "book" else clean;
    assert Tidy(u, "book");
    assert Tidy(u, Cut(base)) && Cut(base) != "" && !SpaceOrDot(Cut(base)[0]);
    WithoutExtShape(Cut(base));
  }

  // ---- A second pass finds the same stem ----

  lemma {:induction false} WithoutExtOfAppended(stem: string, ext: string)
    requires '.' !in ext
    ensures WithoutExt(stem + "." + ext) == stem
  {
    var s := stem + "." + ext;
    assert s[|stem|] == '.';
    if ext == "" {
      assert s[..|s| - 1] == stem;
    } else {
      var shorter := ext[..|ext| - 1];
      assert ext == shorter + [ext[|ext| - 1]];
      assert s[..|s| - 1] == stem + "." + shorter;
      assert s[|s| - 1] in ext;
      WithoutExtOfAppended(stem, shorter);
    }
  }

  lemma {:induction false} AfterSlashKeeps(s: string)
    requires '/' !in s
    ensures AfterSlash(s) == s
  {
    if s != "" {
      assert s == s[..|s| - 1] + [s[|s| - 1]];
      AfterSlashKeeps(s[..|s| - 1]);
    }
  }

  lemma NamedHasNoSlash(u: Unicode, stem: string, f: string)
    requires u.Valid() && StemShape(u, stem) && ValidFormat(f)
    ensures var s := stem + "." + f; '/' !in s && '\\' !in s
  {
    var s := stem + "." + f;
    forall i | 0 <= i < |s| ensures s[i] != '/' && s[i] != '\\' {
      if i < |stem| {
        assert CleanChar(u, s[i]);
      } else if i > |stem| {
        assert FormatChar(f[i - |stem| - 1]);
      }
    }
  }

  lemma BaseOfNamed(u: Unicode, stem: string, f: string)
    requires u.Valid() && StemShape(u, stem) && ValidFormat(f)
    ensures SourceBase(u, stem + "." + f) == stem + "." + f
  {
    var s := stem + "." + f;
    NamedHasNoSlash(u, stem, f);
    assert CleanChar(u, stem[0]) && s[0] == stem[0];
    assert FormatChar(f[|f| - 1]) && s[|s| - 1] == f[|f| - 1];
    TrimKeeps(s, u.space);
    assert Slashed(s) == s;
    AfterSlashKeeps(s);
    assert |s| >= 3;
  }

  lemma SanitizedNamed(u: Unicode, stem: string, f: string)
    requires u.Valid() && StemShape(u, stem) && ValidFormat(f)
    ensures Sanitize(u, stem + "." + f) == stem + "." + Sanitize(u, f)
    ensures '.' !in Sanitize(u, f) && ' ' !in Sanitize(u, f)
  {
    var s, t := stem + "." + f, stem + "." + Sanitize(u, f);
    forall i | 0 <= i < |s| ensures Clean(u, s[i]) == t[i] {
      if i < |stem| {
        assert CleanChar(u, s[i]);
      }
    }
    assert forall i :: 0 <= i < |f| ==> FormatChar(f[i]);
  }

  /** A name the service made itself keeps its stem when it is named again. */
  lemma StemOfNamed(u: Unicode, stem: string, f: string)
    requires u.Valid() && StemShape(u, stem) && ValidFormat(f)
    ensures Stem(u, stem + "." + f) == stem
  {
    BaseOfNamed(u, stem, f);
    SanitizedNamed(u, stem, f);
    var clean := Sanitize(u, stem + "." + f);
    var ext := Sanitize(u, f);
    assert clean[0] == stem[0] && clean[|clean| - 1] == ext[|ext| - 1];
    TrimKeeps(clean, SpaceOrDot);
    assert |clean| >= 3;
    CutKeepsStem(stem, ext);
  }

  /** The 180-rune cut removes at most the extension, never a part of the stem. */
  lemma CutKeepsStem(stem: string, ext: string)
    requires 0 < |stem| <= MAX_RUNES && '.' !in ext
    requires |stem| == MAX_RUNES ==> '.' !in stem
    ensures WithoutExt(Cut(stem + "." + ext)) == stem
  {
    var s := stem + "." + ext;
    if |s| <= MAX_RUNES {
      WithoutExtOfAppended(stem, ext);
    } else if |stem| == MAX_RUNES {
      assert Cut(s) == stem;
      WithoutExtShape(stem);
    } else {
      var part := ext[..MAX_RUNES - |stem| - 1];
      assert Cut(s) == stem + "." + part;
      WithoutExtOfAppended(stem, part);
    }
  }

  lemma ValidFormatIsExt(u: Unicode, f: string)
    requires u.Valid() && ValidFormat(f)
    ensures TargetExt(u, f) == f
  {
    assert FormatChar(f[0]) && FormatChar(f[|f| - 1]);
    TrimKeeps(f, u.space);
    forall i | 0 <= i < |f| ensures u.lower(f[i]) == f[i] {
      assert FormatChar(f[i]);
    }
    assert Lowered(u, f) == f;
  }

  /** Naming a derivative after the main file loses nothing: the name for g made from the
      name for f is the name for g made from the source itself. */
  lemma RenamingIsStable(u: Unicode, source: string, f: string, g: string)
    requires u.Valid() && ValidFormat(f) && ValidFormat(g)
    ensures OutputName(u, OutputName(u, source, f), g) == OutputName(u, source, g)
  {
    StemHasShape(u, source);
    ValidFormatIsExt(u, f);
    ValidFormatIsExt(u, g);
    StemOfNamed(u, Stem(u, source), f);
  }

  /** The reconciler, the client and the multipart writer each sanitize the name; the name
      that reaches the server is the one the reconciler then looks for. */
  lemma ThreeLayersAreOne(u: Unicode, source: string, f: string)
    requires u.Valid() && ValidFormat(f)
    ensures var wanted := OutputName(u, source, f);
            OutputName(u, OutputName(u, wanted, f), f) == wanted
  {
    RenamingIsStable(u, source, f, f);
  }

  lemma NamedIsSafe(u: Unicode, stem: string, f: string)
    requires u.Valid() && StemShape(u, stem) && ValidFormat(f)
    ensures var name := stem + "." + f;
            && 3 <= |name| <= MAX_RUNES + 33
            && name[0] != '.' && name[0] != ' '
            && '/' !in name && '\\' !in name
            && name[|name| - |f| - 1..] == "." + f
  {
    NamedHasNoSlash(u, stem, f);
    var name := stem + "." + f;
    assert name[|name| - |f| - 1..] == "." + f;
  }

  /** Whatever the source is called, the artifact's name is a single safe path element: at most 180
      letters, digits and listed punctuation, and the extension. */
  lemma OutputNameIsSafe(u: Unicode, source: string, f: string)
    requires u.Valid() && ValidFormat(f)
    ensures var name := OutputName(u, source, f);
            && 3 <= |name| <= 181 + |f|
            && name[0] != '.' && name[0] != ' '
            && '/' !in name && '\\' !in name
            && name[|name| - |f| - 1..] == "." + f
            && forall i :: 0 <= i < |name| - |f| - 1 ==> u.alnum(name[i]) || name[i] in " .-_()[]{}"
  {
    StemHasShape(u, source);
    ValidFormatIsExt(u, f);
    assert OutputName(u, source, f) == Stem(u, source) + "." + f;
    NamedIsSafe(u, Stem(u, source), f);
    forall i | 0 <= i < |Stem(u, source)| ensures u.alnum(Stem(u, source)[i]) || Stem(u, source)[i] in " .-_()[]{}" {
      assert CleanChar(u, Stem(u, source)[i]);
    }
  }

  // ---- What becomes of an ordinary path ----

  lemma {:induction false} AfterSlashOf(dir: string, name: string)
    requires '/' !in name && (dir == "" || dir[|dir| - 1] == '/')
    ensures AfterSlash(dir + name) == name
  {
    if name == "" {
      assert dir + name == dir;
    } else {
      var last := name[|name| - 1];
      assert last in name && name == name[..|name| - 1] + [last];
      assert (dir + name)[..|dir + name| - 1] == dir + name[..|name| - 1];
      AfterSlashOf(dir, name[..|name| - 1]);
    }
  }

  /** A directory, which may be empty, in either style of slashes. */
  predicate Directory(u: Unicode, dir: string) {
    dir == "" || (!u.space(dir[0]) && dir[|dir| - 1] in "/\\")
  }

  lemma BaseOfPath(u: Unicode, dir: string, name: string)
    requires Directory(u, dir) && '/' !in name && '\\' !in name && |name| > 2
    requires !u.space(name[|name| - 1]) && (dir == "" ==> !u.space(name[0]))
    ensures SourceBase(u, dir + name) == name
  {
    var s := dir + name;
    assert s[0] == (if dir == "" then name else dir)[0] && s[|s| - 1] == name[|name| - 1];
    TrimKeeps(s, u.space);
    assert Slashed(s) == Slashed(dir) + name by {
      forall i | |dir| <= i < |s| ensures s[i] != '\\' { assert s[i] in name; }
    }
    assert name[|name| - 1] in name;
    AfterSlashOf(Slashed(dir), name);
  }

  lemma SanitizedPath(u: Unicode, stem: string, f: string)
    requires u.Valid() && ValidFormat(f) && 0 < |stem|
    ensures Sanitize(u, stem + "." + f) == Sanitize(u, stem) + "." + Sanitize(u, f)
    ensures '.' !in Sanitize(u, f) && !SpaceOrDot(Sanitize(u, f)[|f| - 1]) && f[|f| - 1] !in "/\\" && !u.space(f[|f| - 1])
    ensures '/' !in f && '\\' !in f
  {
    forall i | 0 <= i < |f| ensures f[i] != '/' && f[i] != '\\' && Clean(u, f[i]) !in ". " && !u.space(f[i]) { assert FormatChar(f[i]); }
  }

  lemma StemOfPath(u: Unicode, dir: string, stem: string, f: string)
    requires u.Valid() && ValidFormat(f) && Directory(u, dir)
    requires 0 < |stem| < 180 && '/' !in stem && '\\' !in stem && stem[0] !in " ." && (dir == "" ==> !u.space(stem[0]))
    ensures Stem(u, dir + (stem + "." + f)) == Sanitize(u, stem)
  {
    var base, clean := stem + "." + f, Sanitize(u, stem) + "." + Sanitize(u, f);
    SanitizedPath(u, stem, f);
    assert base[|base| - 1] == f[|f| - 1] && base[0] == stem[0];
    BaseOfPath(u, dir, base);
    assert clean[|clean| - 1] == Sanitize(u, f)[|f| - 1] && clean[0] == Clean(u, stem[0]);
    TrimKeeps(clean, SpaceOrDot);
    CutKeepsStem(Sanitize(u, stem), Sanitize(u, f));
  }

  lemma SplitName(stem: string, ext: string)
    ensures var name := stem + "." + ext;
            |name| == |stem| + 1 + |ext| && name[|stem|..] == "." + ext && forall i :: 0 <= i < |stem| ==> name[i] == stem[i]
  {
  }

  /** Of a path only the part after the last slash counts; up to 179 runes before the extension, each
      letter, digit or listed punctuation is kept, everything else becomes an underscore, and the
      extension is exchanged. */
  lemma PathIsNamed(u: Unicode, dir: string, stem: string, f: string, g: string)
    requires u.Valid() && ValidFormat(f) && ValidFormat(g) && Directory(u, dir)
    requires 0 < |stem| < 180 && '/' !in stem && '\\' !in stem && stem[0] !in " ." && (dir == "" ==> !u.space(stem[0]))
    ensures var name := OutputName(u, dir + (stem + "." + f), g);
            && |name| == |stem| + 1 + |g| && name[|stem|..] == "." + g
            && forall i :: 0 <= i < |stem| ==> name[i] == if u.alnum(stem[i]) || stem[i] in " .-_()[]{}" then stem[i] else '_'
  {
    ValidFormatIsExt(u, g);
    StemOfPath(u, dir, stem, f);
    SplitName(Sanitize(u, stem), g);
    forall i | 0 <= i < |stem| ensures Sanitize(u, stem)[i] == Clean(u, stem[i]) {}
  }
}
