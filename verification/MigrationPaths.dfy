// Migration file names: VersionFromPath, and why path order is version order.
module MigrationPaths {
  import opened ByteOrder

  // ----- the library functions VersionFromPath is built from -----

  // The length of the path without its trailing slashes.
  function StripSlashes(path: string, n: nat): (end: nat)
    requires n <= |path|
    ensures end <= n
  {
    if n > 0 && path[n - 1] == '/' then StripSlashes(path, n - 1) else n
  }

  // Where the last element of the first n bytes begins.
  function AfterSlash(path: string, n: nat): (start: nat)
    requires n <= |path|
    ensures start <= n
  {
    if n > 0 && path[n - 1] != '/' then AfterSlash(path, n - 1) else n
  }

  // Where the last dot of the last element is; the end of the path when there is none.
  function LastDot(path: string, n: nat): (start: nat)
    requires n <= |path|
    ensures start <= |path|
  {
    if n == 0 || path[n - 1] == '/' then |path|
    else if path[n - 1] == '.' then n - 1
    else LastDot(path, n - 1)
  }

  // filepath.Base
  function Base(path: string): string {
    if path == "" then "." else
    var end := StripSlashes(path, |path|);
    if end == 0 then "/" else path[AfterSlash(path, end)..end]
  }

  // filepath.Ext
  function Ext(path: string): string {
    path[LastDot(path, |path|)..]
  }

  predicate HasSuffix(s: string, suffix: string) {
    |suffix| <= |s| && s[|s| - |suffix|..] == suffix
  }

  // strings.TrimSuffix
  function TrimSuffix(s: string, suffix: string): string {
    if HasSuffix(s, suffix) then s[..|s| - |suffix|] else s
  }

  function VersionFromPath(path: string): string {
    var withoutSql := TrimSuffix(Base(path), ".sql");
    TrimSuffix(withoutSql, Ext(withoutSql))
  }

  // ----- round trip -----

  predicate NoSlash(s: string) {
    forall k | 0 <= k < |s| :: s[k] != '/'
  }

  // A directory part: nothing, or something ending in a slash.
  predicate Directory(dir: string) {
    dir == "" || dir[|dir| - 1] == '/'
  }

  function PathOf(dir: string, version: string, direction: string): string {
    dir + version + "." + direction + ".sql"
  }

  lemma {:induction false} NameAfterSlash(dir: string, name: string, n: nat)
    requires Directory(dir) && NoSlash(name) && |dir| <= n <= |dir + name|
    ensures AfterSlash(dir + name, n) == |dir|
  {
    if n > |dir| {
      assert (dir + name)[n - 1] == name[n - 1 - |dir|];
      NameAfterSlash(dir, name, n - 1);
    }
  }

  lemma {:induction false} DotBeforeExt(stem: string, ext: string, n: nat)
    requires NoSlash(ext) && forall k | 0 <= k < |ext| :: ext[k] != '.'
    requires |stem| < n <= |stem + "." + ext|
    ensures LastDot(stem + "." + ext, n) == |stem|
  {
    var s := stem + "." + ext;
    if n > |stem| + 1 {
      assert s[n - 1] == ext[n - 2 - |stem|];
      DotBeforeExt(stem, ext, n - 1);
    } else {
      assert s[n - 1] == '.';
    }
  }

  lemma TrimAppended(s: string, suffix: string)
    ensures TrimSuffix(s + suffix, suffix) == s
  {
    assert (s + suffix)[|s|..] == suffix && (s + suffix)[..|s|] == s;
  }

  lemma BaseOf(dir: string, name: string)
    requires Directory(dir) && NoSlash(name) && name != ""
    ensures Base(dir + name) == name
  {
    var path := dir + name;
    assert path[|path| - 1] == name[|name| - 1];
    NameAfterSlash(dir, name, |path|);
  }

  lemma ExtOf(stem: string, ext: string)
    requires NoSlash(ext) && forall k | 0 <= k < |ext| :: ext[k] != '.'
    ensures Ext(stem + "." + ext) == "." + ext
  {
    DotBeforeExt(stem, ext, |stem + "." + ext|);
    assert stem + "." + ext == stem + ("." + ext);
  }

  lemma VersionOfName(version: string, direction: string)
    requires NoSlash(direction) && forall k | 0 <= k < |direction| :: direction[k] != '.'
    ensures var withoutSql := version + "." + direction;
            TrimSuffix(withoutSql + ".sql", ".sql") == withoutSql && TrimSuffix(withoutSql, Ext(withoutSql)) == version
  {
    hide Ext, TrimSuffix, NoSlash;
    TrimAppended(version + "." + direction, ".sql");
    ExtOf(version, direction);
    TrimAppended(version, "." + direction);
    assert version + "." + direction == version + ("." + direction);
  }

  lemma FileName(dir: string, version: string, direction: string)
    requires NoSlash(version) && direction in {"up", "down"}
    ensures NoSlash(direction) && forall k | 0 <= k < |direction| :: direction[k] != '.'
    ensures var name := version + "." + direction + ".sql";
            name != "" && NoSlash(name) && PathOf(dir, version, direction) == dir + name
  {
  }

  // The version is recovered from both the up and the down path.
  lemma VersionRoundTrip(dir: string, version: string, direction: string)
    requires Directory(dir) && NoSlash(version) && direction in {"up", "down"}
    ensures VersionFromPath(PathOf(dir, version, direction)) == version
  {
    hide Base, Ext, TrimSuffix, NoSlash, PathOf, Directory;
    FileName(dir, version, direction);
    BaseOf(dir, version + "." + direction + ".sql");
    VersionOfName(version, direction);
  }

  // ----- the first dot -----

  function UpToFirstDot(s: string): (prefix: string)
    ensures '.' !in prefix
  {
    if s == "" || s[0] == '.' then "" else [s[0]] + UpToFirstDot(s[1..])
  }

  lemma {:induction false} FirstDot(v: string, rest: string)
    requires '.' !in v
    ensures UpToFirstDot(v + "." + rest) == v
  {
    if v != "" {
      assert v[0] in v && (v + "." + rest)[1..] == v[1..] + "." + rest;
      FirstDot(v[1..], rest);
      assert v == [v[0]] + v[1..];
    } else {
      assert (v + "." + rest)[0] == '.';
    }
  }

  // The version is what stands before the first dot of the file name exactly when it has no dot.
  lemma VersionEndsAtFirstDot(dir: string, version: string, direction: string)
    requires Directory(dir) && NoSlash(version) && direction in {"up", "down"}
    ensures var path := PathOf(dir, version, direction);
            VersionFromPath(path) == UpToFirstDot(Base(path)) <==> '.' !in version
  {
    var rest := direction + ".sql";
    var name := version + "." + direction + ".sql";
    hide Base, VersionFromPath, UpToFirstDot, NoSlash, PathOf, Directory;
    FileName(dir, version, direction);
    BaseOf(dir, name);
    VersionRoundTrip(dir, version, direction);
    assert name == version + "." + rest;
    if '.' !in version { FirstDot(version, rest); }
  }

  lemma DottedVersion()
    ensures VersionFromPath("migrations/1.2_users.up.sql") == "1.2_users"
    ensures UpToFirstDot(Base("migrations/1.2_users.up.sql")) == "1"
  {
    var dir, name, version := "migrations/", "1.2_users.up.sql", "1.2_users";
    hide Base, VersionFromPath;
    assert PathOf(dir, version, "up") == dir + name == "migrations/1.2_users.up.sql";
    VersionRoundTrip(dir, version, "up");
    BaseOf(dir, name);
    assert name == "1" + "." + "2_users.up.sql";
    FirstDot("1", "2_users.up.sql");
  }

  // ----- order -----

  predicate AboveDot(s: string) {
    forall k | 0 <= k < |s| :: s[k] > '.'
  }

  lemma {:induction false} SuffixKeepsOrder(v: string, w: string, rest: string)
    requires AboveDot(v) && AboveDot(w)
    ensures Below(v + "." + rest, w + "." + rest) == Below(v, w)
  {
    var a, b := v + "." + rest, w + "." + rest;
    if v == "" && w == "" {
      Irreflexive(a);
    } else if v == "" {
      assert a[0] == '.' && b[0] == w[0];
    } else if w == "" {
      assert a[0] == v[0] && b[0] == '.';
    } else {
      assert a[0] == v[0] && b[0] == w[0];
      assert a[1..] == v[1..] + "." + rest && b[1..] == w[1..] + "." + rest;
      SuffixKeepsOrder(v[1..], w[1..], rest);
    }
  }

  // In one directory, byte order of the paths is byte order of the versions.
  lemma PathOrderIsVersionOrder(dir: string, v: string, w: string, direction: string)
    requires AboveDot(v) && AboveDot(w)
    ensures Below(PathOf(dir, v, direction), PathOf(dir, w, direction)) == Below(v, w)
  {
    var rest := direction + ".sql";
    assert PathOf(dir, v, direction) == dir + (v + "." + rest);
    assert PathOf(dir, w, direction) == dir + (w + "." + rest);
    CommonStart(dir, v + "." + rest, w + "." + rest);
    SuffixKeepsOrder(v, w, rest);
  }

  // A byte below the dot breaks it: here the later version's file sorts first.
  lemma HyphenBreaksOrder()
    ensures Below("1", "1-a") && Below(PathOf("", "1-a", "up"), PathOf("", "1", "up"))
  {
    var p, q := PathOf("", "1-a", "up"), PathOf("", "1", "up");
    assert p == "1-a.up.sql" && q == "1.up.sql";
    assert "1"[1..] == "" && "1-a"[1..] == "-a";
    assert p[1..] == "-a.up.sql" && q[1..] == ".up.sql";
  }
}
