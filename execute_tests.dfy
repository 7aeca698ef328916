/**
 * The pure parts of the end-to-end test runner for one case: the specifiers it
 * tests, the temporary-directory prefix of each case and the generated tsconfig text.
 */
module ExecuteTests {
  import opened Wrappers
  import opened Manifest
  import JsString
  import DiscoverExports

  /** The export key that refers to the manifest file itself. */
  const ManifestKey := "./package.json"

  /** `keys.filter(exp => exp !== "./package.json")`. */
  function DropManifestKey(keys: seq<string>): (r: seq<string>)
    ensures ManifestKey !in r
    ensures forall k :: k in r <==> k in keys && k != ManifestKey
    ensures |r| == |keys| - multiset(keys)[ManifestKey]
    ensures r == DropManifestEntries(keys, keys)
  {
    if |keys| == 0 then []
    else
      assert keys == [keys[0]] + keys[1..];
      if keys[0] == ManifestKey then DropManifestKey(keys[1..])
      else [keys[0]] + DropManifestKey(keys[1..])
  }

  /** `pkgExports`: the specifiers of every key except the manifest's own. */
  function PkgExports(m: Manifest): (r: Result<seq<string>, Failure>)
    ensures r.Err? <==> m.exports.None?
    ensures r.Ok? ==> |r.value| == |m.exports.value| - multiset(m.exports.value)[ManifestKey]
  {
    match m.exports
    case None => Err(ExportsNotAnObject)
    case Some(keys) => Ok(Specifiers(NameText(m), DropManifestKey(keys)))
  }

  /** The entries of `outs` whose aligned key in `keys` is not the manifest key. */
  function DropManifestEntries(keys: seq<string>, outs: seq<string>): seq<string>
    requires |keys| == |outs|
  {
    if |keys| == 0 then []
    else
      (if keys[0] == ManifestKey then [] else [outs[0]])
      + DropManifestEntries(keys[1..], outs[1..])
  }

  lemma {:induction false} SpecifiersOfKeptKeys(name: string, keys: seq<string>)
    ensures Specifiers(name, DropManifestKey(keys))
      == DropManifestEntries(keys, Specifiers(name, keys))
  {
    if |keys| > 0 {
      SpecifiersOfKeptKeys(name, keys[1..]);
      if keys[0] != ManifestKey {
        var rest := DropManifestKey(keys[1..]);
        assert ([keys[0]] + rest)[1..] == rest;
      }
    }
  }

  /**
   * The runner tests exactly the discovery script's list for the same manifest
   * with the entries of `./package.json` keys removed, in the same order.
   */
  lemma PkgExportsIsListingWithoutManifestEntries(m: Manifest)
    requires m.exports.Some?
    ensures DiscoverExports.ListExports(m).Ok?
    ensures PkgExports(m)
      == Ok(DropManifestEntries(m.exports.value, DiscoverExports.ListExports(m).value))
  {
    SpecifiersOfKeptKeys(NameText(m), m.exports.value);
  }

  /** A manifest with a sub-path export and the package.json export is tested on the sub-path only. */
  lemma SubPathAndPackageJsonTested(name: string)
    requires '$' !in name
    ensures PkgExports(Manifest(Some(name), Some(["./node", ManifestKey])))
      == Ok([name + "/node"])
  {
    var keys := ["./node", ManifestKey];
    assert keys[1..] == [ManifestKey];
    assert DropManifestKey([ManifestKey]) == [];
    assert DropManifestKey(keys) == ["./node"];
    SpecifierOfRelativeKey(name, "./node");
    assert "./node"[1..] == "/node";
    var r := PkgExports(Manifest(Some(name), Some(keys))).value;
    assert r == [r[0]];
  }

  /** The characters the runner replaces by `-`: `@`, `-` and `/`. */
  const Unsafe: set<char> := {'@', '-', '/'}

  /** `s.replace(/(@|-|\/)/g, '-')`. */
  function Sanitise(s: string): (r: string)
    ensures |r| == |s|
    ensures forall i :: 0 <= i < |s| ==> r[i] == if s[i] in Unsafe then '-' else s[i]
    ensures '@' !in r && '/' !in r
  {
    JsString.GlobalReplaceCharwise(s, 0, Unsafe, '-');
    JsString.GlobalReplaceFrom(s, 0, Unsafe, "-")
  }

  /** Sanitising an already sanitised string changes nothing. */
  lemma SanitiseIdempotent(s: string)
    ensures Sanitise(Sanitise(s)) == Sanitise(s)
  {
  }

  /** The strings sanitising leaves unchanged are exactly those without `@` and `/`. */
  lemma SanitiseFixedPoints(s: string)
    ensures Sanitise(s) == s <==> '@' !in s && '/' !in s
  {
  }

  /** Sanitising works piece by piece. */
  lemma SanitiseConcat(a: string, b: string)
    ensures Sanitise(a + b) == Sanitise(a) + Sanitise(b)
  {
  }

  /**
   * An example-project path `dir/name/` becomes `dir-name-`; for instance
   * "tests/example-project-01-simple/" becomes "tests-example-project-01-simple-".
   */
  lemma SanitiseProjectPath(dir: string, name: string)
    requires '@' !in dir && '/' !in dir && '@' !in name && '/' !in name
    ensures Sanitise(dir + "/" + name + "/") == dir + "-" + name + "-"
  {
  }

  /** `path.join(dir, name)` for a directory without a trailing separator. */
  function Join(dir: string, name: string): string
  {
    dir + "/" + name
  }

  /**
   * `join(tmpdir(), `${sourceString}-${pkgExportString}`)`: the leaf name holds no
   * separator, so mkdtemp creates the case's directory directly in `tmp`.
   */
  function TempPrefix(tmp: string, source: string, pkgExport: string): (r: string)
    ensures |r| == |tmp| + |source| + |pkgExport| + 2
    ensures r[..|tmp| + 1] == tmp + "/"
    ensures '/' !in r[|tmp| + 1..] && '@' !in r[|tmp| + 1..]
  {
    var leaf := Sanitise(source) + "-" + Sanitise(pkgExport);
    assert Join(tmp, leaf)[|tmp| + 1..] == leaf;
    Join(tmp, leaf)
  }

  /**
   * For an example-project path `dir/name/` the leaf is `dir-name-` and the
   * sanitised specifier, so the two are separated by a double dash.
   */
  lemma TempPrefixOfProject(tmp: string, dir: string, name: string, pkgExport: string)
    requires '@' !in dir && '/' !in dir && '@' !in name && '/' !in name
    ensures TempPrefix(tmp, dir + "/" + name + "/", pkgExport)
      == tmp + "/" + dir + "-" + name + "--" + Sanitise(pkgExport)
  {
  }

  /**
   * Distinct specifiers can share a prefix: the uniqueness of each case's
   * directory comes from the suffix mkdtemp appends, not from the prefix.
   */
  lemma TempPrefixNotInjective(tmp: string, source: string, a: string, b: string)
    ensures a + "-" + b != a + "/" + b
    ensures TempPrefix(tmp, source, a + "-" + b) == TempPrefix(tmp, source, a + "/" + b)
  {
    assert (a + "-" + b)[|a|] != (a + "/" + b)[|a|];
    SanitiseConcat(a, "-");
    SanitiseConcat(a + "-", b);
    SanitiseConcat(a, "/");
    SanitiseConcat(a + "/", b);
    assert Sanitise("-") == Sanitise("/");
  }

  const ExtendsOpen := "{ \"extends\": \""
  const ExtendsClose := "\" }\n"

  /** The value between the fixed opening and closing text of a generated tsconfig. */
  function ExtendsValue(text: string): Option<string>
  {
    if |text| >= |ExtendsOpen| + |ExtendsClose|
      && text[..|ExtendsOpen|] == ExtendsOpen
      && text[|text| - |ExtendsClose|..] == ExtendsClose
    then Some(text[|ExtendsOpen|..|text| - |ExtendsClose|])
    else None
  }

  /**
   * The tsconfig.json written into each case's directory: the specifier is placed
   * between the quotes as it is, without JSON escaping.
   */
  function TsconfigText(pkgExport: string): (r: string)
    ensures |r| == |pkgExport| + 18
    ensures ExtendsValue(r) == Some(pkgExport)
  {
    var r := ExtendsOpen + pkgExport + ExtendsClose;
    assert r[..|ExtendsOpen|] == ExtendsOpen;
    assert r[|r| - |ExtendsClose|..] == ExtendsClose;
    assert r[|ExtendsOpen|..|r| - |ExtendsClose|] == pkgExport;
    r
  }
}
