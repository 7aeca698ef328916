/**
 * The export-discovery script: every key of the manifest's `exports` object is
 * mapped to an importable specifier, in key order and without filtering.
 */
module DiscoverExports {
  import opened Wrappers
  import opened Manifest

  /** `Object.keys(json.exports).map(v => v.replace(".", name))`. */
  function ListExports(m: Manifest): (r: Result<seq<string>, Failure>)
    ensures r.Err? <==> m.exports.None?
    ensures r.Ok? ==> |r.value| == |m.exports.value|
    ensures r.Ok? ==> forall i :: 0 <= i < |r.value| ==>
      r.value[i] == Specifier(NameText(m), m.exports.value[i])
  {
    match m.exports
    case None => Err(ExportsNotAnObject)
    case Some(keys) => Ok(Specifiers(NameText(m), keys))
  }

  /** The manifest's own `./package.json` entry is listed too, as name + "/package.json". */
  lemma ListsPackageJsonEntry(m: Manifest, i: nat)
    requires m.exports.Some? && i < |m.exports.value|
    requires m.exports.value[i] == "./package.json"
    requires '$' !in NameText(m)
    ensures ListExports(m).Ok?
    ensures ListExports(m).value[i] == NameText(m) + "/package.json"
  {
    SpecifierOfRelativeKey(NameText(m), "./package.json");
  }

  /** Every relative key yields an entry that starts with the manifest name. */
  lemma EntriesStartWithName(m: Manifest, i: nat)
    requires m.exports.Some? && i < |m.exports.value|
    requires |m.exports.value[i]| > 0 && m.exports.value[i][0] == '.'
    requires '$' !in NameText(m)
    ensures ListExports(m).Ok?
    ensures ListExports(m).value[i] == NameText(m) + m.exports.value[i][1..]
  {
    SpecifierOfRelativeKey(NameText(m), m.exports.value[i]);
  }

  /** A manifest with a sub-path export and the package.json export lists both. */
  lemma SubPathAndPackageJsonListing(name: string)
    requires '$' !in name
    ensures ListExports(Manifest(Some(name), Some(["./node", "./package.json"])))
      == Ok([name + "/node", name + "/package.json"])
  {
    SpecifierOfRelativeKey(name, "./node");
    SpecifierOfRelativeKey(name, "./package.json");
    assert "./node"[1..] == "/node";
    assert "./package.json"[1..] == "/package.json";
    var r := ListExports(Manifest(Some(name), Some(["./node", "./package.json"]))).value;
    assert r == [r[0], r[1]];
  }
}
