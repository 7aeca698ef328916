/**
 * The package manifest as both scripts see it after `JSON.parse`, and the rule that
 * turns one key of its `exports` object into an importable specifier:
 * `key.replace(".", name)`.
 */
module Manifest {
  import opened Wrappers
  import JsString

  /**
   * `name` is None when the field is missing; `exports` holds the keys of the
   * `exports` object in `Object.keys` order, and is None when the field is missing
   * or null.
   */
  datatype Manifest = Manifest(name: Option<string>, exports: Option<seq<string>>)

  /** `Object.keys(json.exports)` throws a TypeError when there is no exports object. */
  datatype Failure = ExportsNotAnObject

  /** The string `replace` receives for `json.name`: a missing name becomes "undefined". */
  function NameText(m: Manifest): (r: string)
    ensures m.name.Some? ==> r == m.name.value
    ensures m.name.None? ==> r == "undefined"
  {
    match m.name
    case Some(n) => n
    case None => "undefined"
  }

  /** `key.replace(".", name)`: the first literal dot of the key is replaced by the name. */
  function Specifier(name: string, key: string): (r: string)
    ensures '.' !in key ==> r == key
  {
    JsString.ReplaceFirst(key, '.', name)
  }

  /** Only the first dot is replaced; the text before it and every later dot are kept. */
  lemma SpecifierReplacesFirstDot(name: string, key: string, i: nat)
    requires '$' !in name
    requires i < |key| && key[i] == '.' && '.' !in key[..i]
    ensures Specifier(name, key) == key[..i] + name + key[i + 1..]
  {
    JsString.ReplaceFirstAt(key, '.', name, i);
  }

  /** A key that starts with a dot, as every relative export path does, yields a specifier that starts with the name. */
  lemma SpecifierOfRelativeKey(name: string, key: string)
    requires '$' !in name
    requires |key| > 0 && key[0] == '.'
    ensures Specifier(name, key) == name + key[1..]
  {
    SpecifierReplacesFirstDot(name, key, 0);
  }

  /** Sub-path keys, with and without further dots. */
  lemma SpecifierExamples(name: string)
    requires '$' !in name
    ensures Specifier(name, "./node") == name + "/node"
    ensures Specifier(name, "./a.b") == name + "/a.b"
    ensures Specifier(name, "./cfg.base") == name + "/cfg.base"
    ensures Specifier(name, ".") == name
  {
    SpecifierOfRelativeKey(name, "./node");
    SpecifierOfRelativeKey(name, "./a.b");
    SpecifierOfRelativeKey(name, "./cfg.base");
    SpecifierOfRelativeKey(name, ".");
  }

  /**
   * A name holding `$` patterns is expanded as a JavaScript replacement string:
   * `$&` puts the matched dot back and `$$` stands for one dollar sign.
   */
  lemma SpecifierExpandsDollarPatterns(key: string)
    requires |key| > 0 && key[0] == '.'
    ensures Specifier("$&", key) == key
    ensures Specifier("$$", key) == "$" + key[1..]
  {
  }

  /** `keys.map(v => v.replace(".", name))`. */
  function Specifiers(name: string, keys: seq<string>): (r: seq<string>)
    ensures |r| == |keys|
    ensures forall i :: 0 <= i < |keys| ==> r[i] == Specifier(name, keys[i])
  {
    if |keys| == 0 then []
    else [Specifier(name, keys[0])] + Specifiers(name, keys[1..])
  }
}
