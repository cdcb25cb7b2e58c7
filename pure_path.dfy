/**
 * The `pathlib.PurePosixPath` operations the core uses, on paths written as strings with
 * `/` separators: `name`, `suffix`, `stem` and `with_suffix`.
 */
module PurePath {
  import opened Wrappers
  import Text

  /** The directory part of `p`, up to and including its last `/` (empty when there is none). */
  function Dir(p: string): (d: string)
    ensures d == [] || d[|d| - 1] == '/'
  {
    p[..Text.LastIndexOf(p, '/') + 1]
  }

  /** `Path(p).name`: the final component of `p`. */
  function Name(p: string): (n: string)
    ensures |n| <= |p|
  {
    p[Text.LastIndexOf(p, '/') + 1..]
  }

  /** The name holds no `/`, and the directory part followed by the name is the whole path. */
  lemma NameShape(p: string)
    ensures '/' !in Name(p)
    ensures Dir(p) + Name(p) == p
  {
    NoSlashAfterLast(p);
    var i := Text.LastIndexOf(p, '/');
    assert p == p[..i + 1] + p[i + 1..];
  }

  lemma NoSlashAfterLast(p: string)
    ensures '/' !in p[Text.LastIndexOf(p, '/') + 1..]
  {
    var i := Text.LastIndexOf(p, '/');
    var n := p[i + 1..];
    forall k | 0 <= k < |n| ensures n[k] != '/' {
      assert n[k] == p[i + 1 + k];
    }
  }

  /** `p` has a non-empty name: it is not empty and does not end in `/`. */
  predicate HasName(p: string) {
    p != [] && p[|p| - 1] != '/'
  }

  lemma HasNameIff(p: string)
    ensures HasName(p) <==> Name(p) != []
  {
    if p != [] && p[|p| - 1] == '/' {
      assert Text.LastIndexOf(p, '/') == |p| - 1;
    }
  }

  /** A final component placed after a directory part is the name of the result. */
  lemma NameAfterDir(d: string, n: string)
    requires d == [] || d[|d| - 1] == '/'
    requires '/' !in n
    ensures Name(d + n) == n && Dir(d + n) == d
  {
    var s := d + n;
    var i := Text.LastIndexOf(s, '/');
    if |d| > 0 {
      assert s[|d| - 1] == '/';
    }
    assert i == |d| - 1;
  }

  /** Where the final suffix of `name` starts, if it has one: its last dot, not at position 0 nor at the end. */
  function SuffixStart(name: string): (i: int)
    ensures -1 <= i < |name|
  {
    var i := Text.LastIndexOf(name, '.');
    if 0 < i < |name| - 1 then i else -1
  }

  /** `Path.suffix` for a path whose name is `name`. */
  function Suffix(name: string): (suf: string)
    ensures |suf| <= |name| && name[|name| - |suf|..] == suf
    ensures suf == [] || (|suf| >= 2 && suf[0] == '.' && '.' !in suf[1..] && |suf| < |name|)
  {
    var i := SuffixStart(name);
    if i < 0 then "" else name[i..]
  }

  /** `Path.stem` for a path whose name is `name`. */
  function Stem(name: string): (stem: string)
    ensures stem + Suffix(name) == name
    ensures name != [] ==> stem != []
  {
    var i := SuffixStart(name);
    if i < 0 then name
    else
      assert name == name[..i] + name[i..];
      name[..i]
  }

  /** The suffixes `with_suffix` accepts without raising `ValueError`. */
  predicate ValidSuffix(suffix: string) {
    '/' !in suffix && (suffix == [] || (suffix[0] == '.' && suffix != "."))
  }

  /**
   * `Path(p).with_suffix(suffix)`: the path in the same directory whose name is the stem
   * followed by `suffix`, so the final suffix is replaced (or `suffix` appended when the name
   * has none). `None` stands for the `ValueError` raised for an empty name.
   */
  function WithSuffix(p: string, suffix: string): (r: Option<string>)
    requires ValidSuffix(suffix)
    ensures r.None? <==> Name(p) == []
  {
    if Name(p) == [] then None else Some(Dir(p) + (Stem(Name(p)) + suffix))
  }

  /** The result of `with_suffix` stays in the same directory, and its name is the stem followed by `suffix`. */
  lemma WithSuffixShape(p: string, suffix: string)
    requires ValidSuffix(suffix) && Name(p) != []
    ensures Dir(WithSuffix(p, suffix).value) == Dir(p)
    ensures Name(WithSuffix(p, suffix).value) == Stem(Name(p)) + suffix
  {
    NameShape(p);
    NoSlashInPrefix(Stem(Name(p)), Suffix(Name(p)));
    NoSlashInConcat(Stem(Name(p)), suffix);
    NameAfterDir(Dir(p), Stem(Name(p)) + suffix);
  }

  lemma NoSlashInPrefix(a: string, b: string)
    requires '/' !in a + b
    ensures '/' !in a
  {
    forall k | 0 <= k < |a| ensures a[k] != '/' {
      assert a[k] == (a + b)[k];
    }
  }

  lemma NoSlashInConcat(a: string, b: string)
    requires '/' !in a && '/' !in b
    ensures '/' !in a + b
  {
    forall k | 0 <= k < |a + b| ensures (a + b)[k] != '/' {
      if k < |a| { assert (a + b)[k] == a[k]; } else { assert (a + b)[k] == b[k - |a|]; }
    }
  }

  /** The final suffix of a name never contains `/`. */
  lemma SuffixHasNoSlash(p: string)
    ensures '/' !in Suffix(Name(p))
  {
    NameShape(p);
    NoSlashInSuffixPart(Stem(Name(p)), Suffix(Name(p)));
  }

  lemma NoSlashInSuffixPart(a: string, b: string)
    requires '/' !in a + b
    ensures '/' !in b
  {
    forall k | 0 <= k < |b| ensures b[k] != '/' {
      assert b[k] == (a + b)[|a| + k];
    }
  }

  /**
   * Replacing the final suffix by itself followed by `ext` appends `ext` to the whole path:
   * `Path("clip.mp4").with_suffix(".mp4" + ".json")` is `clip.mp4.json`.
   */
  lemma WithExtendedSuffix(p: string, ext: string)
    requires Name(p) != []
    requires '/' !in ext && |ext| >= 2 && ext[0] == '.'
    ensures ValidSuffix(Suffix(Name(p)) + ext)
    ensures WithSuffix(p, Suffix(Name(p)) + ext) == Some(p + ext)
  {
    SuffixHasNoSlash(p);
    ValidExtended(Suffix(Name(p)), ext);
    NameShape(p);
    Regroup(p, Dir(p), Name(p), Stem(Name(p)), Suffix(Name(p)), ext);
  }

  lemma Regroup(p: string, d: string, name: string, stem: string, suf: string, ext: string)
    requires d + name == p && stem + suf == name
    ensures d + (stem + (suf + ext)) == p + ext
  {
  }

  lemma ValidExtended(suf: string, ext: string)
    requires '/' !in suf && '/' !in ext && |ext| >= 2 && ext[0] == '.'
    requires suf == [] || suf[0] == '.'
    ensures ValidSuffix(suf + ext)
  {
    NoSlashInConcat(suf, ext);
    assert (suf + ext)[0] == '.';
    assert |suf + ext| >= 2;
  }
}
