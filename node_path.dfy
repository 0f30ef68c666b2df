/**
 * The parts of Node's posix `path` module that the core relies on: `basename`,
 * `extname`, `basename(p, extname(p))` and `join`, plus the ASCII part of
 * `String.prototype.toLowerCase`.  Paths are `/`-separated and carry no
 * trailing separator (chokidar reports files, never directories).
 */
module NodePath {

  /** Index of the last occurrence of `c` in `s`, or -1 when there is none. */
  function LastIndexOf(s: string, c: char): (r: int)
    ensures -1 <= r < |s|
    ensures r >= 0 ==> s[r] == c
    ensures forall k :: r < k < |s| ==> s[k] != c
  {
    if s == [] then -1
    else if s[|s| - 1] == c then |s| - 1
    else LastIndexOf(s[..|s| - 1], c)
  }

  /** `path.basename(p)`: everything after the last separator. */
  function BaseName(p: string): (r: string)
    ensures '/' !in r
    ensures |r| <= |p|
  {
    p[LastIndexOf(p, '/') + 1..]
  }

  /** The base name is a suffix of the path, and the character before it, if any, is the last separator. */
  lemma BaseNameIsSuffix(p: string)
    ensures p[|p| - |BaseName(p)|..] == BaseName(p)
    ensures |BaseName(p)| < |p| ==> p[|p| - |BaseName(p)| - 1] == '/'
  {
  }

  /**
   * `path.extname(p)`: the base name from its last dot on, except that a dot
   * that opens the base name (".bashrc") and the name ".." have no extension.
   */
  function ExtName(p: string): (r: string)
    ensures r == "" || (r[0] == '.' && '.' !in r[1..])
    ensures '/' !in r
    ensures |r| < |BaseName(p)| || r == ""
  {
    var b := BaseName(p);
    var d := LastIndexOf(b, '.');
    if d <= 0 || b == ".." then "" else b[d..]
  }

  /** `path.basename(p, path.extname(p))`: the base name with its extension cut off. */
  function Stem(p: string): string
  {
    var b := BaseName(p);
    b[..|b| - |ExtName(p)|]
  }

  /** `path.join(dir, name)` for a single name, without `.`/`..` normalisation. */
  function Join(dir: string, name: string): string
  {
    if dir == "" then name
    else if dir[|dir| - 1] == '/' then dir + name
    else dir + "/" + name
  }

  function LowerChar(c: char): char
  {
    if 'A' <= c <= 'Z' then (c as int - 'A' as int + 'a' as int) as char else c
  }

  /**
   * `s.toLowerCase()` on ASCII letters: no upper-case letter is left, each one
   * becomes the letter 32 code points above it, every other character is kept.
   */
  function ToLower(s: string): (r: string)
    ensures |r| == |s|
    ensures forall k :: 0 <= k < |r| ==> !('A' <= r[k] <= 'Z')
    ensures forall k :: 0 <= k < |s| && 'A' <= s[k] <= 'Z' ==> r[k] as int == s[k] as int + 32
    ensures forall k :: 0 <= k < |s| && !('A' <= s[k] <= 'Z') ==> r[k] == s[k]
  {
    seq(|s|, k requires 0 <= k < |s| => LowerChar(s[k]))
  }

  /** Lower-casing a lower-cased string changes nothing. */
  lemma ToLowerIdempotent(s: string)
    ensures ToLower(ToLower(s)) == ToLower(s)
  {
  }

  /** Two characters that are equal, or are the same ASCII letter in its two cases. */
  predicate SameIgnoringCase(c: char, d: char)
  {
    c == d || ('A' <= c <= 'Z' && d as int == c as int + 32) || ('A' <= d <= 'Z' && c as int == d as int + 32)
  }

  /** Two strings that differ at most in the case of their ASCII letters. */
  predicate EqualIgnoringCase(a: string, b: string)
  {
    |a| == |b| && forall k :: 0 <= k < |a| ==> SameIgnoringCase(a[k], b[k])
  }

  /** Lower-casing identifies exactly the strings that differ only in letter case. */
  lemma ToLowerEqualIffEqualIgnoringCase(a: string, b: string)
    ensures ToLower(a) == ToLower(b) <==> EqualIgnoringCase(a, b)
  {
    if ToLower(a) == ToLower(b) {
      forall k | 0 <= k < |a| ensures SameIgnoringCase(a[k], b[k]) {
        assert ToLower(a)[k] == ToLower(b)[k];
      }
    }
    if EqualIgnoringCase(a, b) {
      forall k | 0 <= k < |a| ensures ToLower(a)[k] == ToLower(b)[k] {
        assert SameIgnoringCase(a[k], b[k]);
      }
    }
  }

  /** The stem and the extension together make up the base name. */
  lemma StemAndExtension(p: string)
    ensures Stem(p) + ExtName(p) == BaseName(p)
    ensures Stem(p) == BaseName(p) || ExtName(p) != ""
    ensures BaseName(p) != "" ==> Stem(p) != ""
  {
    var b := BaseName(p);
    var d := LastIndexOf(b, '.');
    if d <= 0 || b == ".." {
      assert ExtName(p) == "";
      assert Stem(p) == b[..|b|] == b;
    } else {
      assert ExtName(p) == b[d..];
      assert Stem(p) == b[..d] && |b[..d]| == d;
      assert b[..d] + b[d..] == b;
    }
  }

  /** The base name of a joined path is the name that was joined on. */
  lemma BaseNameOfJoin(dir: string, name: string)
    requires name != "" && '/' !in name
    ensures BaseName(Join(dir, name)) == name
  {
    var j := Join(dir, name);
    var sep := |j| - |name| - 1;
    assert j[|j| - |name|..] == name;
    if dir != "" {
      assert j[sep] == '/';
      assert forall k :: sep < k < |j| ==> j[k] == name[k - sep - 1];
      assert LastIndexOf(j, '/') == sep;
    } else {
      assert LastIndexOf(j, '/') == -1;
    }
  }

  /** The name `stem.ext` has no separator, and its last dot is the one put between the two. */
  lemma DottedName(stem: string, ext: string)
    requires '/' !in stem && '.' !in ext && '/' !in ext
    ensures '/' !in stem + "." + ext
    ensures LastIndexOf(stem + "." + ext, '.') == |stem|
    ensures (stem + "." + ext)[..|stem|] == stem
    ensures (stem + "." + ext)[|stem|..] == "." + ext
  {
    DottedNameParts(stem, ext);
    LastDotOfDottedName(stem, ext);
  }

  /** `stem.ext` is `stem`, then the dot and `ext`, with no separator in it. */
  lemma DottedNameParts(stem: string, ext: string)
    requires '/' !in stem && '/' !in ext
    ensures '/' !in stem + "." + ext
    ensures (stem + "." + ext)[..|stem|] == stem
    ensures (stem + "." + ext)[|stem|..] == "." + ext
  {
  }

  /** The dot put between `stem` and a dot-free `ext` is the name's last dot. */
  lemma LastDotOfDottedName(stem: string, ext: string)
    requires '.' !in ext
    ensures LastIndexOf(stem + "." + ext, '.') == |stem|
  {
    var name := stem + "." + ext;
    assert name[|stem| + 1..] == ext;
    NotInSuffix(name, '.', |stem| + 1);
    LastIndexAt(name, '.', |stem|);
  }

  /** A position holding `c` with no `c` after it is the last index of `c`. */
  lemma LastIndexAt(s: string, c: char, i: int)
    requires 0 <= i < |s| && s[i] == c
    requires forall k :: i < k < |s| ==> s[k] != c
    ensures LastIndexOf(s, c) == i
  {
  }

  /** A character missing from a suffix occurs at none of its positions. */
  lemma NotInSuffix(s: string, c: char, i: nat)
    requires i <= |s| && c !in s[i..]
    ensures forall k :: i <= k < |s| ==> s[k] != c
  {
    forall k | i <= k < |s| ensures s[k] != c {
      assert s[k] == s[i..][k - i];
    }
  }

  /** Joining `stem.ext` onto a directory gives a path whose extension is `.ext` and whose stem is `stem`. */
  lemma JoinWithExtension(dir: string, stem: string, ext: string)
    requires stem != "" && '/' !in stem
    requires ext != "" && '.' !in ext && '/' !in ext
    ensures BaseName(Join(dir, stem + "." + ext)) == stem + "." + ext
    ensures ExtName(Join(dir, stem + "." + ext)) == "." + ext
    ensures Stem(Join(dir, stem + "." + ext)) == stem
  {
    var name := stem + "." + ext;
    DottedName(stem, ext);
    BaseNameOfJoin(dir, name);
    assert name != "..";
  }
}
