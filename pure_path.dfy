/** The parts of Python's `pathlib.PurePosixPath` and `str` that the image handling relies on:
    `str.rfind`, `Path.name`, `Path.suffix` and `str.lower`. */
module PurePath {

  /** `s.rfind(c)`: the index of the last occurrence of `c` in `s`, or -1. */
  function RFind(s: string, c: char): (i: int)
    ensures -1 <= i < |s|
    ensures i >= 0 ==> s[i] == c
    ensures forall j :: i < j < |s| ==> s[j] != c
  {
    if |s| == 0 then -1
    else if s[|s| - 1] == c then |s| - 1
    else RFind(s[..|s| - 1], c)
  }

  /** The path with its trailing separators removed, as pathlib does when it parses it. */
  function TrimSeparators(path: string): (p: string)
    ensures p <= path
    ensures p == [] || p[|p| - 1] != '/'
    ensures forall k :: |p| <= k < |path| ==> path[k] == '/'
  {
    if |path| > 0 && path[|path| - 1] == '/' then TrimSeparators(path[..|path| - 1]) else path
  }

  /** `Path(path).name`: the final component, the text after the last separator. */
  function Name(path: string): (name: string)
    ensures '/' !in name
    ensures exists k :: 0 <= k <= |TrimSeparators(path)| && name == TrimSeparators(path)[k..]
                      && (k == 0 || TrimSeparators(path)[k - 1] == '/')
  {
    var p := TrimSeparators(path);
    var k := RFind(p, '/') + 1;
    assert forall j :: 0 <= j < |p[k..]| ==> p[k..][j] == p[k + j];
    p[k..]
  }

  /** `Path(path).suffix`: from the last dot of the name on, provided that dot is neither the
      first nor the last character of the name; otherwise the empty string. */
  function Suffix(path: string): (ext: string)
    ensures ext == [] || (|ext| >= 2 && ext[0] == '.' && '.' !in ext[1..])
    ensures ext != [] ==> exists k :: 0 < k < |Name(path)| - 1 && ext == Name(path)[k..]
    ensures ext == [] <==> !(0 < RFind(Name(path), '.') < |Name(path)| - 1)
  {
    var name := Name(path);
    var i := RFind(name, '.');
    if 0 < i < |name| - 1 then
      assert forall j :: 1 <= j < |name[i..]| ==> name[i..][j] == name[i + j];
      name[i..]
    else []
  }

  /** `str.lower()` on one character, restricted to ASCII letters. */
  function LowerChar(c: char): char
  {
    if 'A' <= c <= 'Z' then (c as int + 32) as char else c
  }

  /** `s.lower()`, restricted to ASCII letters. */
  function Lower(s: string): (r: string)
    ensures |r| == |s|
    ensures forall k :: 0 <= k < |s| ==> r[k] == LowerChar(s[k])
  {
    if |s| == 0 then [] else Lower(s[..|s| - 1]) + [LowerChar(s[|s| - 1])]
  }

  /** Lowering twice is lowering once: `s.lower().lower() == s.lower()`. */
  lemma {:induction false} LowerIdempotent(s: string)
    ensures Lower(Lower(s)) == Lower(s)
  {
    if |s| > 0 {
      LowerIdempotent(s[..|s| - 1]);
      assert Lower(s)[..|s| - 1] == Lower(s[..|s| - 1]);
    }
  }

  /** `Path.suffix` is taken from the final component and keeps its letter case. */
  lemma SuffixOfNestedPath()
    ensures Suffix("photos/cat.JPG") == ".JPG"
  {
    assert TrimSeparators("photos/cat.JPG") == "photos/cat.JPG";
    assert "photos/cat.JPG"[6] == '/';
    assert RFind("photos/cat.JPG", '/') == 6;
    assert Name("photos/cat.JPG") == "cat.JPG";
    assert "cat.JPG"[3] == '.';
    assert RFind("cat.JPG", '.') == 3;
  }

  /** `Path.suffix` counts the last dot only. */
  lemma SuffixOfDoubleExtension()
    ensures Suffix("a.tar.png") == ".png"
  {
    assert TrimSeparators("a.tar.png") == "a.tar.png";
    assert RFind("a.tar.png", '/') == -1;
    assert Name("a.tar.png") == "a.tar.png";
    assert "a.tar.png"[5] == '.';
    assert RFind("a.tar.png", '.') == 5;
  }

  /** A name whose only dot leads it (a hidden file), and a name without a dot, have no suffix. */
  lemma NoSuffixExamples()
    ensures Suffix("dir.d/.png") == ""
    ensures Suffix("image") == ""
  {
    assert "dir.d/.png"[5] == '/';
    assert RFind("dir.d/.png", '/') == 5;
    assert Name("dir.d/.png") == ".png";
    assert ".png"[0] == '.';
    assert RFind(".png", '.') == 0;
    assert RFind("image", '.') == -1;
  }
}
