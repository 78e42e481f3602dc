/**
 * The name an upload is stored under: the Multer `filename` callback of
 * src/server.ts, `basename(orig, ext) + "_" + token + ext` with
 * `ext = extname(orig)`. The random token (a v4 UUID in the program) is a
 * parameter. Names are taken to hold no path separator, so `extname` and
 * `basename` only look at dots.
 */
module StoredName {
  import opened Text

  const DotDot: JsString := [Dot, Dot]

  predicate HasNoDot(s: JsString) {
    forall i :: 0 <= i < |s| ==> s[i] != Dot
  }

  /** Index of the last `.` in `s`, or -1 when there is none. */
  function LastDot(s: JsString): (k: int)
    ensures -1 <= k < |s|
    ensures k >= 0 ==> s[k] == Dot
    ensures forall j :: k < j < |s| ==> s[j] != Dot
  {
    if s == [] then -1
    else if s[|s| - 1] == Dot then |s| - 1
    else LastDot(s[..|s| - 1])
  }

  /**
   * `path.extname(name)`: from the last dot to the end, or "" when there is
   * no dot, when the only dot that counts starts the name, or for "..".
   */
  function ExtName(name: JsString): (e: JsString)
    ensures |e| <= |name| && name[|name| - |e|..] == e
    ensures e != [] ==> e[0] == Dot && HasNoDot(e[1..]) && |e| < |name|
    ensures e == [] <==> LastDot(name) <= 0 || name == DotDot
    ensures e != [] ==> e == name[LastDot(name)..]
  {
    var k := LastDot(name);
    if k <= 0 || name == DotDot then [] else name[k..]
  }

  /** `path.basename(name, ext)`: `name` without a trailing `ext`; "" when they are equal. */
  function BaseName(name: JsString, ext: JsString): (b: JsString)
    ensures ext != [] && ext == name ==> b == []
    ensures ext != [] && |ext| < |name| && name[|name| - |ext|..] == ext ==> b + ext == name
    ensures ext == [] ==> b == name
  {
    if ext == [] then name
    else if ext == name then []
    else if |ext| < |name| && name[|name| - |ext|..] == ext then name[..|name| - |ext|]
    else name
  }

  /** The stored file name built from the original name and a unique token. */
  function StoredFilename(originalName: JsString, token: JsString): (r: JsString)
    ensures |r| == |originalName| + 1 + |token|
    ensures r[|r| - |ExtName(originalName)|..] == ExtName(originalName)
  {
    var ext := ExtName(originalName);
    BaseName(originalName, ext) + [Underscore] + token + ext
  }

  /**
   * The stored name is the original name with `_token` inserted before its
   * extension: it starts with the original's base name and ends with the
   * original extension.
   */
  lemma StoredFilenameShape(originalName: JsString, token: JsString)
    ensures var ext := ExtName(originalName);
      var stored := StoredFilename(originalName, token);
      var stem := originalName[..|originalName| - |ext|];
      && stem + ext == originalName
      && stored == stem + [Underscore] + token + ext
  {
  }

  /** A dot-free token keeps the extension: `extname` of the stored name is the original's. */
  lemma StoredFilenameKeepsExtension(originalName: JsString, token: JsString)
    requires HasNoDot(token)
    requires originalName != DotDot
    ensures ExtName(StoredFilename(originalName, token)) == ExtName(originalName)
  {
  }

  /**
   * The one name the extension rule treats specially: `..` has no extension,
   * but its stored name `.._<token>` has the extension `._<token>`.
   */
  lemma DotDotGainsExtension(token: JsString)
    requires HasNoDot(token)
    ensures ExtName(DotDot) == []
    ensures ExtName(StoredFilename(DotDot, token)) == [Dot, Underscore] + token
  {
    var stored := StoredFilename(DotDot, token);
    assert stored == DotDot + [Underscore] + token;
    forall j | 1 < j < |stored|
      ensures stored[j] != Dot
    {
      if j >= 3 {
        assert stored[j] == token[j - 3];
      }
    }
    LastDotIsUnique(stored, 1);
    assert stored[1..] == [Dot, Underscore] + token;
  }

  /** The last dot is the one dot with no dot after it (or -1 for a dot-free string). */
  lemma LastDotIsUnique(s: JsString, k: int)
    requires -1 <= k < |s|
    requires k >= 0 ==> s[k] == Dot
    requires forall j :: k < j < |s| ==> s[j] != Dot
    ensures LastDot(s) == k
  {
  }

  /** Two tokens give the same stored name for one original name only if they are equal. */
  lemma StoredFilenameInjective(originalName: JsString, token1: JsString, token2: JsString)
    requires StoredFilename(originalName, token1) == StoredFilename(originalName, token2)
    ensures token1 == token2
  {
    var ext := ExtName(originalName);
    var prefix := BaseName(originalName, ext) + [Underscore];
    var s1 := StoredFilename(originalName, token1);
    assert s1 == prefix + token1 + ext;
    assert |token1| == |token2|;
    assert token1 == s1[|prefix|..|prefix| + |token1|];
  }
}
