/** The file name given to an image converted to WebP: the requested name
    with `.webp` appended, or, when no name is requested, the original file
    name with its last extension replaced by `.webp`
    (`file.name.replace(/\.[^.]+$/, '.webp')`). */
module Images {
  import opened Wrappers

  /** Where the pattern `\.[^.]+$` matches: a dot at `p` followed by at
      least one character and by no other dot up to the end. */
  ghost predicate ExtensionAt(s: string, p: int) {
    0 <= p < |s| - 1 && s[p] == '.' && forall j :: p < j < |s| ==> s[j] != '.'
  }

  /** The position of the last dot of `s`, or -1. */
  function LastDot(s: string): (k: int)
    ensures -1 <= k < |s|
    ensures k >= 0 ==> s[k] == '.'
    ensures forall j :: k < j < |s| ==> s[j] != '.'
  {
    if |s| == 0 then -1
    else if s[|s| - 1] == '.' then |s| - 1
    else LastDot(s[..|s| - 1])
  }

  /** The replacement: the last `.ext` becomes `.webp`; a name without a
      dot, or ending in a dot, is unchanged. */
  function ReplaceExtension(s: string): string
  {
    var k := LastDot(s);
    if 0 <= k < |s| - 1 then s[..k] + ".webp" else s
  }

  /** The name of the converted file. `name` is `null` when absent; an empty
      name is falsy and also falls back to the original name. */
  function WebpFileName(name: Option<string>, fileName: string): (r: string)
    ensures name.Some? && name.value != "" ==> r == name.value + ".webp"
    ensures name.None? || name.value == "" ==> r == ReplaceExtension(fileName)
  {
    if name.Some? && name.value != "" then name.value + ".webp" else ReplaceExtension(fileName)
  }

  /** The pattern matches at one place at most. */
  lemma ExtensionUnique(s: string, p: int, q: int)
    requires ExtensionAt(s, p) && ExtensionAt(s, q)
    ensures p == q
  {
  }

  /** `ReplaceExtension` is the regular-expression replacement: where the
      pattern matches, everything before the match is kept and `.webp`
      follows; where it does not, the name is unchanged. */
  lemma ReplaceIsRegexReplace(s: string)
    ensures forall p :: ExtensionAt(s, p) ==> ReplaceExtension(s) == s[..p] + ".webp"
    ensures (forall p :: !ExtensionAt(s, p)) ==> ReplaceExtension(s) == s
  {
    var k := LastDot(s);
    forall p | ExtensionAt(s, p)
      ensures ReplaceExtension(s) == s[..p] + ".webp"
    {
      assert k == p;
    }
    if 0 <= k < |s| - 1 {
      assert ExtensionAt(s, k);
    }
  }

  /** A name without a dot, or ending in one, gets no `.webp`; otherwise
      the result keeps everything before the last dot and ends in
      `.webp`. */
  lemma FallbackShape(s: string)
    ensures (forall j :: 0 <= j < |s| ==> s[j] != '.') ==> ReplaceExtension(s) == s
    ensures |s| > 0 && s[|s| - 1] == '.' ==> ReplaceExtension(s) == s
    ensures ReplaceExtension(s) != s ==>
      var k := LastDot(s);
      ReplaceExtension(s)[..k] == s[..k] && ReplaceExtension(s)[k..] == ".webp"
  {
  }

  lemma Examples()
    ensures WebpFileName(None, "a.tar.gz") == "a.tar.webp"
    ensures WebpFileName(Some(""), "photo.png") == "photo.webp"
    ensures WebpFileName(Some("avatar"), "photo.png") == "avatar.webp"
    ensures WebpFileName(None, "README") == "README"
    ensures WebpFileName(None, "file.") == "file."
  {
    assert "a.tar.gz"[..7] == "a.tar.g" && "a.tar.g"[..6] == "a.tar.";
    assert LastDot("a.tar.") == 5;
    assert LastDot("a.tar.gz") == 5;
    assert "photo.png"[..8] == "photo.pn" && "photo.pn"[..7] == "photo.p";
    assert "photo.p"[..6] == "photo.";
    assert LastDot("photo.png") == 5;
  }
}
