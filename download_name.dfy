/**
 * The file name offered when an ad's image is downloaded:
 * `title.replace(/[^a-z0-9]/gi, '_').toLowerCase() + '.jpg'`.
 */
module DownloadName {
  import opened JsText

  /** The characters the case-insensitive class `[a-z0-9]` matches. */
  predicate IsAsciiAlnum(c: char) {
    ('a' <= c <= 'z') || ('A' <= c <= 'Z') || ('0' <= c <= '9')
  }

  /** The characters a file-name stem can consist of. */
  predicate IsStemChar(c: char) {
    ('a' <= c <= 'z') || ('0' <= c <= '9') || c == '_'
  }

  /** `s.replace(/[^a-z0-9]/gi, '_')`: every character outside the class
      becomes one underscore. */
  function ReplaceNonAlnum(s: string): (r: string)
    ensures |r| == |s|
    ensures forall i :: 0 <= i < |s| ==> r[i] == (if IsAsciiAlnum(s[i]) then s[i] else '_')
  {
    seq(|s|, i requires 0 <= i < |s| => if IsAsciiAlnum(s[i]) then s[i] else '_')
  }

  /** The stem: the replacement, lower-cased. Position by position, an ASCII
      upper-case letter becomes its lower-case form, a lower-case letter or
      digit stays, and anything else becomes `_`. */
  function Stem(title: string): (r: string)
    ensures |r| == |title|
    ensures forall i :: 0 <= i < |title| ==> IsStemChar(r[i])
    ensures forall i :: 0 <= i < |title| && 'A' <= title[i] <= 'Z' ==> r[i] as int == title[i] as int + 32
    ensures forall i :: 0 <= i < |title| && (('a' <= title[i] <= 'z') || ('0' <= title[i] <= '9')) ==> r[i] == title[i]
    ensures forall i :: 0 <= i < |title| && !IsAsciiAlnum(title[i]) ==> r[i] == '_'
  {
    ToLower(ReplaceNonAlnum(title))
  }

  /** The download name: the stem followed by `.jpg`, one character of stem
      per character of title. */
  function DownloadFileName(title: string): (r: string)
    ensures |r| == |title| + 4
    ensures r[|title|..] == ".jpg"
    ensures r[..|title|] == Stem(title)
    ensures forall i :: 0 <= i < |title| ==> IsStemChar(r[i])
  {
    Stem(title) + ".jpg"
  }

  /** Sanitising a stem again leaves it unchanged. */
  lemma StemIdempotent(title: string)
    ensures Stem(Stem(title)) == Stem(title)
  {
    var s := Stem(title);
    forall i | 0 <= i < |s| ensures Stem(s)[i] == s[i] {
      assert IsStemChar(s[i]);
    }
  }
}
