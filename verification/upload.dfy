/**
 * Upload-name rules of the web application: which file names the leaf
 * endpoint accepts (`allowed_file`) and the name under which an upload
 * is stored (`<millis>_<original name>`).
 */
module Upload {
  import opened Wrappers

  /** The accepted extensions, already in lower case. */
  const AllowedExtensions: set<string> := {"png", "jpg", "jpeg"}

  /** ASCII lower-casing of one character. */
  function LowerChar(c: char): char
  {
    if 'A' <= c <= 'Z' then (c as int + 32) as char else c
  }

  /** Lower-casing keeps the length, leaves no ASCII capital and changes nothing else. */
  function Lower(s: string): (r: string)
    ensures |r| == |s|
    ensures forall i :: 0 <= i < |r| ==> !('A' <= r[i] <= 'Z')
    ensures forall i :: 0 <= i < |s| && !('A' <= s[i] <= 'Z') ==> r[i] == s[i]
  {
    seq(|s|, i requires 0 <= i < |s| => LowerChar(s[i]))
  }

  /**
   * Splits `s` at its LAST '.', as `s.rsplit(".", 1)` does: the text
   * before that dot and the text after it; None when there is no dot.
   */
  function RSplitDot(s: string): (r: Option<(string, string)>)
    ensures r.None? <==> '.' !in s
    ensures r.Some? ==> s == r.value.0 + "." + r.value.1 && '.' !in r.value.1
  {
    if s == [] then None
    else
      var init, last := s[..|s| - 1], s[|s| - 1];
      assert s == init + [last];
      if last == '.' then Some((init, ""))
      else match RSplitDot(init)
        case None => None
        case Some((head, tail)) => Some((head, tail + [last]))
  }

  /** `allowed_file`: a non-empty name whose text after the last dot lower-cases to an allowed extension. */
  predicate AllowedFile(filename: string)
    ensures AllowedFile(filename) ==> '.' in filename && |filename| >= 4
  {
    && filename != ""
    && match RSplitDot(filename)
       case None => false
       case Some((_, ext)) => Lower(ext) in AllowedExtensions
  }

  /** An index holding the last '.' of `s`. */
  predicate IsLastDot(s: string, i: int)
  {
    0 <= i < |s| && s[i] == '.' && '.' !in s[i + 1..]
  }

  /** No '.' follows the last dot. */
  lemma NoDotAfterLastDot(s: string, i: int)
    requires IsLastDot(s, i)
    ensures forall k :: i < k < |s| ==> s[k] != '.'
  {
  }

  lemma LastDotUnique(s: string, i: int, j: int)
    requires IsLastDot(s, i) && IsLastDot(s, j)
    ensures i == j
  {
  }

  /** `rsplit` splits at the last dot, and only there. */
  lemma RSplitDotOf(stem: string, ext: string)
    requires '.' !in ext
    ensures RSplitDot(stem + "." + ext) == Some((stem, ext))
  {
    var s := stem + "." + ext;
    assert s[|stem| + 1..] == ext;
    var head, tail := RSplitDot(s).value.0, RSplitDot(s).value.1;
    assert s[|head| + 1..] == tail;
    LastDotUnique(s, |stem|, |head|);
    assert stem == s[..|stem|] == head;
  }

  /**
   * A name is allowed exactly when it has a last dot and the text after
   * it lower-cases to png, jpg or jpeg.
   */
  lemma AllowedFileIff(filename: string)
    ensures AllowedFile(filename) <==>
      exists i :: IsLastDot(filename, i) && Lower(filename[i + 1..]) in AllowedExtensions
  {
    match RSplitDot(filename)
    case None =>
      forall i | 0 <= i < |filename| ensures filename[i] != '.' {
        assert filename[i] in filename;
      }
    case Some((head, ext)) =>
      var k := |head|;
      assert filename[k + 1..] == ext;
      assert IsLastDot(filename, k);
      forall i | IsLastDot(filename, i) ensures i == k {
        LastDotUnique(filename, i, k);
      }
  }

  /** Names the leaf endpoint turns away. */
  lemma RejectedNames()
    ensures !AllowedFile("")
    ensures !AllowedFile("noext")
    ensures !AllowedFile("leaf.txt")
    ensures !AllowedFile("photo.png.")
  {
  }

  /** Names it accepts: the extension is compared in lower case, after the last dot only. */
  lemma AcceptedNames()
    ensures AllowedFile("A.JPG")
    ensures AllowedFile("archive.tar.png")
    ensures AllowedFile("leaf.png")
  {
    assert "A.JPG" == "A" + "." + "JPG";
    RSplitDotOf("A", "JPG");
    assert Lower("JPG") == "jpg";
    assert "archive.tar.png" == "archive.tar" + "." + "png";
    RSplitDotOf("archive.tar", "png");
    assert Lower("png") == "png";
    assert "leaf.png" == "leaf" + "." + "png";
    RSplitDotOf("leaf", "png");
  }

  /** The character of one decimal digit. */
  function DigitChar(d: nat): char
    requires d < 10
  {
    ('0' as int + d) as char
  }

  predicate IsDigit(c: char)
  {
    '0' <= c <= '9'
  }

  /** Decimal rendering of a natural number, as Python's `str(int)`. */
  function Decimal(n: nat): (r: string)
    ensures r != []
    ensures forall i :: 0 <= i < |r| ==> IsDigit(r[i])
  {
    if n < 10 then [DigitChar(n)] else Decimal(n / 10) + [DigitChar(n % 10)]
  }

  /** The number a string of decimal digits denotes. */
  function DecimalValue(s: string): nat
    requires forall i :: 0 <= i < |s| ==> IsDigit(s[i])
  {
    if s == [] then 0
    else
      assert IsDigit(s[|s| - 1]);
      DecimalValue(s[..|s| - 1]) * 10 + (s[|s| - 1] as int - '0' as int)
  }

  /** Rendering a number in decimal loses nothing. */
  lemma {:induction false} DecimalRoundTrip(n: nat)
    ensures DecimalValue(Decimal(n)) == n
  {
    if n >= 10 {
      DecimalRoundTrip(n / 10);
      var d := Decimal(n);
      assert d[..|d| - 1] == Decimal(n / 10);
    }
  }

  /** The stored upload name: the millisecond stamp, an underscore, the original name. */
  function SavedName(millis: nat, filename: string): (r: string)
    ensures |r| > |filename|
    ensures r[|r| - |filename|..] == filename
    ensures exists k :: 0 < k < |r| && r[k] == '_' && (forall i :: 0 <= i < k ==> IsDigit(r[i])) && r[k + 1..] == filename
  {
    var d := Decimal(millis);
    var r := d + "_" + filename;
    assert r[|d|] == '_' && r[|d| + 1..] == filename;
    r
  }

  /**
   * Two uploads get the same stored name only when they carry the same
   * stamp and the same original name.
   */
  lemma SavedNameInjective(m1: nat, f1: string, m2: nat, f2: string)
    requires SavedName(m1, f1) == SavedName(m2, f2)
    ensures m1 == m2 && f1 == f2
  {
    var d1, d2 := Decimal(m1), Decimal(m2);
    var s := SavedName(m1, f1);
    assert s == d1 + "_" + f1 && s == d2 + "_" + f2;
    forall i | 0 <= i < |d1| ensures IsDigit(s[i]) {
      assert s[i] == d1[i];
    }
    forall i | 0 <= i < |d2| ensures IsDigit(s[i]) {
      assert s[i] == d2[i];
    }
    assert s[|d1|] == '_' && s[|d2|] == '_';
    assert d1 == s[..|d1|] == d2;
    assert f1 == s[|d1| + 1..] == f2;
    DecimalRoundTrip(m1);
    DecimalRoundTrip(m2);
  }
}
