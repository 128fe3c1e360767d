/**
 * The class-name file of the skin model: every line stripped of
 * surrounding whitespace, blank lines dropped, order kept.
 */
module ClassList {

  /** The characters Python's `str.strip()` removes (those for which `str.isspace()` holds). */
  predicate IsSpace(c: char)
  {
    || c == ' ' || c == '\t' || c == '\n' || c == '\r'
    || c == '\U{000B}' || c == '\U{000C}'
    || '\U{001C}' <= c <= '\U{001F}'
    || c == '\U{0085}' || c == '\U{00A0}' || c == '\U{1680}'
    || '\U{2000}' <= c <= '\U{200A}'
    || c == '\U{2028}' || c == '\U{2029}' || c == '\U{202F}' || c == '\U{205F}' || c == '\U{3000}'
  }

  /** Drops the leading whitespace: the result is a suffix that starts with a non-space. */
  function TrimStart(s: string): (r: string)
    ensures |r| <= |s| && r == s[|s| - |r|..]
    ensures forall k :: 0 <= k < |s| - |r| ==> IsSpace(s[k])
    ensures r != [] ==> !IsSpace(r[0])
  {
    if s != [] && IsSpace(s[0]) then TrimStart(s[1..]) else s
  }

  /** Drops the trailing whitespace: the result is a prefix that ends with a non-space. */
  function TrimEnd(s: string): (r: string)
    ensures |r| <= |s| && r == s[..|r|]
    ensures forall k :: |r| <= k < |s| ==> IsSpace(s[k])
    ensures r != [] ==> !IsSpace(r[|r| - 1])
  {
    if s != [] && IsSpace(s[|s| - 1]) then TrimEnd(s[..|s| - 1]) else s
  }

  /** `str.strip()`. */
  function Strip(s: string): (r: string)
    ensures |r| <= |s|
    ensures r != [] ==> !IsSpace(r[0]) && !IsSpace(r[|r| - 1])
  {
    TrimEnd(TrimStart(s))
  }

  /** How many whitespace characters `Strip` removes from the front of `s`. */
  function Lead(s: string): nat
  {
    |s| - |TrimStart(s)|
  }

  /**
   * Stripping yields the contiguous part of the line between its leading
   * and its trailing whitespace, with no whitespace at either end; it is
   * empty exactly when the line is all whitespace.
   */
  lemma StripSpec(s: string)
    ensures var r, i := Strip(s), Lead(s);
      && i + |r| <= |s| && r == s[i..i + |r|]
      && (forall k :: 0 <= k < i ==> IsSpace(s[k]))
      && (forall k :: i + |r| <= k < |s| ==> IsSpace(s[k]))
      && (r != [] ==> !IsSpace(r[0]) && !IsSpace(r[|r| - 1]))
  {
  }

  /** A line strips to nothing exactly when it is all whitespace. */
  lemma StripEmpty(s: string)
    ensures Strip(s) == [] <==> forall k :: 0 <= k < |s| ==> IsSpace(s[k])
  {
    StripSpec(s);
  }

  /** Stripping twice is stripping once. */
  lemma StripIdempotent(s: string)
    ensures Strip(Strip(s)) == Strip(s)
  {
    var r := Strip(s);
    if r != [] {
      StripSpec(s);
      assert TrimStart(r) == r;
      assert TrimEnd(r) == r;
    }
  }

  /** Every line stripped, blank or not, in order. */
  function StrippedLines(lines: seq<string>): (r: seq<string>)
    ensures |r| == |lines|
  {
    seq(|lines|, i requires 0 <= i < |lines| => Strip(lines[i]))
  }

  /** The non-empty names, in order. */
  function KeepNonEmpty(names: seq<string>): (kept: seq<string>)
    ensures |kept| <= |names|
    ensures forall i :: 0 <= i < |kept| ==> kept[i] != ""
  {
    if names == [] then []
    else if names[0] == "" then KeepNonEmpty(names[1..])
    else [names[0]] + KeepNonEmpty(names[1..])
  }

  /** The list comprehension that loads `classes.txt`, over the file's lines. */
  function ParseClassLines(lines: seq<string>): (classes: seq<string>)
    ensures |classes| <= |lines|
    ensures forall i :: 0 <= i < |classes| ==> classes[i] != ""
  {
    KeepNonEmpty(StrippedLines(lines))
  }

  lemma {:induction false} KeepNonEmptyAppend(a: seq<string>, b: seq<string>)
    ensures KeepNonEmpty(a + b) == KeepNonEmpty(a) + KeepNonEmpty(b)
  {
    if a != [] {
      assert (a + b)[1..] == a[1..] + b;
      KeepNonEmptyAppend(a[1..], b);
    } else {
      assert a + b == b;
    }
  }

  lemma {:induction false} KeepNonEmptyMembers(names: seq<string>, name: string)
    ensures name in KeepNonEmpty(names) <==> name != "" && name in names
  {
    if names != [] {
      KeepNonEmptyMembers(names[1..], name);
      assert names == [names[0]] + names[1..];
    }
  }

  /** Parsing works line by line: the classes of two blocks of lines are concatenated in order. */
  lemma ParseClassLinesAppend(a: seq<string>, b: seq<string>)
    ensures ParseClassLines(a + b) == ParseClassLines(a) + ParseClassLines(b)
  {
    var whole, parts := StrippedLines(a + b), StrippedLines(a) + StrippedLines(b);
    forall i | 0 <= i < |whole| ensures whole[i] == parts[i] {
      if i < |a| {
        assert (a + b)[i] == a[i];
      } else {
        assert (a + b)[i] == b[i - |a|];
      }
    }
    assert whole == parts;
    KeepNonEmptyAppend(StrippedLines(a), StrippedLines(b));
  }

  /** One line contributes its stripped text, or nothing when that is empty. */
  lemma ParseOneLine(line: string)
    ensures ParseClassLines([line]) == if Strip(line) == "" then [] else [Strip(line)]
  {
    assert StrippedLines([line]) == [Strip(line)];
  }

  /** A class is listed exactly when some line strips to it and it is not empty. */
  lemma ParseClassLinesMembers(lines: seq<string>, name: string)
    ensures name in ParseClassLines(lines) <==> name != "" && name in StrippedLines(lines)
  {
    KeepNonEmptyMembers(StrippedLines(lines), name);
  }

  /** Each listed class is already stripped: stripping it again changes nothing. */
  lemma ParsedClassesStripped(lines: seq<string>, name: string)
    requires name in ParseClassLines(lines)
    ensures Strip(name) == name
  {
    ParseClassLinesMembers(lines, name);
    var i :| 0 <= i < |lines| && StrippedLines(lines)[i] == name;
    StripIdempotent(lines[i]);
  }
}
