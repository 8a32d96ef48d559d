/**
 * The string operations the stream consumer and the send guard rely on:
 * `String.prototype.trim`, `String.prototype.split('\n')` and the
 * `filter(line => line.trim())` that drops blank lines.
 */
module Text {

  /** The characters `trim` removes: ECMAScript WhiteSpace and LineTerminator. */
  predicate IsWhitespace(c: char) {
    c == '\t' || c == '\n' || c == '\U{B}' || c == '\U{C}' || c == '\r' || c == ' '
    || c == '\U{A0}' || c == '\U{1680}' || ('\U{2000}' <= c <= '\U{200A}')
    || c == '\U{2028}' || c == '\U{2029}' || c == '\U{202F}' || c == '\U{205F}'
    || c == '\U{3000}' || c == '\U{FEFF}'
  }

  /** Every character of `s` is whitespace (this includes the empty string). */
  predicate IsBlank(s: string) {
    forall i :: 0 <= i < |s| ==> IsWhitespace(s[i])
  }

  /** `s` with its leading whitespace removed. */
  function TrimStart(s: string): (r: string)
    ensures |r| <= |s| && r == s[|s| - |r|..]
    ensures forall i :: 0 <= i < |s| - |r| ==> IsWhitespace(s[i])
    ensures r != [] ==> !IsWhitespace(r[0])
    decreases |s|
  {
    if |s| > 0 && IsWhitespace(s[0]) then TrimStart(s[1..]) else s
  }

  /** `s` with its trailing whitespace removed. */
  function TrimEnd(s: string): (r: string)
    ensures |r| <= |s| && r == s[..|r|]
    ensures forall i :: |r| <= i < |s| ==> IsWhitespace(s[i])
    ensures r != [] ==> !IsWhitespace(r[|r| - 1])
    decreases |s|
  {
    if |s| > 0 && IsWhitespace(s[|s| - 1]) then TrimEnd(s[..|s| - 1]) else s
  }

  /** `s.trim()`: both ends stripped of whitespace; empty exactly when `s` is blank,
      and otherwise starting and ending with a character that is not whitespace. */
  function Trim(s: string): (r: string)
    ensures r == [] <==> IsBlank(s)
    ensures r != [] ==> !IsWhitespace(r[0]) && !IsWhitespace(r[|r| - 1])
  {
    var t := TrimStart(s);
    assert t == [] <==> IsBlank(s) by {
      if t != [] {
        assert s[|s| - |t|] == t[0];
      }
    }
    TrimEnd(t)
  }

  /** What `trim` cuts off is whitespace only: the result is a middle slice of `s`
      with a blank part on either side. */
  lemma TrimCutsOnlyWhitespace(s: string)
    ensures var r := Trim(s);
            exists lo :: 0 <= lo <= |s| - |r| && r == s[lo..lo + |r|]
                         && IsBlank(s[..lo]) && IsBlank(s[lo + |r|..])
  {
    var t := TrimStart(s);
    var r := TrimEnd(t);
    var lo := |s| - |t|;
    LeadingPartIsBlank(s);
    TrailingPartIsBlank(t);
    assert s[lo + |r|..] == t[|r|..];
    assert r == s[lo..lo + |r|];
    assert 0 <= lo <= |s| - |r| && r == s[lo..lo + |r|] && IsBlank(s[..lo]) && IsBlank(s[lo + |r|..]);
  }

  lemma LeadingPartIsBlank(s: string)
    ensures IsBlank(s[..|s| - |TrimStart(s)|])
  {
    var head := s[..|s| - |TrimStart(s)|];
    forall i | 0 <= i < |head| ensures IsWhitespace(head[i]) {
      assert head[i] == s[i];
    }
  }

  lemma TrailingPartIsBlank(t: string)
    ensures IsBlank(t[|TrimEnd(t)|..])
  {
    var n := |TrimEnd(t)|;
    var tail := t[n..];
    forall i | 0 <= i < |tail| ensures IsWhitespace(tail[i]) {
      assert tail[i] == t[n + i];
    }
  }

  /** `parts.join(sep)` for a non-empty list of parts. */
  function Join(parts: seq<string>, sep: char): string
    requires |parts| >= 1
  {
    if |parts| == 1 then parts[0] else parts[0] + [sep] + Join(parts[1..], sep)
  }

  /** `s.split(sep)`: the pieces of `s` between separators; there is always at least one. */
  function Split(s: string, sep: char): (parts: seq<string>)
    ensures |parts| >= 1
    decreases |s|
  {
    if |s| == 0 then [""]
    else
      var rest := Split(s[1..], sep);
      if s[0] == sep then [""] + rest
      else [[s[0]] + rest[0]] + rest[1..]
  }

  /** The pieces are maximal: none holds the separator, and joining them gives `s` back. */
  lemma {:induction false} SplitSeparates(s: string, sep: char)
    ensures var parts := Split(s, sep);
            (forall i :: 0 <= i < |parts| ==> sep !in parts[i]) && Join(parts, sep) == s
    decreases |s|
  {
    if |s| > 0 {
      var rest := Split(s[1..], sep);
      SplitSeparates(s[1..], sep);
      assert [s[0]] + s[1..] == s;
      if s[0] != sep {
        var parts := Split(s, sep);
        assert parts == [[s[0]] + rest[0]] + rest[1..];
        assert sep !in [s[0]] + rest[0];
        if |rest| > 1 {
          assert parts[1..] == rest[1..];
          assert Join(rest, sep) == rest[0] + [sep] + Join(rest[1..], sep);
        }
      }
    }
  }

  /** Splitting at one separator occurrence splits the two sides independently. */
  lemma {:induction false} SplitAround(a: string, b: string, sep: char)
    ensures Split(a + [sep] + b, sep) == Split(a, sep) + Split(b, sep)
    decreases |a|
  {
    if |a| == 0 {
      assert a + [sep] + b == [sep] + b;
      assert ([sep] + b)[1..] == b;
    } else {
      assert (a + [sep] + b)[1..] == a[1..] + [sep] + b;
      SplitAround(a[1..], b, sep);
    }
  }

  /** A string without the separator is a single piece. */
  lemma {:induction false} SplitWithoutSeparator(s: string, sep: char)
    requires sep !in s
    ensures Split(s, sep) == [s]
    decreases |s|
  {
    if |s| > 0 {
      assert sep !in s[1..];
      SplitWithoutSeparator(s[1..], sep);
      assert [s[0]] + s[1..] == s;
    }
  }

  /** Split inverts Join on pieces that do not contain the separator. */
  lemma {:induction false} SplitJoin(parts: seq<string>, sep: char)
    requires |parts| >= 1
    requires forall i :: 0 <= i < |parts| ==> sep !in parts[i]
    ensures Split(Join(parts, sep), sep) == parts
    decreases |parts|
  {
    if |parts| == 1 {
      SplitWithoutSeparator(parts[0], sep);
    } else {
      SplitJoin(parts[1..], sep);
      SplitAround(parts[0], Join(parts[1..], sep), sep);
      SplitWithoutSeparator(parts[0], sep);
      assert [parts[0]] + parts[1..] == parts;
    }
  }

  /** `lines.filter(line => line.trim())`: the lines whose trimmed form is non-empty, in
      order. By the contract of `Trim`, that is exactly the lines that are not blank. */
  function KeepNonBlank(lines: seq<string>): (r: seq<string>)
    ensures |r| <= |lines|
  {
    if |lines| == 0 then []
    else if !IsBlank(lines[0]) then [lines[0]] + KeepNonBlank(lines[1..])
    else KeepNonBlank(lines[1..])
  }

  /** The filter keeps exactly the non-blank lines: everything kept is a non-blank
      line of the input, and every non-blank line of the input is kept. */
  lemma KeepNonBlankSelects(lines: seq<string>)
    ensures var r := KeepNonBlank(lines);
            (forall i :: 0 <= i < |r| ==> !IsBlank(r[i]) && r[i] in lines)
            && (forall i :: 0 <= i < |lines| && !IsBlank(lines[i]) ==> lines[i] in r)
  {
    KeepNonBlankSound(lines);
    KeepNonBlankComplete(lines);
  }

  lemma {:induction false} KeepNonBlankSound(lines: seq<string>)
    ensures forall i :: 0 <= i < |KeepNonBlank(lines)| ==>
              !IsBlank(KeepNonBlank(lines)[i]) && KeepNonBlank(lines)[i] in lines
    decreases |lines|
  {
    if |lines| > 0 {
      var tail := lines[1..];
      var rest := KeepNonBlank(tail);
      KeepNonBlankSound(tail);
      forall i | 0 <= i < |rest| ensures rest[i] in lines {
        assert rest[i] in tail;
      }
      if !IsBlank(lines[0]) {
        var r := [lines[0]] + rest;
        assert KeepNonBlank(lines) == r;
        forall i | 0 <= i < |r| ensures !IsBlank(r[i]) && r[i] in lines {
          if i > 0 { assert r[i] == rest[i - 1]; }
        }
      } else {
        assert KeepNonBlank(lines) == rest;
      }
    }
  }

  lemma {:induction false} KeepNonBlankComplete(lines: seq<string>)
    ensures forall i :: 0 <= i < |lines| && !IsBlank(lines[i]) ==> lines[i] in KeepNonBlank(lines)
    decreases |lines|
  {
    if |lines| > 0 {
      var rest := KeepNonBlank(lines[1..]);
      KeepNonBlankComplete(lines[1..]);
      assert KeepNonBlank(lines) == (if !IsBlank(lines[0]) then [lines[0]] + rest else rest);
      forall i | 0 <= i < |lines| && !IsBlank(lines[i]) ensures lines[i] in KeepNonBlank(lines) {
        if i > 0 {
          assert lines[i] == lines[1..][i - 1];
          assert lines[i] in rest;
        }
      }
    }
  }

  lemma {:induction false} KeepNonBlankAppend(xs: seq<string>, ys: seq<string>)
    ensures KeepNonBlank(xs + ys) == KeepNonBlank(xs) + KeepNonBlank(ys)
    decreases |xs|
  {
    if |xs| == 0 {
      assert xs + ys == ys;
    } else {
      assert (xs + ys)[1..] == xs[1..] + ys;
      KeepNonBlankAppend(xs[1..], ys);
    }
  }

  /** `chunk.split('\n').filter(line => line.trim())`: the lines one chunk yields. */
  function NonBlankLines(chunk: string): seq<string> {
    KeepNonBlank(Split(chunk, '\n'))
  }

  /** Each line a chunk yields is non-blank and holds no newline. */
  lemma NonBlankLinesAreLines(chunk: string)
    ensures var r := NonBlankLines(chunk);
            forall i :: 0 <= i < |r| ==> !IsBlank(r[i]) && '\n' !in r[i]
  {
    var parts := Split(chunk, '\n');
    SplitSeparates(chunk, '\n');
    KeepNonBlankSelects(parts);
    var r := NonBlankLines(chunk);
    forall i | 0 <= i < |r| ensures '\n' !in r[i] {
      var j :| 0 <= j < |parts| && parts[j] == r[i];
    }
  }

  /** The pieces of a string that ends in a separator end with one empty piece. */
  lemma SplitEndingInSeparator(a: string, sep: char)
    requires |a| > 0 && a[|a| - 1] == sep
    ensures Split(a, sep) == Split(a[..|a| - 1], sep) + [""]
  {
    assert a == a[..|a| - 1] + [sep] + "";
    SplitAround(a[..|a| - 1], "", sep);
  }

  /** Appending to a string that ends in a separator appends pieces. */
  lemma SplitAfterSeparator(a: string, b: string, sep: char)
    requires |a| > 0 && a[|a| - 1] == sep
    ensures Split(a + b, sep) == Split(a[..|a| - 1], sep) + Split(b, sep)
  {
    assert a + b == a[..|a| - 1] + [sep] + b;
    SplitAround(a[..|a| - 1], b, sep);
  }

  lemma KeepNonBlankDropsEmptyLine(lines: seq<string>)
    ensures KeepNonBlank(lines + [""]) == KeepNonBlank(lines)
  {
    KeepNonBlankAppend(lines, [""]);
    assert Trim("") == "";
    assert KeepNonBlank([""]) == [];
  }

  /** A chunk that ends in a newline contributes its lines and nothing more:
      the lines of `a + b` are the lines of `a` followed by the lines of `b`. */
  lemma NonBlankLinesAppend(a: string, b: string)
    requires |a| > 0 && a[|a| - 1] == '\n'
    ensures NonBlankLines(a + b) == NonBlankLines(a) + NonBlankLines(b)
  {
    var front := Split(a[..|a| - 1], '\n');
    SplitAfterSeparator(a, b, '\n');
    SplitEndingInSeparator(a, '\n');
    KeepNonBlankAppend(front, Split(b, '\n'));
    KeepNonBlankDropsEmptyLine(front);
  }

  /** The concatenation of a list of strings, in order. */
  function Concat(parts: seq<string>): string {
    if |parts| == 0 then "" else parts[0] + Concat(parts[1..])
  }
}
