/** The handful of Python string operations the modelled code relies on. */
module Strings {

  /** Lower-casing of one character, over the ASCII letters. */
  function LowerChar(c: char): (r: char)
    ensures 'A' <= c <= 'Z' ==> r as int == c as int + 32
    ensures !('A' <= c <= 'Z') ==> r == c
  {
    if 'A' <= c <= 'Z' then (c as int + 32) as char else c
  }

  /** `str.lower()`: every character lower-cased, the length kept. */
  function Lower(s: string): (r: string)
    ensures |r| == |s|
    ensures forall i :: 0 <= i < |s| ==> r[i] == LowerChar(s[i])
  {
    if s == [] then [] else [LowerChar(s[0])] + Lower(s[1..])
  }

  /** `str.startswith(prefix)`. */
  predicate StartsWith(s: string, prefix: string) {
    |prefix| <= |s| && s[..|prefix|] == prefix
  }

  /** `pat in s` for strings: `pat` occurs somewhere in `s` as a contiguous piece. */
  predicate Contains(s: string, pat: string)
    decreases |s|
  {
    StartsWith(s, pat) || (|s| > 0 && Contains(s[1..], pat))
  }

  /** `str.endswith(suffix)`. */
  predicate EndsWith(s: string, suffix: string) {
    |suffix| <= |s| && s[|s| - |suffix|..] == suffix
  }

  /** The characters `str.strip()` removes: those for which Python's `str.isspace()` holds. */
  predicate IsSpace(c: char) {
    || c == ' ' || c == '\t' || c == '\n' || c == '\r' || c == '\U{B}' || c == '\U{C}'
    || c == '\U{1C}' || c == '\U{1D}' || c == '\U{1E}' || c == '\U{1F}'
    || c == '\U{85}' || c == '\U{A0}' || c == '\U{1680}'
    || ('\U{2000}' <= c <= '\U{200A}')
    || c == '\U{2028}' || c == '\U{2029}' || c == '\U{202F}' || c == '\U{205F}' || c == '\U{3000}'
  }

  /** `not s.strip()`: the string is empty or made only of whitespace. */
  predicate IsBlank(s: string) {
    forall i :: 0 <= i < |s| ==> IsSpace(s[i])
  }

  /** `sep.join(parts)`. */
  function Join(parts: seq<string>, sep: string): (r: string)
    ensures |parts| == 0 ==> r == ""
    ensures |parts| == 1 ==> r == parts[0]
  {
    if |parts| == 0 then ""
    else if |parts| == 1 then parts[0]
    else parts[0] + sep + Join(parts[1..], sep)
  }

  /** `list(filter(None, parts))`: the non-empty strings, in their order. */
  function NonEmpty(parts: seq<string>): (r: seq<string>)
    ensures |r| <= |parts|
    ensures forall i :: 0 <= i < |r| ==> r[i] != "" && r[i] in parts
    ensures forall i :: 0 <= i < |parts| && parts[i] != "" ==> parts[i] in r
  {
    if parts == [] then []
    else if parts[0] == "" then NonEmpty(parts[1..])
    else [parts[0]] + NonEmpty(parts[1..])
  }

  /** Filtering parts that are all non-empty keeps every one of them. */
  lemma {:induction false} NonEmptyKeepsAll(parts: seq<string>)
    requires forall i :: 0 <= i < |parts| ==> parts[i] != ""
    ensures NonEmpty(parts) == parts
  {
    if parts != [] {
      NonEmptyKeepsAll(parts[1..]);
      assert [parts[0]] + parts[1..] == parts;
    }
  }

  /** Joining one more part appends the separator and the part. */
  lemma {:induction false} JoinSnoc(parts: seq<string>, last: string, sep: string)
    requires |parts| > 0
    ensures Join(parts + [last], sep) == Join(parts, sep) + sep + last
  {
    if |parts| > 1 {
      assert (parts + [last])[1..] == parts[1..] + [last];
      JoinSnoc(parts[1..], last, sep);
    }
  }

  /** Joined parts end with the last part. */
  lemma JoinEndsWithLast(parts: seq<string>, sep: string)
    requires |parts| > 1
    ensures EndsWith(Join(parts, sep), sep + parts[|parts| - 1])
  {
    var init := parts[..|parts| - 1];
    assert parts == init + [parts[|parts| - 1]];
    JoinSnoc(init, parts[|parts| - 1], sep);
  }

  /** `s.split(d)` for a one-character separator: the maximal pieces between separators. */
  function Split(s: string, d: char): (r: seq<string>)
    ensures |r| >= 1
    ensures forall i :: 0 <= i < |r| ==> d !in r[i]
  {
    if s == [] then [""]
    else
      var rest := Split(s[1..], d);
      if s[0] == d then [""] + rest else [[s[0]] + rest[0]] + rest[1..]
  }

  /** Splitting a string without the separator gives the string itself. */
  lemma {:induction false} SplitNoSeparator(s: string, d: char)
    requires d !in s
    ensures Split(s, d) == [s]
  {
    if s != [] {
      assert d !in s[1..] by {
        forall c | c in s[1..] ensures c != d { assert c in s; }
      }
      SplitNoSeparator(s[1..], d);
      assert [s[0]] + s[1..] == s;
    }
  }

  /** Splitting and joining with the same separator gives back the string. */
  lemma {:induction false} JoinSplit(s: string, d: char)
    ensures Join(Split(s, d), [d]) == s
  {
    if s != [] {
      var rest := Split(s[1..], d);
      JoinSplit(s[1..], d);
      if s[0] == d {
        assert Split(s, d) == [""] + rest;
        if |rest| == 1 {
          assert Join(Split(s, d), [d]) == "" + [d] + rest[0];
        } else {
          assert ([""] + rest)[1..] == rest;
        }
      } else {
        var head := [s[0]] + rest[0];
        assert Split(s, d) == [head] + rest[1..];
        if |rest| == 1 {
          assert Join(rest, [d]) == rest[0];
        } else {
          assert ([head] + rest[1..])[1..] == rest[1..];
          assert rest == [rest[0]] + rest[1..];
          assert Join(rest, [d]) == rest[0] + [d] + Join(rest[1..], [d]);
        }
      }
    }
  }

  /** A separator between two pieces splits them apart: `(a + d + b).split(d) == a.split(d) + b.split(d)`. */
  lemma {:induction false} SplitAppend(a: string, b: string, d: char)
    ensures Split(a + [d] + b, d) == Split(a, d) + Split(b, d)
  {
    if a == [] {
      assert [d] + b == a + [d] + b;
      assert ([d] + b)[1..] == b;
    } else {
      assert (a + [d] + b)[1..] == a[1..] + [d] + b;
      SplitAppend(a[1..], b, d);
    }
  }
}
