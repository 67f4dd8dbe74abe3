/** The few Python string operations the core relies on: `str.lower()`,
    the substring test `needle in hay`, `sep.join(parts)` and `str.strip()`.
    Case mapping and white space are modelled for ASCII characters only. */
module Text {

  /** Python's `str.lower()` on one character (ASCII letters only). */
  function LowerChar(c: char): (r: char)
  {
    if 'A' <= c <= 'Z' then (c as int + 32) as char else c
  }

  predicate IsUpper(c: char)
  {
    'A' <= c <= 'Z'
  }

  /** Python's `s.lower()`: every upper-case letter is replaced by its lower-case
      form, every other character is kept, and the length does not change. */
  function Lower(s: string): (r: string)
    ensures |r| == |s|
    ensures forall i :: 0 <= i < |s| ==> !IsUpper(r[i])
    ensures forall i :: 0 <= i < |s| && !IsUpper(s[i]) ==> r[i] == s[i]
  {
    seq(|s|, i requires 0 <= i < |s| => LowerChar(s[i]))
  }

  /** Lowering twice is lowering once. */
  lemma LowerIdempotent(s: string)
    ensures Lower(Lower(s)) == Lower(s)
  {
  }

  /** `needle` occurs in `hay` at position `i`. */
  predicate OccursAt(needle: string, hay: string, i: nat)
  {
    i + |needle| <= |hay| && hay[i..i + |needle|] == needle
  }

  /** Python's `needle in hay` for two strings (the empty string occurs in every string). */
  function Contains(hay: string, needle: string): (r: bool)
    decreases |hay|
  {
    if needle <= hay then true
    else if hay == [] then false
    else Contains(hay[1..], needle)
  }

  /** `Contains` is exactly "occurs at some position". */
  lemma {:induction false} ContainsIff(hay: string, needle: string)
    ensures Contains(hay, needle) <==> exists i: nat :: OccursAt(needle, hay, i)
    decreases |hay|
  {
    if needle <= hay {
      assert OccursAt(needle, hay, 0);
    } else if hay == [] {
      assert needle != [];
      forall i: nat ensures !OccursAt(needle, hay, i) {
      }
    } else {
      ContainsIff(hay[1..], needle);
      forall i: nat | OccursAt(needle, hay[1..], i) ensures OccursAt(needle, hay, i + 1) {
        assert hay[i + 1..i + 1 + |needle|] == hay[1..][i..i + |needle|];
      }
      forall i: nat | OccursAt(needle, hay, i) ensures i > 0 && OccursAt(needle, hay[1..], i - 1) {
        assert hay[1..][i - 1..i - 1 + |needle|] == hay[i..i + |needle|];
      }
    }
  }

  /** A string that starts with a character other than the needle's first one
      contains the needle exactly when its tail does. */
  lemma SkipMismatch(hay: string, needle: string)
    requires |hay| > 0 && |needle| > 0 && hay[0] != needle[0]
    ensures Contains(hay, needle) == Contains(hay[1..], needle)
  {
  }

  /** A string shorter than the needle does not contain it. */
  lemma {:induction false} ShorterMisses(hay: string, needle: string)
    requires |hay| < |needle|
    ensures !Contains(hay, needle)
    decreases |hay|
  {
    if hay != [] {
      ShorterMisses(hay[1..], needle);
    }
  }

  /** Python's `sep.join(parts)`. */
  function Join(sep: string, parts: seq<string>): (r: string)
  {
    if |parts| == 0 then ""
    else if |parts| == 1 then parts[0]
    else parts[0] + sep + Join(sep, parts[1..])
  }

  function TotalLength(parts: seq<string>): (r: nat)
  {
    if parts == [] then 0 else |parts[0]| + TotalLength(parts[1..])
  }

  /** The joined string holds every part once and one separator between each
      two neighbours, and nothing else. */
  lemma {:induction false} JoinLength(sep: string, parts: seq<string>)
    ensures |Join(sep, parts)| == TotalLength(parts) + if parts == [] then 0 else |sep| * (|parts| - 1)
  {
    if |parts| > 1 {
      JoinLength(sep, parts[1..]);
      assert TotalLength(parts) == |parts[0]| + TotalLength(parts[1..]);
    } else if |parts| == 1 {
      assert TotalLength(parts[1..]) == 0;
    }
  }

  /** Joining a list extended by one part puts one separator before the new part. */
  lemma {:induction false} JoinSnoc(sep: string, parts: seq<string>, last: string)
    ensures Join(sep, parts + [last]) == if parts == [] then last else Join(sep, parts) + sep + last
    decreases |parts|
  {
    if |parts| == 1 {
      assert parts + [last] == [parts[0], last];
    } else if |parts| > 1 {
      assert (parts + [last])[1..] == parts[1..] + [last];
      JoinSnoc(sep, parts[1..], last);
    }
  }

  /** Appending to a prefix of a string is appending to the string. */
  lemma AppendAssoc(a: string, b: string, sep: string, c: string)
    ensures a + (if sep == "" then b + c else b + sep + c) == a + b + sep + c
  {
  }

  /** The characters Python's `str.isspace()` accepts among the ASCII ones. */
  predicate IsSpace(c: char)
  {
    c == ' ' || c == '\t' || c == '\n' || c == '\r' || c == '\U{000B}' || c == '\U{000C}'
    || ('\U{001C}' <= c <= '\U{001F}')
  }

  /** Number of white-space characters at the start of `s`. */
  function LeadingSpaces(s: string): (n: nat)
    ensures n <= |s|
    ensures forall k :: 0 <= k < n ==> IsSpace(s[k])
    ensures n < |s| ==> !IsSpace(s[n])
  {
    if |s| > 0 && IsSpace(s[0]) then 1 + LeadingSpaces(s[1..]) else 0
  }

  /** Number of white-space characters at the end of `s`. */
  function TrailingSpaces(s: string): (n: nat)
    ensures n <= |s|
    ensures forall k :: |s| - n <= k < |s| ==> IsSpace(s[k])
    ensures n < |s| ==> !IsSpace(s[|s| - 1 - n])
  {
    if |s| > 0 && IsSpace(s[|s| - 1]) then 1 + TrailingSpaces(s[..|s| - 1]) else 0
  }

  /** Python's `s.strip()`: the slice of `s` left after removing the white space
      at both ends. */
  function Strip(s: string): (r: string)
    ensures r == [] || (!IsSpace(r[0]) && !IsSpace(r[|r| - 1]))
    ensures |r| <= |s|
  {
    var t := s[LeadingSpaces(s)..];
    t[..|t| - TrailingSpaces(t)]
  }

  /** What `Strip` removes is white space: `s` is its leading white space, then
      the stripped string, then white space. */
  lemma StripSlice(s: string)
    ensures LeadingSpaces(s) + |Strip(s)| <= |s|
    ensures Strip(s) == s[LeadingSpaces(s)..LeadingSpaces(s) + |Strip(s)|]
    ensures forall k :: 0 <= k < LeadingSpaces(s) ==> IsSpace(s[k])
    ensures forall k :: LeadingSpaces(s) + |Strip(s)| <= k < |s| ==> IsSpace(s[k])
  {
  }

  /** Stripping an already stripped string changes nothing. */
  lemma StripIdempotent(s: string)
    ensures Strip(Strip(s)) == Strip(s)
  {
    var r := Strip(s);
    if r != [] {
      assert LeadingSpaces(r) == 0;
      assert TrailingSpaces(r) == 0;
    }
  }
}
