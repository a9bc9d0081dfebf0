/** The Python `str` operations the parsers rely on: `strip`, `join`,
    substring `in`, `startswith` and `lower`. */
module PyStrings {

  /** `c.isspace()` in Python 3: the characters `str.strip()` removes. */
  predicate IsSpace(c: char) {
    var n := c as int;
    n == 0x20 || 0x09 <= n <= 0x0D || 0x1C <= n <= 0x1F || n == 0x85 || n == 0xA0
    || n == 0x1680 || 0x2000 <= n <= 0x200A || n == 0x2028 || n == 0x2029
    || n == 0x202F || n == 0x205F || n == 0x3000
  }

  /** True when `s` is empty or neither starts nor ends with whitespace. */
  predicate Unpadded(s: string) {
    s == [] || (!IsSpace(s[0]) && !IsSpace(s[|s| - 1]))
  }

  /** True when every character of `s` is whitespace (`not s.strip()`). */
  predicate Blank(s: string) {
    forall i :: 0 <= i < |s| ==> IsSpace(s[i])
  }

  /** Number of leading whitespace characters. */
  function LeadingSpaces(s: string): (n: nat)
    ensures n <= |s|
    ensures forall i :: 0 <= i < n ==> IsSpace(s[i])
    ensures n < |s| ==> !IsSpace(s[n])
  {
    if s == [] || !IsSpace(s[0]) then 0 else 1 + LeadingSpaces(s[1..])
  }

  /** Number of trailing whitespace characters. */
  function TrailingSpaces(s: string): (n: nat)
    ensures n <= |s|
    ensures forall i :: |s| - n <= i < |s| ==> IsSpace(s[i])
    ensures n < |s| ==> !IsSpace(s[|s| - 1 - n])
  {
    if s == [] || !IsSpace(s[|s| - 1]) then 0 else 1 + TrailingSpaces(s[..|s| - 1])
  }

  /** `s.strip()`: the result is `s` without its whitespace ends. */
  function Strip(s: string): (r: string)
    ensures Unpadded(r)
    ensures exists a, b :: 0 <= a <= b <= |s| && r == s[a..b]
                           && Blank(s[..a]) && Blank(s[b..])
  {
    var a := LeadingSpaces(s);
    var b := if a == |s| then a else |s| - TrailingSpaces(s);
    assert a < |s| ==> a < b;
    assert forall i :: 0 <= i < |s| - b ==> s[b..][i] == s[b + i];
    s[a..b]
  }

  /** A string without whitespace ends is its own strip. */
  lemma {:induction false} StripUnpadded(s: string)
    requires Unpadded(s)
    ensures Strip(s) == s
  {
    if s != [] {
      assert LeadingSpaces(s) == 0;
      assert TrailingSpaces(s) == 0;
    }
  }

  /** A string made only of whitespace strips to "". */
  lemma {:induction false} StripBlank(s: string)
    requires Blank(s)
    ensures Strip(s) == ""
  {
    assert LeadingSpaces(s) == |s|;
  }

  /** `sep.join(parts)`. */
  function Join(sep: string, parts: seq<string>): (r: string)
    ensures parts != [] ==> parts[0] <= r
    ensures parts != [] ==> |parts[|parts| - 1]| <= |r|
    ensures parts != [] ==> r[|r| - |parts[|parts| - 1]|..] == parts[|parts| - 1]
    ensures parts == [] ==> r == ""
  {
    if parts == [] then ""
    else if |parts| == 1 then parts[0]
    else parts[0] + sep + Join(sep, parts[1..])
  }

  /** Joining one more part appends the separator and that part: consecutive
      parts are separated by exactly one `sep`. */
  lemma {:induction false} JoinAppend(sep: string, parts: seq<string>, x: string)
    requires parts != []
    ensures Join(sep, parts + [x]) == Join(sep, parts) + sep + x
  {
    if |parts| == 1 {
      assert (parts + [x])[1..] == [x];
    } else {
      var tail := parts[1..];
      assert (parts + [x])[1..] == tail + [x];
      var head := parts[0] + sep;
      assert Join(sep, parts + [x]) == head + Join(sep, tail + [x]);
      assert Join(sep, parts) == head + Join(sep, tail);
      JoinAppend(sep, tail, x);
      Reassociate(head, Join(sep, tail), sep, x);
    }
  }

  /** Regrouping a concatenation, in the shape JoinAppend needs. */
  lemma Reassociate(a: string, b: string, c: string, d: string)
    ensures a + (b + c + d) == a + b + c + d
  {
  }

  /** `sub in s` for strings. */
  predicate Contains(s: string, sub: string) {
    sub <= s || (s != [] && Contains(s[1..], sub))
  }

  /** Contains holds exactly when `sub` occurs at some position of `s`. */
  lemma {:induction false} ContainsIffOccurs(s: string, sub: string)
    ensures Contains(s, sub) <==> exists i :: 0 <= i <= |s| - |sub| && sub <= s[i..]
  {
    assert s[0..] == s;
    if s != [] {
      ContainsIffOccurs(s[1..], sub);
      if !(sub <= s) && exists i :: 0 <= i <= |s| - |sub| && sub <= s[i..] {
        var i :| 0 <= i <= |s| - |sub| && sub <= s[i..];
        assert i > 0;
        assert s[1..][i - 1..] == s[i..];
      }
      if Contains(s[1..], sub) {
        var i :| 0 <= i <= |s| - 1 - |sub| && sub <= s[1..][i..];
        assert s[1..][i..] == s[i + 1..];
      }
    }
  }

  /** `sub` (of two or more characters) is not in `s` when no occurrence of
      its first character is followed by its second. */
  lemma {:induction false} NotContainedWithoutFirstPair(s: string, sub: string)
    requires |sub| >= 2
    requires forall i :: 0 <= i < |s| - 1 && s[i] == sub[0] ==> s[i + 1] != sub[1]
    ensures !Contains(s, sub)
  {
    if |s| >= 2 {
      assert s[0] != sub[0] || s[1] != sub[1];
    }
    if s != [] {
      assert forall i :: 0 <= i < |s| - 1 ==> s[1..][i] == s[i + 1];
      NotContainedWithoutFirstPair(s[1..], sub);
    }
  }

  /** ASCII lower-casing of one character. */
  function LowerChar(c: char): char {
    if 'A' <= c <= 'Z' then (c as int + 32) as char else c
  }

  /** `s.lower()` restricted to ASCII letters. */
  function Lower(s: string): (r: string)
    ensures |r| == |s|
    ensures forall i :: 0 <= i < |s| ==> r[i] == LowerChar(s[i])
  {
    if s == [] then [] else [LowerChar(s[0])] + Lower(s[1..])
  }
}
