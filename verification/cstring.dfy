/**
 * What a C `const char*` reading of a string yields. The dispatcher formats
 * its replies with `%s`, builds JSON strings from `what()` and copies names
 * with snprintf; each of these stops at the first NUL character.
 */
module CString {
  const NUL: char := '\0'

  /** The characters of s before its first NUL (all of s when it has none). */
  function CStr(s: string): (r: string)
    ensures |r| <= |s| && r == s[..|r|]
    ensures NUL !in r
    ensures |r| < |s| ==> s[|r|] == NUL
    ensures NUL !in s ==> r == s
  {
    if s == [] || s[0] == NUL then []
    else
      var rest := CStr(s[1..]);
      assert s[..1 + |rest|] == [s[0]] + s[1..][..|rest|];
      [s[0]] + rest
  }

  /** A NUL-free head survives a C-string reading; only the tail is cut. */
  lemma {:induction false} CStrAppend(a: string, b: string)
    requires NUL !in a
    ensures CStr(a + b) == a + CStr(b)
  {
    if a == [] {
      assert a + b == b;
    } else {
      var ab := a + b;
      assert ab[0] == a[0] != NUL;
      assert ab[1..] == a[1..] + b;
      CStrAppend(a[1..], b);
      assert CStr(ab) == [a[0]] + CStr(ab[1..]);
      assert a == [a[0]] + a[1..];
    }
  }

  /**
   * snprintf(buf, size, "%s", s) with size > 0: the C string of s, cut to at
   * most size - 1 characters so that the terminating NUL fits.
   */
  function Snprintf(s: string, size: nat): (r: string)
    requires size > 0
    ensures |r| < size && |r| <= |CStr(s)|
    ensures r == CStr(s)[..|r|]
    ensures |CStr(s)| < size ==> r == CStr(s)
    ensures |CStr(s)| >= size ==> |r| == size - 1
  {
    var c := CStr(s);
    if |c| < size then c else c[..size - 1]
  }
}
