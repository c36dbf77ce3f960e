/** The two functions of Go's strings package that the token check relies on. Go strings are
    byte sequences; they are modelled as sequences of characters, which agrees with Go for the
    ASCII prefix the handler strips. */
module Strings {
  /** strings.HasPrefix: `prefix` is an initial segment of `s`. */
  predicate HasPrefix(s: string, prefix: string) {
    |prefix| <= |s| && s[..|prefix|] == prefix
  }

  /** strings.TrimPrefix: removes `prefix` once when `s` starts with it, and otherwise returns
      `s` unchanged. */
  function TrimPrefix(s: string, prefix: string): (r: string)
    ensures prefix + r == s <==> HasPrefix(s, prefix)
    ensures !HasPrefix(s, prefix) ==> r == s
    ensures |r| <= |s|
  {
    if HasPrefix(s, prefix) then
      assert s == s[..|prefix|] + s[|prefix|..];
      s[|prefix|..]
    else
      s
  }
}
