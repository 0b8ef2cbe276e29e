/**
 * C strings. Text that leaves C++ through `c_str()`, `data()` or a `%s`
 * conversion is read up to its first NUL character and no further.
 */
module CStrings {

  /** The text a reader of `s` as a NUL-terminated C string sees. */
  function CString(s: string): (r: string)
    ensures |r| <= |s| && r == s[..|r|]
    ensures '\0' !in r
    ensures |r| < |s| ==> s[|r|] == '\0'
    ensures '\0' !in s ==> r == s
  {
    if s == [] || s[0] == '\0' then [] else [s[0]] + CString(s[1..])
  }
}
