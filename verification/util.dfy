/** The string helper shared by the capture and reader constructors (source/util.c). */
module Util {
  import opened Python

  const NotUnicodeMsg := "Cannot obtain a char * from a non-PyUnicode object"
  const NotAsciiMsg := "PyUnicode object could not be converted to ASCII"

  /** Every character is a 7-bit ASCII code point. */
  predicate IsAscii(s: string) {
    forall i :: 0 <= i < |s| ==> s[i] as int < 128
  }

  /**
   * PyUnicode_ToString: the ASCII buffer of a str. It fails, with AttributeError,
   * for anything that is not a str and for a str with a non-ASCII character; on
   * success the buffer holds the same characters in the same order.
   */
  function ToCString(obj: PyValue): (r: Result<string>)
    ensures r.Ok? <==> obj.PyStr? && IsAscii(obj.s)
    ensures r.Ok? ==> r.value == obj.s && IsAscii(r.value)
    ensures r.Err? ==> r.error.Raised? && r.error.kind == AttributeError
  {
    if !obj.PyStr? then Err(Raised(AttributeError, NotUnicodeMsg))
    else if !IsAscii(obj.s) then Err(Raised(AttributeError, NotAsciiMsg))
    else Ok(obj.s)
  }

  /**
   * What C code that reads a char buffer as a string sees of it: the characters
   * before the first NUL.
   */
  function CView(buf: string): (r: string)
    ensures |r| <= |buf| && r == buf[..|r|]
    ensures '\0' !in r
    ensures |r| < |buf| ==> buf[|r|] == '\0'
  {
    if buf == [] || buf[0] == '\0' then [] else [buf[0]] + CView(buf[1..])
  }

  /**
   * A C consumer of the converted buffer (fopen, for one) sees the whole name
   * exactly when the str has no NUL character; otherwise it sees a proper prefix.
   */
  lemma ToCStringSeenWhole(obj: PyValue)
    requires ToCString(obj).Ok?
    ensures CView(ToCString(obj).value) == obj.s <==> '\0' !in obj.s
    ensures '\0' in obj.s ==> |CView(ToCString(obj).value)| < |obj.s|
  {
  }
}
