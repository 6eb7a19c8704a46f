/** The one-line description of an error that the handler logs and passes
    to its callbacks: `PHP <TYPE>: <message>[ in <file>[ on line <n>]]`. */
module ErrorFormatting {
  import opened PhpValues
  import opened ErrorClassification

  /** The part every formatted string starts with. */
  function Header(code: int, message: string): string {
    "PHP " + ErrorType(code) + ": " + message
  }

  /** PHP's `empty()` on a string: true for the empty string and for "0". */
  predicate IsEmpty(s: string) {
    s == "" || s == "0"
  }

  /** `formatErrorString`: the header followed by the location, which is
      left out when the file is empty in PHP's sense. */
  function FormatErrorString(code: int, message: string, file: string, line: int): (r: string)
    ensures Header(code, message) <= r
    ensures IsEmpty(file) ==> r == Header(code, message)
    ensures !IsEmpty(file) ==> Header(code, message) + " in " + file <= r
  {
    AppendLocationPrefix(Header(code, message), file, line);
    AppendLocation(Header(code, message), file, line)
  }

  /** The location is appended only when the file is not empty in PHP's
      sense, and the line only when, in addition, it is not 0. */
  function AppendLocation(s: string, file: string, line: int): string {
    if !IsEmpty(file) then
      var located := s + " in " + file;
      if line != 0 then located + " on line " + IntToString(line) else located
    else s
  }

  /** Whatever the text before it, that text is kept in front, and the
      file follows it exactly when the file is not empty. */
  lemma AppendLocationPrefix(s: string, file: string, line: int)
    ensures s <= AppendLocation(s, file, line)
    ensures IsEmpty(file) ==> AppendLocation(s, file, line) == s
    ensures !IsEmpty(file) ==> s + " in " + file <= AppendLocation(s, file, line)
  {
    if !IsEmpty(file) {
      var located := s + " in " + file;
      PrefixOfAppend(s, " in ", file, if line != 0 then " on line " + IntToString(line) else "");
      if line == 0 {
        assert located + "" == located;
      }
    }
  }

  lemma PrefixOfAppend(s: string, a: string, b: string, c: string)
    ensures s <= s + a + b + c && s + a + b <= s + a + b + c
  {
    assert (s + a + b + c)[..|s|] == s;
    assert (s + a + b + c)[..|s + a + b|] == s + a + b;
  }

  /** The line follows the file exactly when the file is not empty and the
      line is not 0, and then it is all that follows. */
  lemma AppendLocationLine(s: string, file: string, line: int)
    ensures |AppendLocation(s, file, line)| > |s + " in " + file| <==> !IsEmpty(file) && line != 0
    ensures !IsEmpty(file) && line != 0 ==>
              AppendLocation(s, file, line)[|s + " in " + file|..] == " on line " + IntToString(line)
  {
    if !IsEmpty(file) && line != 0 {
      var located := s + " in " + file;
      var r := located + (" on line " + IntToString(line));
      assert AppendLocation(s, file, line) == r;
      assert r[|located|..] == " on line " + IntToString(line);
    }
  }

  /** Every formatted string starts with the header; the file follows
      exactly when it is not empty, and the line follows exactly when the
      file is not empty and the line is not 0. */
  lemma FormatErrorStringShape(code: int, message: string, file: string, line: int)
    ensures Header(code, message) <= FormatErrorString(code, message, file, line)
    ensures IsEmpty(file) ==> FormatErrorString(code, message, file, line) == Header(code, message)
    ensures !IsEmpty(file) ==> Header(code, message) + " in " + file <= FormatErrorString(code, message, file, line)
    ensures |FormatErrorString(code, message, file, line)| > |Header(code, message) + " in " + file|
            <==> !IsEmpty(file) && line != 0
    ensures !IsEmpty(file) && line != 0 ==>
              FormatErrorString(code, message, file, line)[|Header(code, message) + " in " + file|..]
              == " on line " + IntToString(line)
  {
    AppendLocationPrefix(Header(code, message), file, line);
    AppendLocationLine(Header(code, message), file, line);
  }

  /** With a file, distinct non-zero lines give distinct strings, so the
      line can be read back from what is logged. */
  lemma FormatDistinguishesLines(code: int, message: string, file: string, line1: int, line2: int)
    requires !IsEmpty(file) && line1 != 0 && line2 != 0
    requires FormatErrorString(code, message, file, line1) == FormatErrorString(code, message, file, line2)
    ensures line1 == line2
  {
    FormatErrorStringShape(code, message, file, line1);
    FormatErrorStringShape(code, message, file, line2);
    var n := |Header(code, message) + " in " + file|;
    var s := FormatErrorString(code, message, file, line1);
    assert s[n..] == " on line " + IntToString(line1) == " on line " + IntToString(line2);
    assert IntToString(line1) == (" on line " + IntToString(line1))[9..];
    assert IntToString(line2) == (" on line " + IntToString(line2))[9..];
    IntToStringInjective(line1, line2);
  }
}
