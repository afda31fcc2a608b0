/** The `truncate(str, maxLength)` helper of the page script. */
module Truncation {

  /** `s.substring(0, end)`: an end below 0 counts as 0, one past the length as the length. */
  function Prefix(s: string, end: int): (r: string)
    ensures end <= 0 ==> r == []
    ensures 0 <= end <= |s| ==> |r| == end
    ensures end >= |s| ==> r == s
    ensures |r| <= |s| && r == s[..|r|]
  {
    s[..if end < 0 then 0 else if end > |s| then |s| else end]
  }

  /**
   * Empty input gives the empty string, input no longer than `maxLength` is
   * returned as it is, and longer input keeps its first `maxLength - 3`
   * characters followed by "...". Below a limit of 3 the kept prefix is empty,
   * so the result is "..." alone, longer than the limit.
   */
  function Truncate(str: string, maxLength: int): (r: string)
    ensures str == [] ==> r == []
    ensures |str| <= maxLength ==> r == str
    ensures |str| > maxLength >= 3 ==>
      |r| == maxLength && r[maxLength - 3..] == "..." && r[..maxLength - 3] == str[..maxLength - 3]
    ensures str != [] && |str| > maxLength && maxLength < 3 ==> r == "..." && |r| > maxLength
    ensures |r| <= (if maxLength < 3 then 3 else maxLength)
    ensures r != str ==> r[|r| - 3..] == "..."
  {
    if str == [] then []
    else if |str| <= maxLength then str
    else Prefix(str, maxLength - 3) + "..."
  }

  lemma TruncateExamples()
    ensures Truncate("abcdefghij", 5) == "ab..."
    ensures Truncate("abc", 5) == "abc"
    ensures Truncate("abcdef", 2) == "..."
  {
    assert "abcdefghij"[..2] == "ab";
  }
}
