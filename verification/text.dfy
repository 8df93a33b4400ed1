/** Substring search, as `String.contains` performs it on the request URL. */
module Text {

  /** `pattern` occurs somewhere inside `text` (the empty pattern occurs everywhere). */
  ghost predicate OccursIn(pattern: string, text: string)
  {
    exists i :: 0 <= i <= |text| && pattern <= text[i..]
  }

  /** Executable substring test: tries each start position from left to right. */
  function Contains(text: string, pattern: string): (r: bool)
    ensures r <==> OccursIn(pattern, text)
    decreases |text|
  {
    if pattern <= text then
      assert text[0..] == text;
      true
    else if |text| == 0 then
      false
    else
      var rest := Contains(text[1..], pattern);
      assert forall i :: 0 <= i < |text| ==> text[1..][i..] == text[i + 1..];
      assert OccursIn(pattern, text) ==> OccursIn(pattern, text[1..]) by {
        if OccursIn(pattern, text) {
          var i :| 0 <= i <= |text| && pattern <= text[i..];
          assert i != 0 by { assert text[0..] == text; }
          assert pattern <= text[1..][i - 1..];
        }
      }
      rest
  }
}
