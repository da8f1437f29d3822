/** The two Python string methods the core relies on: `str.lower` (goal,
    gender and activity labels), modelled on ASCII letters, and `str.strip`
    (column headers), with Python's full set of whitespace characters. */
module Text {
  import opened Wrappers

  predicate IsUpper(c: char) { 'A' <= c <= 'Z' }

  /** `str.lower` on one character: an ASCII capital becomes its lower-case
      letter, every other character is kept. */
  function LowerChar(c: char): (d: char)
    ensures IsUpper(c) ==> d as int == c as int + 32
    ensures !IsUpper(c) ==> d == c
    ensures !IsUpper(d)
  {
    if IsUpper(c) then (c as int + 32) as char else c
  }

  /** `s.lower()` */
  function Lower(s: string): (r: string)
    ensures |r| == |s|
    ensures forall i :: 0 <= i < |s| ==> r[i] == LowerChar(s[i])
  {
    seq(|s|, i requires 0 <= i < |s| => LowerChar(s[i]))
  }

  /** Python's `x or default` on an optional string: `None` and `""` are falsy. */
  function OrElse(x: Option<string>, default: string): (r: string)
    ensures x.Some? && x.value != "" ==> r == x.value
    ensures x.None? || x.value == "" ==> r == default
  {
    match x
    case None => default
    case Some(s) => if s == "" then default else s
  }

  /** The characters `str.isspace()` accepts, which `str.strip()` removes:
      tab to carriage return, the four ASCII separators U+001C-U+001F, the
      space, and the Unicode spaces and line or paragraph separators. */
  predicate IsSpace(c: char) {
    || '\t' <= c <= '\r'
    || '\U{1C}' <= c <= ' '
    || c == '\U{85}' || c == '\U{A0}' || c == '\U{1680}'
    || '\U{2000}' <= c <= '\U{200A}'
    || c == '\U{2028}' || c == '\U{2029}' || c == '\U{202F}' || c == '\U{205F}'
    || c == '\U{3000}'
  }

  /** `s.lstrip()`: the longest suffix of `s` that does not start with whitespace. */
  function StripLeft(s: string): (r: string)
    ensures |r| <= |s| && r == s[|s| - |r|..]
    ensures forall i :: 0 <= i < |s| - |r| ==> IsSpace(s[i])
    ensures |r| > 0 ==> !IsSpace(r[0])
  {
    if |s| > 0 && IsSpace(s[0]) then StripLeft(s[1..]) else s
  }

  /** `s.rstrip()`: the longest prefix of `s` that does not end with whitespace. */
  function StripRight(s: string): (r: string)
    ensures |r| <= |s| && r == s[..|r|]
    ensures forall i :: |r| <= i < |s| ==> IsSpace(s[i])
    ensures |r| > 0 ==> !IsSpace(r[|r| - 1])
  {
    if |s| > 0 && IsSpace(s[|s| - 1]) then StripRight(s[..|s| - 1]) else s
  }

  /** `s.strip()`: no longer than `s`, and neither starting nor ending with
      whitespace. */
  function Strip(s: string): (r: string)
    ensures |r| <= |s|
    ensures |r| > 0 ==> !IsSpace(r[0]) && !IsSpace(r[|r| - 1])
  {
    var l := StripLeft(s);
    var r := StripRight(l);
    assert |r| > 0 ==> r[0] == l[0];
    r
  }

  /** `s[i..j]` is what remains of `s` once only whitespace is cut from both ends. */
  predicate TrimmedTo(s: string, i: int, j: int) {
    && 0 <= i <= j <= |s|
    && (forall k :: 0 <= k < i ==> IsSpace(s[k]))
    && (forall k :: j <= k < |s| ==> IsSpace(s[k]))
  }

  /** `strip` keeps a contiguous slice of `s`, drops only whitespace around
      it, and leaves no whitespace at either end. */
  lemma StripSpec(s: string)
    ensures exists i, j :: TrimmedTo(s, i, j) && Strip(s) == s[i..j]
    ensures |Strip(s)| > 0 ==> !IsSpace(Strip(s)[0]) && !IsSpace(Strip(s)[|Strip(s)| - 1])
  {
    var l := StripLeft(s);
    var i := |s| - |l|;
    assert l == s[i..];
    var r := StripRight(l);
    var j := i + |r|;
    assert r == l[..|r|];
    assert Strip(s) == r;
    assert r == s[i..j];
    forall k | j <= k < |s|
      ensures IsSpace(s[k])
    {
      assert s[k] == l[k - i];
    }
    assert TrimmedTo(s, i, j);
  }

  /** A header label wrapped in an ASCII separator and a no-break space
      strips to the bare label. */
  lemma StripExample()
    ensures Strip("\U{1C}Food\U{A0}") == "Food"
  {
    var s := "\U{1C}Food\U{A0}";
    assert IsSpace(s[0]) && !IsSpace(s[1]);
    assert StripLeft(s[1..]) == s[1..];
    assert s[1..][..4] == "Food";
    assert IsSpace(s[5]) && !IsSpace(s[4]);
    assert StripRight(s[1..]) == StripRight(s[1..][..4]);
    assert StripRight("Food") == "Food";
  }
}
