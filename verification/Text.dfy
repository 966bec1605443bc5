/** Text operations of Python that several components use. */
module PythonText {

  /** White space of Python's `str.strip`. */
  predicate IsSpace(c: char) {
    var n := c as int;
    || 9 <= n <= 13 || 28 <= n <= 32 || n == 0x85 || n == 0xa0 || n == 0x1680 || 0x2000 <= n <= 0x200a
    || n == 0x2028 || n == 0x2029 || n == 0x202f || n == 0x205f || n == 0x3000
  }

  function StripLeft(s: string): string {
    if s != [] && IsSpace(s[0]) then StripLeft(s[1..]) else s
  }

  function StripRight(s: string): string {
    if s != [] && IsSpace(s[|s| - 1]) then StripRight(s[..|s| - 1]) else s
  }

  function Strip(s: string): string {
    StripRight(StripLeft(s))
  }

  /** The characters of `_CONTROL_RE`: tab, newline and carriage return are allowed. */
  predicate IsForbidden(c: char) {
    var n := c as int;
    n <= 8 || n == 11 || n == 12 || 14 <= n <= 31 || n == 127
  }

  predicate HasControl(s: string) {
    exists i :: 0 <= i < |s| && IsForbidden(s[i])
  }

  lemma {:induction false} StripRightEnds(s: string)
    ensures var r := StripRight(s); r == [] || !IsSpace(r[|r| - 1])
    ensures StripRight(s) <= s
  {
    if s != [] && IsSpace(s[|s| - 1]) {
      StripRightEnds(s[..|s| - 1]);
    }
  }

  lemma {:induction false} StripLeftStarts(s: string)
    ensures var r := StripLeft(s); r == [] || !IsSpace(r[0])
  {
    if s != [] && IsSpace(s[0]) {
      StripLeftStarts(s[1..]);
    }
  }

  lemma {:induction false} StripTwice(s: string)
    ensures Strip(Strip(s)) == Strip(s)
  {
    StripLeftStarts(s);
    StripRightEnds(StripLeft(s));
  }

  predicate AllSpaces(s: string) {
    forall i :: 0 <= i < |s| ==> IsSpace(s[i])
  }

  lemma {:induction false} SpaceMeans(c: char)
    ensures IsSpace(c) <==>
              c as int in {9, 10, 11, 12, 13, 28, 29, 30, 31, 32, 133, 160, 5760, 8192, 8193, 8194, 8195, 8196, 8197,
                           8198, 8199, 8200, 8201, 8202, 8232, 8233, 8239, 8287, 12288}
  {
  }

  lemma {:induction false} StripLeftMeans(s: string) returns (left: string)
    ensures AllSpaces(left) && s == left + StripLeft(s)
  {
    left := "";
    if s != [] && IsSpace(s[0]) {
      var more := StripLeftMeans(s[1..]);
      left := [s[0]] + more;
    }
  }

  lemma {:induction false} StripRightMeans(s: string) returns (right: string)
    ensures AllSpaces(right) && s == StripRight(s) + right
  {
    right := "";
    if s != [] && IsSpace(s[|s| - 1]) {
      var more := StripRightMeans(s[..|s| - 1]);
      right := more + [s[|s| - 1]];
      assert s == s[..|s| - 1] + [s[|s| - 1]];
    }
  }

  /** Stripping removes white space at both ends, all of it, and nothing else. */
  lemma {:induction false} StripMeans(s: string) returns (left: string, right: string)
    ensures AllSpaces(left) && AllSpaces(right) && s == left + Strip(s) + right
    ensures Strip(s) != "" ==> !IsSpace(Strip(s)[0]) && !IsSpace(Strip(s)[|Strip(s)| - 1])
  {
    left := StripLeftMeans(s);
    right := StripRightMeans(StripLeft(s));
    StripLeftStarts(s);
    StripRightEnds(StripLeft(s));
  }

  predicate Blank(s: string) {
    forall c :: c in s ==> IsSpace(c)
  }

  lemma {:induction false} BlankMeans(s: string)
    ensures Strip(s) == "" <==> Blank(s)
  {
    var left, right := StripMeans(s);
    if Strip(s) != "" {
      assert s[|left|] == Strip(s)[0];
    }
  }

  /** Text that may be stored: no control character but tab, newline and carriage return. */
  lemma {:induction false} ControlMeans(s: string)
    ensures HasControl(s) <==> exists c :: c in s && (c < ' ' || c as int == 127) && c != '\t' && c != '\n' && c != '\r'
  {
    if HasControl(s) {
      var i :| 0 <= i < |s| && IsForbidden(s[i]);
      assert s[i] in s;
    }
  }
}
