/** Python's string operations the source relies on. */
module Text {
  /** The characters str.strip and str.split treat as white space. */
  predicate IsSpace(c: char) {
    var n := c as int;
    || 9 <= n <= 13 || 28 <= n <= 32 || n == 0x85 || n == 0xA0 || n == 0x1680
    || 0x2000 <= n <= 0x200A || n == 0x2028 || n == 0x2029 || n == 0x202F || n == 0x205F || n == 0x3000
  }

  function TrimStart(s: string): string {
    if s != [] && IsSpace(s[0]) then TrimStart(s[1..]) else s
  }

  function TrimEnd(s: string): string {
    if s != [] && IsSpace(s[|s| - 1]) then TrimEnd(s[..|s| - 1]) else s
  }

  function Strip(s: string): string {
    TrimEnd(TrimStart(s))
  }

  /** Stripping takes white space from the two ends, and all of it. */
  lemma StripTold(s: string) returns (before: string, after: string)
    ensures s == before + Strip(s) + after
    ensures (forall c :: c in before ==> IsSpace(c)) && (forall c :: c in after ==> IsSpace(c))
    ensures Strip(s) != [] ==> !IsSpace(Strip(s)[0]) && !IsSpace(Strip(s)[|Strip(s)| - 1])
  {
    before := StartTold(s);
    after := EndTold(TrimStart(s));
    var kept := Strip(s);
    assert kept != [] ==> kept[0] == TrimStart(s)[0];
  }

  lemma {:induction false} StartTold(s: string) returns (before: string)
    ensures s == before + TrimStart(s)
    ensures forall c :: c in before ==> IsSpace(c)
    ensures TrimStart(s) != [] ==> !IsSpace(TrimStart(s)[0])
  {
    before := [];
    if s != [] && IsSpace(s[0]) {
      var rest := StartTold(s[1..]);
      before := [s[0]] + rest;
      assert s == [s[0]] + s[1..];
    }
  }

  lemma {:induction false} EndTold(s: string) returns (after: string)
    ensures s == TrimEnd(s) + after
    ensures forall c :: c in after ==> IsSpace(c)
    ensures TrimEnd(s) != [] ==> !IsSpace(TrimEnd(s)[|TrimEnd(s)| - 1])
  {
    after := [];
    if s != [] && IsSpace(s[|s| - 1]) {
      var rest := EndTold(s[..|s| - 1]);
      after := rest + [s[|s| - 1]];
      assert s == s[..|s| - 1] + [s[|s| - 1]];
    }
  }

  /** The blanks a line of a file can end in count as white space, and no visible ASCII character does. */
  lemma BlanksAreSpaces(c: char)
    ensures c in " \t\r\n" ==> IsSpace(c)
    ensures 0x21 <= c as int <= 0x7E ==> !IsSpace(c)
  {
  }

  /** str.replace(part, ""): occurrences removed from the left, without overlap. */
  function Erase(s: string, part: string): string
    requires part != []
  {
    if s == [] then []
    else if part <= s then Erase(s[|part|..], part)
    else [s[0]] + Erase(s[1..], part)
  }

  predicate Contains(s: string, part: string)
    decreases |s|
  {
    part <= s || (s != [] && Contains(s[1..], part))
  }
}
