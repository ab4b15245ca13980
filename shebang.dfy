/** Removal of an interpreter directive (`#!...`) from a script before it is
    evaluated (nsh.js:55-56): when the text starts with `#!`, the first match
    of the regular expression `/^#!.*\n/` is replaced by nothing. */
module Shebang {
  import opened Text

  /** Where the line that contains position `i` ends: the first line
      terminator at or after `i`, or the end of the text. This is how far
      `.*` can reach from `i`. */
  function LineEnd(s: string, i: nat): (k: nat)
    requires i <= |s|
    ensures i <= k <= |s|
    ensures forall j :: i <= j < k ==> !IsLineTerminator(s[j])
    ensures k < |s| ==> IsLineTerminator(s[k])
    decreases |s| - i
  {
    if i == |s| || IsLineTerminator(s[i]) then i else LineEnd(s, i + 1)
  }

  /** `h` is a line that `/^#!.*\n/` matches in full: `#!`, characters other
      than line terminators, and a newline. */
  predicate IsShebangLine(h: string) {
    && |h| >= 3
    && h[..2] == "#!"
    && h[|h| - 1] == '\n'
    && forall i :: 2 <= i < |h| - 1 ==> !IsLineTerminator(h[i])
  }

  predicate NoLineTerminator(line: string) {
    forall i :: 0 <= i < |line| ==> !IsLineTerminator(line[i])
  }

  /** The script text that is evaluated once the directive is stripped.
      The result is either the text itself or the text without a leading
      line that the regular expression matches. */
  function StripShebang(code: string): (r: string)
    ensures !("#!" <= code) ==> r == code
    ensures r == code || (|r| < |code| && IsShebangLine(code[..|code| - |r|]) && code[|code| - |r|..] == r)
  {
    if "#!" <= code then
      var k := LineEnd(code, 2);
      if k < |code| && code[k] == '\n' then code[k + 1..] else code
    else code
  }

  /** A directive line followed by a newline is removed, and nothing else is. */
  lemma StripsDirectiveLine(line: string, rest: string)
    requires NoLineTerminator(line)
    ensures StripShebang("#!" + line + "\n" + rest) == rest
  {
    var code := "#!" + line + "\n" + rest;
    var n := 2 + |line|;
    assert code[n] == '\n';
    forall j | 2 <= j < n ensures !IsLineTerminator(code[j]) {
      assert code[j] == line[j - 2];
    }
    var k := LineEnd(code, 2);
    assert k == n;
    assert code[n + 1..] == rest;
  }

  /** A directive with no line after it (no newline at all) is left as it is. */
  lemma KeepsLoneDirective(line: string)
    requires NoLineTerminator(line)
    ensures StripShebang("#!" + line) == "#!" + line
  {
    var code := "#!" + line;
    forall j | 2 <= j < |code| ensures !IsLineTerminator(code[j]) {
      assert code[j] == line[j - 2];
    }
    assert LineEnd(code, 2) == |code|;
  }

  /** A directive line ended by a line terminator other than `\n` (as `\r` in
      a CRLF file) is left in place, since `.` cannot pass that terminator. */
  lemma KeepsOtherTerminator(line: string, t: char, rest: string)
    requires NoLineTerminator(line)
    requires IsLineTerminator(t) && t != '\n'
    ensures StripShebang("#!" + line + [t] + rest) == "#!" + line + [t] + rest
  {
    var code := "#!" + line + [t] + rest;
    var n := 2 + |line|;
    assert code[n] == t;
    forall j | 2 <= j < n ensures !IsLineTerminator(code[j]) {
      assert code[j] == line[j - 2];
    }
    assert LineEnd(code, 2) == n;
  }
}
