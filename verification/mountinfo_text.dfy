/**
 The text of /proc/self/mountinfo (proc(5)): octal escaping of path fields,
 splitting into lines and fields.
 */
module MountinfoText {
  import opened GoStrings

  // ----- Octal escapes

  function Octal(c: char): string
    requires c < 256 as char
  {
    var v := c as int;
    [(v / 64) as char + '0', (v / 8 % 8) as char + '0', (v % 8) as char + '0']
  }

  /** Print a path, writing every byte in `special` as a backslash and three octal digits. */
  function Escape(p: string, special: set<char>): string
    requires IsBytes(p)
  {
    if p == "" then "" else (if p[0] in special then "\\" + Octal(p[0]) else [p[0]]) + Escape(p[1..], special)
  }

  predicate IsOctal(c: char) {
    '0' <= c <= '7'
  }

  /** Three octal digits as one byte; an error for any other character or a value above 255. */
  function OctalByte(d: string): Option<char>
    requires |d| == 3
  {
    if IsOctal(d[0]) && IsOctal(d[1]) && IsOctal(d[2]) then
      var v := 64 * (d[0] - '0') as int + 8 * (d[1] - '0') as int + (d[2] - '0') as int;
      if v < 256 then Some(v as char) else None
    else None
  }

  function Unescape(p: string): string {
    if p == "" then ""
    else if p[0] == '\\' && |p| > 3 && OctalByte(p[1..4]).Some? then [OctalByte(p[1..4]).value] + Unescape(p[4..])
    else [p[0]] + Unescape(p[1..])
  }

  lemma {:induction false} UnescapePlain(p: string)
    requires '\\' !in p
    ensures Unescape(p) == p
  {
    if p != "" {
      UnescapePlain(p[1..]);
    }
  }

  method UnescapeMountPath(p: string) returns (r: string)
    ensures r == Unescape(p)
  {
    if '\\' !in p {
      UnescapePlain(p);
      return p;
    }
    r := "";
    var i := 0;
    assert p[0..] == p;
    while i < |p|
      invariant i <= |p| && Reached(p, i, r)
    {
      UnescapeStep(p, i, r);
      if p[i] == '\\' && i + 3 < |p| {
        var v := OctalByte(p[i + 1..i + 4]);
        if v.Some? {
          r := r + [v.value];
          i := i + 4;
          continue;
        }
      }
      r := r + [p[i]];
      i := i + 1;
    }
    assert p[i..] == "";
  }

  /** r is what the first i bytes stand for. */
  ghost predicate Reached(p: string, i: nat, r: string)
    requires i <= |p|
  {
    Unescape(p) == r + Unescape(p[i..])
  }

  lemma UnescapeStep(p: string, i: nat, r: string)
    requires i < |p| && Reached(p, i, r)
    ensures if p[i] == '\\' && i + 3 < |p| && OctalByte(p[i + 1..i + 4]).Some?
            then Reached(p, i + 4, r + [OctalByte(p[i + 1..i + 4]).value])
            else Reached(p, i + 1, r + [p[i]])
  {
    var s := p[i..];
    assert i + 3 < |p| ==> s[1..4] == p[i + 1..i + 4] && s[4..] == p[i + 4..];
    assert s[1..] == p[i + 1..];
  }

  lemma OctalByteOfOctal(c: char)
    requires c < 256 as char
    ensures OctalByte(Octal(c)) == Some(c)
  {
  }

  /** The escape sets from which every path can be read back. */
  predicate Recoverable(special: set<char>) {
    '\\' in special || {'0', '1', '2', '3'} <= special
  }

  /** A byte left unescaped is read back as itself. */
  lemma UnescapeLiteral(c: char, rest: string, special: set<char>)
    requires IsBytes(rest) && Recoverable(special) && c !in special
    ensures Unescape([c] + Escape(rest, special)) == [c] + Unescape(Escape(rest, special))
  {
  }

  lemma {:induction false} UnescapeEscape(p: string, special: set<char>)
    requires IsBytes(p) && Recoverable(special)
    ensures Unescape(Escape(p, special)) == p
  {
    if p != "" {
      var rest := Escape(p[1..], special);
      UnescapeEscape(p[1..], special);
      if p[0] in special {
        OctalByteOfOctal(p[0]);
        var s := "\\" + Octal(p[0]) + rest;
        assert s[1..4] == Octal(p[0]) && s[4..] == rest;
      } else {
        assert p == [p[0]] + p[1..];
        UnescapeLiteral(p[0], p[1..], special);
      }
    }
  }

  /** With an unescaped backslash and a free digit up to 3, a backslash and three such digits come back as one byte. */
  lemma UnescapeAmbiguous(special: set<char>, d: char)
    requires '\\' !in special && d in {'0', '1', '2', '3'} && d !in special
    ensures IsBytes(['\\', d, d, d]) && Unescape(Escape(['\\', d, d, d], special)) != ['\\', d, d, d]
  {
    var p := ['\\', d, d, d];
    assert p[1..] == [d, d, d] && p[1..][1..] == [d, d] && p[1..][1..][1..] == [d] && p[1..][1..][1..][1..] == "";
    assert Escape([d], special) == [d] + Escape("", special) == [d];
    assert Escape([d, d], special) == [d] + Escape([d], special) == [d, d];
    assert Escape([d, d, d], special) == [d] + Escape([d, d], special) == [d, d, d];
    assert Escape(p, special) == ['\\'] + Escape([d, d, d], special) == p;
    assert p[1..4] == [d, d, d] && p[4..] == "";
    assert |Unescape(p)| == 1;
  }

  /** Unescaping undoes escaping for every byte path exactly for these escape sets. */
  lemma EscapeRoundTrip(special: set<char>)
    ensures (forall p: string | IsBytes(p) :: Unescape(Escape(p, special)) == p) <==> Recoverable(special)
  {
    if Recoverable(special) {
      forall p: string | IsBytes(p) ensures Unescape(Escape(p, special)) == p {
        UnescapeEscape(p, special);
      }
    } else {
      var d :| d in {'0', '1', '2', '3'} && d !in special;
      UnescapeAmbiguous(special, d);
    }
  }

  lemma {:induction false} UnescapeBytes(p: string)
    requires IsBytes(p)
    ensures IsBytes(Unescape(p))
    decreases |p|
  {
    if p != "" {
      UnescapeBytes(p[1..]);
      if |p| > 3 {
        UnescapeBytes(p[4..]);
      }
    }
  }

  /** A path is printed as it is exactly if nothing in it is escaped. */
  lemma {:induction false} EscapeUnchanged(p: string, special: set<char>)
    requires IsBytes(p)
    ensures |Escape(p, special)| >= |p|
    ensures Escape(p, special) == p <==> forall c :: c in p ==> c !in special
    ensures Escape(p, special) != p ==> |Escape(p, special)| > |p|
  {
    if p != "" {
      EscapeUnchanged(p[1..], special);
      assert p == [p[0]] + p[1..];
      assert forall c :: c in p <==> c == p[0] || c in p[1..];
    }
  }

  lemma {:induction false} EscapedHasNoBlank(p: string)
    requires IsBytes(p)
    ensures forall c :: c in Escape(p, KERNEL_ESCAPES) ==> c !in {' ', '\t', '\n'}
  {
    if p != "" {
      EscapedHasNoBlank(p[1..]);
      assert forall c :: c in Octal(p[0]) ==> '0' <= c <= '7';
    }
  }

  lemma EscapeInjective(p: string, q: string, special: set<char>)
    requires IsBytes(p) && IsBytes(q) && Recoverable(special) && Escape(p, special) == Escape(q, special)
    ensures p == q
  {
    UnescapeEscape(p, special);
    UnescapeEscape(q, special);
  }

  // ----- Fields

  /** Length of the longest start of the text without white space. */
  function TokenLen(s: string): (n: nat)
    ensures n <= |s|
    ensures n == 0 <==> s == "" || SpaceWidth(s) > 0
  {
    if s == "" || SpaceWidth(s) > 0 then 0 else 1 + TokenLen(s[1..])
  }

  /** The maximal runs of non-space characters. */
  function Fields(s: string): seq<string> {
    if s == "" then []
    else if SpaceWidth(s) > 0 then Fields(s[SpaceWidth(s)..])
    else [s[..TokenLen(s)]] + Fields(s[TokenLen(s)..])
  }

  predicate NoSpace(s: string) {
    s == "" || (SpaceWidth(s) == 0 && NoSpace(s[1..]))
  }

  predicate IsToken(s: string) {
    s != "" && NoSpace(s)
  }

  function Join(tokens: seq<string>): string {
    if tokens == [] then "" else if |tokens| == 1 then tokens[0] else tokens[0] + " " + Join(tokens[1..])
  }

  lemma {:induction false} TokenBeforeBlank(token: string, rest: string)
    requires NoSpace(token)
    ensures TokenLen(token + " " + rest) == |token| && TokenLen(token) == |token|
  {
    if token != "" {
      TokenBeforeBlank(token[1..], rest);
      assert (token + " " + rest)[1..] == token[1..] + " " + rest;
    }
  }

  lemma {:induction false} FieldsOfJoin(tokens: seq<string>)
    requires forall i :: 0 <= i < |tokens| ==> IsToken(tokens[i])
    ensures Fields(Join(tokens)) == tokens
  {
    if |tokens| == 1 {
      TokenBeforeBlank(tokens[0], "");
      var t := tokens[0];
      assert t[|t|..] == "" && t[..|t|] == t;
      assert Fields(t) == [t] + Fields("") == [t];
    } else if |tokens| > 1 {
      var head, tail := tokens[0], Join(tokens[1..]);
      var s := head + " " + tail;
      TokenBeforeBlank(head, tail);
      assert s[|head|..] == " " + tail && (" " + tail)[1..] == tail && s[..|head|] == head;
      assert SpaceWidth(s) == 0;
      assert Fields(s) == [head] + Fields(tail);
      FieldsOfJoin(tokens[1..]);
    }
  }

  // ----- Lines

  function DropCR(line: string): string {
    if line != "" && line[|line| - 1] == '\r' then line[..|line| - 1] else line
  }

  /**
   The lines a scanner with a buffer of `max` bytes delivers, and whether it
   stopped with an error: a line that does not fit with its newline ends the scan.
   */
  function ScanLines(text: string, max: nat): (seq<string>, bool)
    decreases |text|
  {
    if text == "" then ([], false)
    else
      var n := IndexByte(text, '\n');
      if n >= max then ([], true)
      else
        var (lines, failed) := ScanLines(if n < |text| then text[n + 1..] else "", max);
        ([DropCR(text[..n])] + lines, failed)
  }

  function Unlines(lines: seq<string>): string {
    if lines == [] then "" else lines[0] + "\n" + Unlines(lines[1..])
  }

  predicate IsLine(line: string) {
    '\n' !in line && '\r' !in line
  }

  /** A line the scanner delivers unchanged. */
  predicate IsScanLine(line: string) {
    '\n' !in line && DropCR(line) == line
  }

  lemma ScanOfLine(head: string, rest: string, max: nat)
    requires IsScanLine(head)
    ensures ScanLines(head + "\n" + rest, max) ==
            if |head| >= max then ([], true) else ([head] + ScanLines(rest, max).0, ScanLines(rest, max).1)
  {
    var text := head + "\n" + rest;
    IndexByteFirst(head, '\n', rest);
    assert text == head + ['\n'] + rest;
    assert text[|head| + 1..] == rest && text[..|head|] == head;
  }

  lemma {:induction false} ScanOfUnlines(lines: seq<string>, max: nat)
    requires forall i :: 0 <= i < |lines| ==> IsScanLine(lines[i])
    ensures ScanLines(Unlines(lines), max).1 <==> exists l :: l in lines && |l| >= max
    ensures !ScanLines(Unlines(lines), max).1 ==> ScanLines(Unlines(lines), max).0 == lines
  {
    if lines != [] {
      ScanOfLine(lines[0], Unlines(lines[1..]), max);
      ScanOfUnlines(lines[1..], max);
      assert lines == [lines[0]] + lines[1..];
    }
  }

  lemma {:induction false} TokenIsLine(s: string)
    requires NoSpace(s)
    ensures IsLine(s)
  {
    if s != "" {
      TokenIsLine(s[1..]);
      assert s == [s[0]] + s[1..];
    }
  }

  lemma {:induction false} JoinIsLine(tokens: seq<string>)
    requires forall i :: 0 <= i < |tokens| ==> IsToken(tokens[i])
    ensures IsLine(Join(tokens))
  {
    if tokens != [] {
      TokenIsLine(tokens[0]);
      JoinIsLine(tokens[1..]);
    }
  }

  // ----- Paths as the kernel prints them

  /** The bytes the kernel escapes in the path fields (proc(5)). */
  const KERNEL_ESCAPES: set<char> := {' ', '\t', '\n', '\\'}

  /** A path whose only white space is space, tab and newline. */
  predicate PlainName(p: string) {
    p == "" || ((SpaceWidth(p) == 0 || p[0] in {' ', '\t', '\n'}) && PlainName(p[1..]))
  }

  lemma {:induction false} OctalDigitsNoSpace(d: string, rest: string)
    requires |d| <= 4 && (forall i :: 0 <= i < |d| ==> IsOctal(d[i]) || d[i] == '\\') && NoSpace(rest)
    ensures NoSpace(d + rest)
    decreases |d|
  {
    if d == "" {
      assert d + rest == rest;
    } else {
      OctalDigitsNoSpace(d[1..], rest);
      assert (d + rest)[1..] == d[1..] + rest;
    }
  }

  /**
   Every byte from 0x80 up stays where it is: the escaped text starts with a multi-byte
   space only if the path does.
   */
  lemma EscapeKeepsHighBytes(p: string)
    requires IsBytes(p)
    ensures p != "" && p[0] !in KERNEL_ESCAPES ==> SpaceWidth(Escape(p, KERNEL_ESCAPES)) > 0 ==> SpaceWidth(p) > 0
  {
    if p != "" && p[0] !in KERNEL_ESCAPES {
      var e := Escape(p, KERNEL_ESCAPES);
      assert e[0] == p[0];
      if |e| > 1 && e[1] >= 0x80 as char {
        assert e[1..] == Escape(p[1..], KERNEL_ESCAPES);
        assert p[1] !in KERNEL_ESCAPES && e[1] == p[1];
        if |e| > 2 && e[2] >= 0x80 as char {
          assert e[1..][1..] == Escape(p[1..][1..], KERNEL_ESCAPES);
          assert p[2] !in KERNEL_ESCAPES && e[2] == p[2];
        }
      }
    }
  }

  lemma {:induction false} EscapedIsToken(p: string)
    requires IsBytes(p) && PlainName(p)
    ensures NoSpace(Escape(p, KERNEL_ESCAPES))
    ensures p != "" ==> Escape(p, KERNEL_ESCAPES) != ""
  {
    if p != "" {
      EscapedIsToken(p[1..]);
      var rest := Escape(p[1..], KERNEL_ESCAPES);
      if p[0] in KERNEL_ESCAPES {
        OctalDigitsNoSpace("\\" + Octal(p[0]), rest);
      } else {
        EscapeKeepsHighBytes(p);
        assert Escape(p, KERNEL_ESCAPES)[1..] == rest;
      }
    }
  }
}
