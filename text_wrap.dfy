/**
 * Python's `textwrap.dedent`, which `setup_extract` applies to its JSON-mode
 * instruction: lines made only of spaces and tabs become empty, and the longest
 * common leading whitespace of the other lines is removed from each of them.
 */
module TextWrap {
  import opened Wrappers

  /** The characters `dedent` treats as indentation. */
  predicate IsIndentChar(c: char) {
    c == ' ' || c == '\t'
  }

  /** A line with nothing but indentation (or nothing at all). */
  predicate IsBlank(line: string) {
    forall i :: 0 <= i < |line| ==> IsIndentChar(line[i])
  }

  /** `s.split("\n")`. */
  function Lines(s: string): (ls: seq<string>)
    ensures |ls| >= 1
  {
    if s == [] then [""]
    else
      var rest := Lines(s[1..]);
      if s[0] == '\n' then [""] + rest else [[s[0]] + rest[0]] + rest[1..]
  }

  /** `"\n".join(ls)`. */
  function Join(ls: seq<string>): string
    requires |ls| >= 1
  {
    if |ls| == 1 then ls[0] else ls[0] + "\n" + Join(ls[1..])
  }

  /** A text without line breaks is a single line. */
  lemma {:induction false} LinesOfLine(s: string)
    requires '\n' !in s
    ensures Lines(s) == [s]
  {
    if s != [] {
      assert s[0] != '\n' && '\n' !in s[1..];
      LinesOfLine(s[1..]);
      assert [s[0]] + s[1..] == s;
    }
  }

  /** Splitting at a line break concatenates the lines of both sides. */
  lemma {:induction false} LinesAppend(a: string, b: string)
    ensures Lines(a + "\n" + b) == Lines(a) + Lines(b)
  {
    if a == [] {
      assert a + "\n" + b == "\n" + b;
      assert ("\n" + b)[1..] == b;
    } else {
      assert (a + "\n" + b)[1..] == a[1..] + "\n" + b;
      assert (a + "\n" + b)[0] == a[0];
      LinesAppend(a[1..], b);
    }
  }

  /** Splitting and joining again gives the text back. */
  lemma {:induction false} JoinLines(s: string)
    ensures Join(Lines(s)) == s
  {
    if s != [] {
      JoinLines(s[1..]);
      var rest := Lines(s[1..]);
      if s[0] == '\n' {
        assert Lines(s) == [""] + rest;
        assert Lines(s)[1..] == rest;
        assert s == [s[0]] + s[1..];
      } else {
        if |rest| == 1 {
          assert s == [s[0]] + rest[0];
        } else {
          assert Lines(s)[1..] == rest[1..];
          assert Join(rest) == rest[0] + "\n" + Join(rest[1..]);
          assert s == [s[0]] + s[1..];
        }
      }
    }
  }

  /** The leading indentation of a line. */
  function Indent(line: string): (ind: string)
    ensures ind <= line && IsBlank(ind)
    ensures |ind| < |line| ==> !IsIndentChar(line[|ind|])
  {
    if line != [] && IsIndentChar(line[0]) then [line[0]] + Indent(line[1..]) else []
  }

  /** Indentation followed by more text has that indentation and the text's own. */
  lemma {:induction false} IndentAfterPad(pad: string, text: string)
    requires IsBlank(pad)
    ensures Indent(pad + text) == pad + Indent(text)
  {
    if pad != [] {
      assert (pad + text)[1..] == pad[1..] + text;
      IndentAfterPad(pad[1..], text);
    } else {
      assert pad + text == text;
    }
  }

  /** The longest common prefix of two strings. */
  function CommonPrefix(a: string, b: string): (p: string)
    ensures p <= a && p <= b
    ensures |p| < |a| && |p| < |b| ==> a[|p|] != b[|p|]
  {
    if a != [] && b != [] && a[0] == b[0] then [a[0]] + CommonPrefix(a[1..], b[1..]) else []
  }

  /**
   * The margin `dedent` removes: the longest common prefix of the indentation of
   * the lines that are not blank, or `None` when every line is blank.
   */
  function Margin(ls: seq<string>): (m: Option<string>)
    ensures m.None? <==> forall i :: 0 <= i < |ls| ==> IsBlank(ls[i])
    ensures m.Some? ==> forall i :: 0 <= i < |ls| && !IsBlank(ls[i]) ==> m.value <= Indent(ls[i])
  {
    if ls == [] then None
    else
      var rest := Margin(ls[1..]);
      assert forall i :: 1 <= i < |ls| ==> ls[i] == ls[1..][i - 1];
      if IsBlank(ls[0]) then rest
      else if rest.None? then Some(Indent(ls[0]))
      else Some(CommonPrefix(Indent(ls[0]), rest.value))
  }

  /** A line after dedenting: empty when blank, else without the margin it starts with. */
  function DedentLine(line: string, margin: string): string {
    if IsBlank(line) then "" else if margin <= line then line[|margin|..] else line
  }

  /** `textwrap.dedent(text)`. */
  function Dedent(text: string): (r: string) {
    var ls := Lines(text);
    var margin := Margin(ls);
    var m := if margin.Some? then margin.value else "";
    Join(seq(|ls|, i requires 0 <= i < |ls| => DedentLine(ls[i], m)))
  }

  /** A line whose text starts at the first column leaves nothing to remove: every non-blank line is kept whole. */
  lemma UnindentedLineKeepsAll(ls: seq<string>, k: int)
    requires 0 <= k < |ls| && !IsBlank(ls[k]) && Indent(ls[k]) == ""
    ensures Margin(ls) == Some("")
    ensures forall i :: 0 <= i < |ls| && !IsBlank(ls[i]) ==> DedentLine(ls[i], "") == ls[i]
  {
  }
}
