/** Texts made of lines: rendering lines and splitting them again. */
module Texts {

  predicate OneLine(s: string) { '\n' !in s }

  /** A line of text, without the newline that ends it. */
  type LineText = s: string | '\n' !in s

  predicate AllOneLine(ls: seq<string>) { forall l :: l in ls ==> OneLine(l) }

  function Render(line: string): string { line + "\n" }

  function RenderAll(ls: seq<string>): string {
    if ls == [] then "" else Render(ls[0]) + RenderAll(ls[1..])
  }

  lemma {:induction false} RenderConcat(a: seq<string>, b: seq<string>)
    ensures RenderAll(a + b) == RenderAll(a) + RenderAll(b)
  {
    if a == [] {
      assert a + b == b;
    } else {
      assert (a + b)[0] == a[0] && (a + b)[1..] == a[1..] + b;
      RenderConcat(a[1..], b);
    }
  }

  function LineEnd(text: string): (n: nat)
    ensures n <= |text| && (n < |text| ==> text[n] == '\n') && '\n' !in text[..n]
  {
    if text == [] || text[0] == '\n' then 0
    else
      var n := 1 + LineEnd(text[1..]);
      assert text[..n] == [text[0]] + text[1..][..n - 1];
      n
  }

  function Lines(text: string): seq<string>
    decreases |text|
  {
    if text == [] then []
    else
      var n := LineEnd(text);
      [text[..n]] + (if n < |text| then Lines(text[n + 1..]) else [])
  }

  lemma FirstAt(line: string, rest: string)
    requires '\n' !in line
    ensures LineEnd(line + ['\n'] + rest) == |line|
  {
    var text := line + ['\n'] + rest;
    if line == [] {
      assert text[0] == '\n';
    } else {
      assert text[0] == line[0] && text[1..] == line[1..] + ['\n'] + rest;
      assert line[0] in line;
      FirstAt(line[1..], rest);
    }
  }

  lemma FirstLine(line: string, rest: string)
    requires '\n' !in line
    ensures Lines(Render(line) + rest) == [line] + Lines(rest)
  {
    FirstAt(line, rest);
    var text := Render(line) + rest;
    assert text == line + ['\n'] + rest;
    assert text[..|line|] == line && text[|line| + 1..] == rest;
  }

  lemma {:induction false} LinesRender(ls: seq<string>)
    requires AllOneLine(ls)
    ensures Lines(RenderAll(ls)) == ls
  {
    if ls != [] {
      LinesRender(ls[1..]);
      assert OneLine(ls[0]);
      FirstLine(ls[0], RenderAll(ls[1..]));
    }
  }
}
