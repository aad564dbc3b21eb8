/**
 * The indentation-aware text sink of the generator (`Writer` in
 * src/generator.rs). `Emitted` is the text one write appends; the lemmas
 * say that indentation goes only before the first character of a non-empty
 * line, that writes compose, and that stripping the indentation gives the
 * written text back.
 */
module Emitter {

  /** The indentation for `depth` levels: four spaces per level. */
  function Indentation(depth: nat): (r: string)
    ensures |r| == 4 * depth
  {
    if depth == 0 then "" else Indentation(depth - 1) + "    "
  }

  /**
   * What writing `s` appends to the buffer of a writer at `depth` whose
   * start-of-line flag is `start`.
   */
  function Emitted(depth: nat, start: bool, s: string): string
    decreases |s|
  {
    if s == [] then ""
    else if s[0] == '\n' then "\n" + Emitted(depth, true, s[1..])
    else (if start then Indentation(depth) else "") + [s[0]] + Emitted(depth, false, s[1..])
  }

  /** Writing never drops a character: the appended text is at least as long as `s`. */
  lemma {:induction false} EmittedLonger(depth: nat, start: bool, s: string)
    ensures |Emitted(depth, start, s)| >= |s|
    decreases |s|
  {
    if s != [] {
      EmittedLonger(depth, s[0] == '\n', s[1..]);
    }
  }

  /** The start-of-line flag after writing `s`. */
  function StartAfter(start: bool, s: string): bool
  {
    if s == [] then start else s[|s| - 1] == '\n'
  }

  /** The inverse of `Emitted`: drop `4 * depth` characters at the head of each non-empty line. */
  function Unindent(depth: nat, start: bool, t: string): string
    decreases |t|
  {
    if t == [] then ""
    else if t[0] == '\n' then "\n" + Unindent(depth, true, t[1..])
    else if start && 4 * depth < |t| then [t[4 * depth]] + Unindent(depth, false, t[4 * depth + 1..])
    else [t[0]] + Unindent(depth, false, t[1..])
  }

  /** Writing two strings one after the other appends what writing their concatenation does. */
  lemma {:induction false} EmittedAppend(depth: nat, start: bool, a: string, b: string)
    ensures Emitted(depth, start, a + b)
         == Emitted(depth, start, a) + Emitted(depth, StartAfter(start, a), b)
    decreases |a|
  {
    if a != [] {
      var next := a[0] == '\n';
      var head := if next then "\n" else (if start then Indentation(depth) else "") + [a[0]];
      assert (a + b)[0] == a[0];
      assert (a + b)[1..] == a[1..] + b;
      assert Emitted(depth, start, a + b) == head + Emitted(depth, next, a[1..] + b);
      assert Emitted(depth, start, a) == head + Emitted(depth, next, a[1..]);
      EmittedAppend(depth, next, a[1..], b);
      if a[1..] != [] {
        assert a[1..][|a[1..]| - 1] == a[|a| - 1];
      }
      assert StartAfter(next, a[1..]) == StartAfter(start, a);
      StringAssoc(head, Emitted(depth, next, a[1..]), Emitted(depth, StartAfter(start, a), b));
    } else {
      assert a + b == b;
    }
  }

  lemma StringAssoc(x: string, y: string, z: string)
    ensures x + (y + z) == (x + y) + z
  {
  }

  /** A writer at depth zero copies its input unchanged, whatever its start flag. */
  lemma {:induction false} EmittedFlat(start: bool, s: string)
    ensures Emitted(0, start, s) == s
    decreases |s|
  {
    if s != [] {
      EmittedFlat(s[0] == '\n', s[1..]);
    }
  }

  /** Inside a line (not at its start) nothing is inserted. */
  lemma {:induction false} EmittedMidLine(depth: nat, s: string)
    requires forall i :: 0 <= i < |s| ==> s[i] != '\n'
    ensures Emitted(depth, false, s) == s
    decreases |s|
  {
    if s != [] {
      EmittedMidLine(depth, s[1..]);
    }
  }

  /**
   * A line terminated by `writeln!` gets `4 * depth` spaces in front of it,
   * except an empty line, which gets none.
   */
  lemma EmittedLine(depth: nat, line: string)
    requires forall i :: 0 <= i < |line| ==> line[i] != '\n'
    ensures Emitted(depth, true, line + "\n")
         == (if line == "" then "" else Indentation(depth) + line) + "\n"
  {
    EmittedAppend(depth, true, line, "\n");
    if line != [] {
      EmittedMidLine(depth, line[1..]);
      assert Emitted(depth, true, line) == Indentation(depth) + [line[0]] + line[1..];
      StringAssoc(Indentation(depth), [line[0]], line[1..]);
      assert [line[0]] + line[1..] == line;
      assert Emitted(depth, false, "\n") == "\n";
    }
  }

  /** Stripping the inserted indentation gives back exactly the text written. */
  lemma {:induction false} UnindentEmitted(depth: nat, start: bool, s: string)
    ensures Unindent(depth, start, Emitted(depth, start, s)) == s
    decreases |s|
  {
    if s != [] {
      var t := Emitted(depth, start, s);
      if s[0] == '\n' {
        UnindentEmitted(depth, true, s[1..]);
        assert t[1..] == Emitted(depth, true, s[1..]);
      } else {
        var rest := Emitted(depth, false, s[1..]);
        UnindentEmitted(depth, false, s[1..]);
        if start {
          var pad := Indentation(depth);
          assert t == pad + [s[0]] + rest;
          if depth > 0 {
            assert t[0] == pad[0];
            IndentationIsSpaces(depth);
          }
          assert t[4 * depth] == s[0];
          assert t[4 * depth + 1..] == rest;
        } else {
          assert t[1..] == rest;
        }
      }
    }
  }

  lemma {:induction false} IndentationIsSpaces(depth: nat)
    ensures forall i :: 0 <= i < |Indentation(depth)| ==> Indentation(depth)[i] == ' '
  {
    if depth > 0 {
      IndentationIsSpaces(depth - 1);
    }
  }

  /** One `writeln!`: the writer's depth at that moment and the text without its newline. */
  datatype Line = Line(depth: nat, text: string)

  /** The text a fresh-line writer appends for `lines`. */
  function Render(lines: seq<Line>): string
  {
    if lines == [] then ""
    else
      var last := lines[|lines| - 1];
      Render(lines[..|lines| - 1]) + Emitted(last.depth, true, last.text + "\n")
  }

  lemma RenderSnoc(lines: seq<Line>, l: Line)
    ensures Render(lines + [l]) == Render(lines) + Emitted(l.depth, true, l.text + "\n")
  {
    assert (lines + [l])[..|lines|] == lines;
  }

  /**
   * A line without newlines renders as its indentation, its text and a
   * newline; an empty line as the newline alone.
   */
  lemma RenderLine(lines: seq<Line>, l: Line)
    requires forall i :: 0 <= i < |l.text| ==> l.text[i] != '\n'
    ensures Render(lines + [l]) == Render(lines) + (if l.text == "" then "" else Indentation(l.depth) + l.text) + "\n"
  {
    RenderSnoc(lines, l);
    EmittedLine(l.depth, l.text);
  }

  /** Rendering distributes over concatenation of line lists. */
  lemma {:induction false} RenderAppend(a: seq<Line>, b: seq<Line>)
    ensures Render(a + b) == Render(a) + Render(b)
    decreases |b|
  {
    if b == [] {
      assert a + b == a;
    } else {
      var b' := b[..|b| - 1];
      var l := b[|b| - 1];
      assert a + b == (a + b') + [l];
      assert b == b' + [l];
      RenderAppend(a, b');
      RenderSnoc(a + b', l);
      RenderSnoc(b', l);
    }
  }

  /**
   * The generator's output buffer (`buf`), indent depth and start-of-line
   * flag. `lines` is a ghost record of the lines the generator has finished
   * through this writer; the writer's own operations leave it alone.
   */
  class Writer {
    var buf: string
    var indent: nat
    var start: bool
    ghost var lines: seq<Line>

    constructor ()
      ensures buf == "" && indent == 0 && start && lines == []
    {
      buf := "";
      indent := 0;
      start := true;
      lines := [];
    }

    method Indent()
      modifies this
      ensures indent == old(indent) + 1
      ensures buf == old(buf) && start == old(start) && lines == old(lines)
    {
      indent := indent + 1;
    }

    /** Underflow is a panic in the source, so callers must not outdent at depth zero. */
    method Outdent()
      requires indent > 0
      modifies this
      ensures indent == old(indent) - 1
      ensures buf == old(buf) && start == old(start) && lines == old(lines)
    {
      indent := indent - 1;
    }

    method End() returns (s: string)
      ensures s == buf
    {
      s := buf;
    }

    /** Copies `s` character by character, indenting at the first character of each non-empty line. */
    method WriteStr(s: string)
      modifies this
      ensures buf == old(buf) + Emitted(indent, old(start), s)
      ensures start == StartAfter(old(start), s)
      ensures indent == old(indent) && lines == old(lines)
    {
      for i := 0 to |s|
        invariant buf == old(buf) + Emitted(indent, old(start), s[..i])
        invariant start == StartAfter(old(start), s[..i])
        invariant indent == old(indent) && lines == old(lines)
      {
        assert s[..i + 1] == s[..i] + [s[i]];
        EmittedAppend(indent, old(start), s[..i], [s[i]]);
        PutChar(s[i]);
        StringAssoc(old(buf), Emitted(indent, old(start), s[..i]), Emitted(indent, StartAfter(old(start), s[..i]), [s[i]]));
      }
      assert s[..|s|] == s;
    }

    /** One round of `write_str`'s loop: a newline, or the character after the indentation a fresh line needs. */
    method PutChar(c: char)
      modifies this
      ensures buf == old(buf) + Emitted(indent, old(start), [c])
      ensures start == StartAfter(old(start), [c])
      ensures indent == old(indent) && lines == old(lines)
    {
      if c == '\n' {
        buf := buf + "\n";
        start := true;
      } else {
        if start {
          ghost var before := buf;
          for k := 0 to indent
            invariant buf == before + Indentation(k)
            invariant indent == old(indent) && start && lines == old(lines)
          {
            buf := buf + "    ";
          }
          start := false;
        }
        buf := buf + [c];
      }
    }

    /** `writeln!`: the text, then a newline. */
    method WriteLn(s: string)
      modifies this
      ensures buf == old(buf) + Emitted(indent, old(start), s + "\n")
      ensures start
      ensures indent == old(indent) && lines == old(lines)
    {
      WriteStr(s);
      WriteStr("\n");
      EmittedAppend(indent, old(start), s, "\n");
    }
  }
}
