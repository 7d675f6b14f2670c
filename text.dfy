/** Text shapes produced by the scheduler: separator-joined lists and newline-terminated lines. */
module Text {

  /** The parts with `sep` between consecutive parts and none after the last;
      an empty list joins to the empty string. */
  function Join(parts: seq<string>, sep: char): string
  {
    if |parts| == 0 then ""
    else if |parts| == 1 then parts[0]
    else parts[0] + [sep] + Join(parts[1..], sep)
  }

  /** Cuts `s` at every occurrence of `sep`; there is always at least one piece. */
  function Split(s: string, sep: char): (r: seq<string>)
    ensures |r| >= 1
    ensures s == [] ==> r == [""]
  {
    if s == [] then [""]
    else if s[0] == sep then [""] + Split(s[1..], sep)
    else
      var rest := Split(s[1..], sep);
      [[s[0]] + rest[0]] + rest[1..]
  }

  /** Each line followed by a newline, all concatenated: the shape of a text buffer
      filled by one formatted write per line. */
  function Render(lines: seq<string>): string
  {
    if lines == [] then "" else lines[0] + "\n" + Render(lines[1..])
  }

  predicate FreeOf(parts: seq<string>, c: char)
  {
    forall i :: 0 <= i < |parts| ==> c !in parts[i]
  }

  lemma {:induction false} SplitWithout(p: string, sep: char)
    requires sep !in p
    ensures Split(p, sep) == [p]
  {
    if p != [] {
      assert sep !in p[1..];
      SplitWithout(p[1..], sep);
      assert [p[0]] + p[1..] == p;
    }
  }

  lemma {:induction false} SplitAtFirst(p: string, sep: char, t: string)
    requires sep !in p
    ensures Split(p + [sep] + t, sep) == [p] + Split(t, sep)
  {
    var s := p + [sep] + t;
    if p == [] {
      assert s[0] == sep && s[1..] == t;
    } else {
      assert s[0] == p[0] && s[0] != sep;
      assert s[1..] == p[1..] + [sep] + t;
      assert sep !in p[1..];
      SplitAtFirst(p[1..], sep, t);
      assert [p[0]] + p[1..] == p;
    }
  }

  /** Splitting a joined list at the separator gives the list back, provided no part
      contains the separator (an empty list is not recoverable: it joins to "", as [""] does). */
  lemma {:induction false} SplitJoin(parts: seq<string>, sep: char)
    requires |parts| >= 1 && FreeOf(parts, sep)
    ensures Split(Join(parts, sep), sep) == parts
  {
    if |parts| == 1 {
      SplitWithout(parts[0], sep);
    } else {
      assert FreeOf(parts[1..], sep) by {
        forall i | 0 <= i < |parts| - 1 ensures sep !in parts[1..][i] {
          assert parts[1..][i] == parts[i + 1];
        }
      }
      SplitJoin(parts[1..], sep);
      assert sep !in parts[0];
      SplitAtFirst(parts[0], sep, Join(parts[1..], sep));
      assert [parts[0]] + parts[1..] == parts;
    }
  }

  /** Adding one more part to a non-empty list adds a separator and the part. */
  lemma {:induction false} JoinSnoc(parts: seq<string>, part: string, sep: char)
    requires |parts| >= 1
    ensures Join(parts + [part], sep) == Join(parts, sep) + [sep] + part
  {
    var all := parts + [part];
    if |parts| == 1 {
      assert all[1..] == [part];
    } else {
      assert all[0] == parts[0] && all[1..] == parts[1..] + [part];
      JoinSnoc(parts[1..], part, sep);
    }
  }

  /** Appending lines to the buffer appends their rendering. */
  lemma {:induction false} RenderAppend(a: seq<string>, b: seq<string>)
    ensures Render(a + b) == Render(a) + Render(b)
  {
    if a != [] {
      assert (a + b)[0] == a[0] && (a + b)[1..] == a[1..] + b;
      RenderAppend(a[1..], b);
    } else {
      assert a + b == b;
    }
  }

  /** A buffer holding `out` and then the rendering of `done`, extended by the rendering
      of `next`, holds `out` and then the rendering of `done + next`. */
  lemma RenderExtend(out: string, written: string, done: seq<string>, next: seq<string>)
    requires written == out + Render(done)
    ensures written + Render(next) == out + Render(done + next)
  {
    RenderAppend(done, next);
    var a, b := Render(done), Render(next);
    assert out + a + b == out + (a + b);
  }

  /** Writing one more line appends that line and its newline to the buffer. */
  lemma RenderSnoc(lines: seq<string>, line: string)
    ensures Render(lines + [line]) == Render(lines) + line + "\n"
  {
    RenderAppend(lines, [line]);
    assert Render([line]) == line + "\n" + Render([]);
  }

  /** Reading the rendered buffer back line by line gives the lines, followed by the
      empty piece after the final newline. */
  lemma {:induction false} SplitRender(lines: seq<string>)
    requires FreeOf(lines, '\n')
    ensures Split(Render(lines), '\n') == lines + [""]
  {
    if lines != [] {
      assert FreeOf(lines[1..], '\n') by {
        forall i | 0 <= i < |lines| - 1 ensures '\n' !in lines[1..][i] {
          assert lines[1..][i] == lines[i + 1];
        }
      }
      SplitRender(lines[1..]);
      assert '\n' !in lines[0];
      SplitAtFirst(lines[0], '\n', Render(lines[1..]));
      assert lines[0] + "\n" + Render(lines[1..]) == lines[0] + ['\n'] + Render(lines[1..]);
      assert [lines[0]] + lines[1..] == lines;
    }
  }
}
