/** Running the docker CLI: output arrives in chunks and is reported line by line. */
module DockerLines {
  import opened Wrappers

  datatype RunResult = RunResult(code: int, stdout: string, stderr: string)

  // --- splitting ---------------------------------------------------------------------

  /** `text.split(sep)`. */
  function Split(text: string, sep: char): (parts: seq<string>)
    ensures parts != []
  {
    if text == "" then [""]
    else
      var parts := Split(text[1..], sep);
      if text[0] == sep then [""] + parts else [[text[0]] + parts[0]] + parts[1..]
  }

  function Join(parts: seq<string>, sep: char): string
    requires parts != []
  {
    if |parts| == 1 then parts[0] else parts[0] + [sep] + Join(parts[1..], sep)
  }

  /** Splitting loses nothing and leaves no separator behind. */
  lemma {:induction false} SplitThenJoin(text: string, sep: char)
    ensures Join(Split(text, sep), sep) == text
    ensures forall part :: part in Split(text, sep) ==> sep !in part
  {
    if text != "" {
      var parts := Split(text[1..], sep);
      SplitThenJoin(text[1..], sep);
      if text[0] == sep {
        assert ([""] + parts)[1..] == parts;
        assert Join([""] + parts, sep) == "" + [sep] + Join(parts, sep);
      } else {
        var all := [[text[0]] + parts[0]] + parts[1..];
        assert all[1..] == parts[1..] && parts[0] in parts;
        forall part | part in all ensures sep !in part {
          if part != all[0] {
            assert part in parts[1..];
          }
        }
        assert Join(all, sep) == [text[0]] + Join(parts, sep);
      }
    }
  }

  function AllButLast<T>(s: seq<T>): seq<T>
    requires s != []
  {
    s[..|s| - 1]
  }

  function End<T>(s: seq<T>): T
    requires s != []
  {
    s[|s| - 1]
  }

  /** Splitting a longer text only re-splits what followed the last separator. */
  lemma {:induction false} SplitContinues(a: string, b: string, sep: char)
    ensures Split(a + b, sep) == AllButLast(Split(a, sep)) + Split(End(Split(a, sep)) + b, sep)
  {
    if a == "" {
      assert a + b == b && "" + b == b;
    } else {
      var rest := Split(a[1..], sep);
      SplitContinues(a[1..], b, sep);
      assert (a + b)[1..] == a[1..] + b && (a + b)[0] == a[0];
      if a[0] == sep {
        SplitAfterSeparator(rest, Split(a[1..] + b, sep), b, sep);
      } else {
        SplitAfterOther(a[0], rest, Split(a[1..] + b, sep), b, sep);
      }
    }
  }

  lemma SplitAfterSeparator(rest: seq<string>, whole: seq<string>, b: string, sep: char)
    requires rest != [] && whole == AllButLast(rest) + Split(End(rest) + b, sep)
    ensures [""] + whole == AllButLast([""] + rest) + Split(End([""] + rest) + b, sep)
  {
    assert AllButLast([""] + rest) == [""] + AllButLast(rest);
  }

  lemma SplitAfterOther(c: char, rest: seq<string>, whole: seq<string>, b: string, sep: char)
    requires rest != [] && c != sep && whole == AllButLast(rest) + Split(End(rest) + b, sep)
    ensures var longer := [[c] + rest[0]] + rest[1..];
      [[c] + whole[0]] + whole[1..] == AllButLast(longer) + Split(End(longer) + b, sep)
  {
    var longer := [[c] + rest[0]] + rest[1..];
    if |rest| == 1 {
      assert AllButLast(rest) == [] && AllButLast(longer) == [];
      var text := [c] + rest[0] + b;
      assert text[1..] == rest[0] + b;
    } else {
      assert AllButLast(longer) == [[c] + rest[0]] + AllButLast(rest)[1..];
      assert whole[0] == rest[0];
    }
  }

  // --- one line ----------------------------------------------------------------------

  function TrimEnd(text: string, space: char -> bool): (r: string)
    ensures r <= text && (r != "" ==> !space(r[|r| - 1]))
    ensures forall i :: |r| <= i < |text| ==> space(text[i])
  {
    if text != "" && space(text[|text| - 1]) then TrimEnd(text[..|text| - 1], space) else text
  }

  /** What a raw line shows: the part after the last carriage return, without trailing space. */
  function Rendering(raw: string, space: char -> bool): string {
    TrimEnd(End(Split(raw, '\r')), space)
  }

  /** The text after the last separator. */
  lemma {:induction false} LastPart(raw: string, sep: char) returns (i: nat)
    ensures i <= |raw| && (i == 0 || raw[i - 1] == sep) && sep !in raw[i..]
    ensures End(Split(raw, sep)) == raw[i..]
  {
    if raw == "" {
      i := 0;
    } else {
      var k := LastPart(raw[1..], sep);
      assert raw[1..][k..] == raw[k + 1..];
      if k > 0 || raw[0] == sep {
        assert k > 0 ==> raw[1..][k - 1] == raw[k];
        i := k + 1;
        LastOfMore(raw, sep, k);
      } else {
        i := 0;
        LastIsAll(raw, sep);
      }
    }
  }

  lemma LastOfMore(raw: string, sep: char, k: nat)
    requires raw != "" && k <= |raw| - 1 && (k > 0 || raw[0] == sep)
    requires (k == 0 || raw[1..][k - 1] == sep) && End(Split(raw[1..], sep)) == raw[1..][k..]
    ensures End(Split(raw, sep)) == raw[k + 1..]
  {
    assert raw[1..][k..] == raw[k + 1..];
    if raw[0] != sep {
      assert |Split(raw[1..], sep)| > 1 by {
        SplitThenJoin(raw[1..], sep);
        assert raw[1..][k - 1] in raw[1..];
      }
    }
  }

  lemma {:induction false} JoinIsLonger(parts: seq<string>, sep: char)
    requires parts != []
    ensures |Join(parts, sep)| >= |parts| - 1 + |End(parts)|
  {
    if |parts| > 1 {
      JoinIsLonger(parts[1..], sep);
    }
  }

  lemma LastIsAll(raw: string, sep: char)
    requires raw != "" && raw[0] != sep && End(Split(raw[1..], sep)) == raw[1..]
    ensures End(Split(raw, sep)) == raw
  {
    SplitThenJoin(raw[1..], sep);
    JoinIsLonger(Split(raw[1..], sep), sep);
    assert raw == [raw[0]] + raw[1..];
  }

  /** A raw line shows what follows its last carriage return, up to its last character that is no space. */
  lemma RenderingIs(raw: string, space: char -> bool)
    ensures exists i: nat, j: nat :: i <= j <= |raw| && Shows(raw, space, i, j) && Rendering(raw, space) == raw[i..j]
  {
    var i := LastPart(raw, '\r');
    var j := i + |Rendering(raw, space)|;
    assert raw[i..][..|Rendering(raw, space)|] == raw[i..j];
    forall k | j <= k < |raw| ensures space(raw[k]) {
      assert raw[i..][k - i] == raw[k];
    }
    assert Shows(raw, space, i, j);
  }

  /** From the last carriage return on, or from the start, and up to the trailing space. */
  predicate Shows(raw: string, space: char -> bool, i: nat, j: nat) {
    && i <= j <= |raw|
    && (i == 0 || raw[i - 1] == '\r') && (forall k :: i <= k < |raw| ==> raw[k] != '\r')
    && (i < j ==> !space(raw[j - 1])) && (forall k :: j <= k < |raw| ==> space(raw[k]))
  }

  /** The non-empty renderings, in order. */
  function Renderings(parts: seq<string>, space: char -> bool): seq<string> {
    if parts == [] then []
    else
      Renderings(AllButLast(parts), space)
      + (if Rendering(End(parts), space) != "" then [Rendering(End(parts), space)] else [])
  }

  lemma {:induction false} RenderingsConcat(a: seq<string>, b: seq<string>, space: char -> bool)
    ensures Renderings(a + b, space) == Renderings(a, space) + Renderings(b, space)
  {
    if b == [] {
      assert a + b == a;
    } else {
      assert AllButLast(a + b) == a + AllButLast(b) && End(a + b) == End(b);
      RenderingsConcat(a, AllButLast(b), space);
    }
  }

  /** The lines of a whole text. */
  function LinesOf(text: string, space: char -> bool): seq<string> {
    Renderings(Split(text, '\n'), space)
  }

  /** What is out before the stream closes: all complete lines, but not the text after the last newline. */
  ghost predicate Caught(text: string, pending: string, lines: seq<string>, space: char -> bool) {
    pending == End(Split(text, '\n')) && lines == Renderings(AllButLast(Split(text, '\n')), space)
  }

  /** One more chunk, wherever it was cut. */
  lemma CatchUp(text: string, pending: string, lines: seq<string>, chunk: string, space: char -> bool)
    requires Caught(text, pending, lines, space)
    ensures var parts := Split(pending + chunk, '\n');
      Caught(text + chunk, End(parts), lines + Renderings(AllButLast(parts), space), space)
  {
    var before, parts := Split(text, '\n'), Split(pending + chunk, '\n');
    SplitContinues(text, chunk, '\n');
    assert AllButLast(AllButLast(before) + parts) == AllButLast(before) + AllButLast(parts);
    RenderingsConcat(AllButLast(before), AllButLast(parts), space);
  }

  // --- a run -------------------------------------------------------------------------

  /** One stream of the process. */
  class StreamLines {
    const space: char -> bool
    var captured: string
    var pending: string
    /** The lines reported so far. */
    var lines: seq<string>
    var closed: bool
    /** All text the stream has sent; `noted` once something else was added to the captured text. */
    ghost var sent: string
    ghost var noted: bool

    constructor (space: char -> bool)
      ensures Valid() && !closed && !noted && sent == "" && this.space == space
    {
      this.space, captured, pending, lines, closed, sent, noted := space, "", "", [], false, "", false;
      new;
      assert AllButLast(Split("", '\n')) == [];
    }

    ghost predicate Valid()
      reads this
    {
      && (if closed then lines == LinesOf(sent, space) else Caught(sent, pending, lines, space))
      && (!noted ==> captured == sent)
    }

    /** A chunk of decoded text. */
    method Data(text: string)
      requires Valid() && !closed
      modifies this
      ensures Valid() && !closed && noted == old(noted)
      ensures sent == old(sent) + text && captured == old(captured) + text
    {
      CatchUp(sent, pending, lines, text, space);
      captured := captured + text;
      sent := sent + text;
      var parts := Split(pending + text, '\n');
      pending := End(parts);
      EmitAll(AllButLast(parts));
    }

    method EmitAll(parts: seq<string>)
      modifies this`lines
      ensures lines == old(lines) + Renderings(parts, space)
    {
      var i := 0;
      while i < |parts|
        invariant 0 <= i <= |parts|
        invariant lines == old(lines) + Renderings(parts[..i], space)
      {
        assert AllButLast(parts[..i + 1]) == parts[..i] && End(parts[..i + 1]) == parts[i];
        Emit(parts[i]);
        i := i + 1;
      }
      assert parts[..i] == parts;
    }

    method Emit(raw: string)
      modifies this`lines
      ensures lines == old(lines) + (if Rendering(raw, space) != "" then [Rendering(raw, space)] else [])
    {
      var line := Rendering(raw, space);
      if line != "" {
        lines := lines + [line];
      }
    }

    /** What is pending is the last line. */
    method Close()
      requires Valid() && !closed
      modifies this
      ensures Valid() && closed && sent == old(sent) && captured == old(captured) && noted == old(noted)
    {
      Emit(pending);
      closed := true;
    }

    /** The message of an error is added to what was captured. */
    method Note(message: string)
      requires Valid()
      modifies this
      ensures Valid() && noted && captured == old(captured) + message
      ensures sent == old(sent) && closed == old(closed) && lines == old(lines)
    {
      captured := captured + message;
      noted := true;
    }
  }

  class DockerRun {
    const stdout: StreamLines
    const stderr: StreamLines
    var settled: Option<RunResult>

    constructor (space: char -> bool)
      ensures Valid() && fresh(stdout) && fresh(stderr) && !stdout.closed && !stderr.closed && settled == None
      ensures !stdout.noted && !stderr.noted && stdout.sent == "" && stderr.sent == ""
    {
      stdout := new StreamLines(space);
      stderr := new StreamLines(space);
      settled := None;
    }

    ghost predicate Valid()
      reads this, stdout, stderr
    {
      stdout != stderr && stdout.Valid() && stderr.Valid()
    }

    /** The first to settle decides the result, with what was captured by then. */
    method Finish(code: int)
      modifies this
      ensures settled == if old(settled).Some? then old(settled) else Some(RunResult(code, stdout.captured, stderr.captured))
    {
      if settled.Some? { return; }
      settled := Some(RunResult(code, stdout.captured, stderr.captured));
    }

    /** The process has ended: both streams report their last lines. */
    method Close(code: Option<int>)
      requires Valid() && !stdout.closed && !stderr.closed
      modifies this, stdout, stderr
      ensures Valid() && stdout.closed && stderr.closed
      ensures stdout.sent == old(stdout.sent) && stderr.sent == old(stderr.sent)
      ensures stdout.lines == LinesOf(stdout.sent, stdout.space) && stderr.lines == LinesOf(stderr.sent, stderr.space)
      ensures old(settled).None? && !old(stdout.noted) && !old(stderr.noted) ==>
        settled == Some(RunResult(if code.Some? then code.value else 1, stdout.sent, stderr.sent))
      ensures old(settled).Some? ==> settled == old(settled)
    {
      stdout.Close();
      stderr.Close();
      Finish(if code.Some? then code.value else 1);
    }

    /** The process could not be run. */
    method Fail(message: string)
      requires Valid()
      modifies this, stderr
      ensures Valid() && stderr.captured == old(stderr.captured) + message && stderr.lines == old(stderr.lines)
      ensures settled == if old(settled).Some? then old(settled) else Some(RunResult(1, stdout.captured, stderr.captured))
    {
      stderr.Note(message);
      Finish(1);
    }

    /** Killed after the timeout (124) or an abort (130). */
    method Terminate(code: int)
      requires Valid()
      modifies this
      ensures Valid()
      ensures settled == if old(settled).Some? then old(settled) else Some(RunResult(code, stdout.captured, stderr.captured))
    {
      Finish(code);
    }
  }

  // --- chunk boundaries do not matter ------------------------------------------------

  function Concat(chunks: seq<string>): string {
    if chunks == [] then "" else Concat(AllButLast(chunks)) + End(chunks)
  }

  /** Whatever the chunks, the lines reported are those of the whole text. */
  method Stream(chunks: seq<string>, space: char -> bool) returns (lines: seq<string>, captured: string)
    ensures lines == LinesOf(Concat(chunks), space) && captured == Concat(chunks)
  {
    var stream := new StreamLines(space);
    var i := 0;
    while i < |chunks|
      invariant 0 <= i <= |chunks|
      invariant stream.Valid() && !stream.closed && !stream.noted && stream.sent == Concat(chunks[..i])
    {
      assert AllButLast(chunks[..i + 1]) == chunks[..i] && End(chunks[..i + 1]) == chunks[i];
      stream.Data(chunks[i]);
      i := i + 1;
    }
    assert chunks[..i] == chunks;
    stream.Close();
    lines, captured := stream.lines, stream.captured;
  }
}
